/**
 * The QString and QStringList operations the plugin relies on:
 * splitting on a separator, joining, whitespace trimming and decimal
 * rendering of integers (QString::number and QString::arg).
 */
module Strings {

  /** QString::split(sep) keeping empty parts: the text between separators, in order. */
  function Split(s: string, sep: char): (parts: seq<string>)
    ensures |parts| >= 1
    ensures forall i :: 0 <= i < |parts| ==> sep !in parts[i]
  {
    if s == [] then [""]
    else
      var rest := Split(s[1..], sep);
      if s[0] == sep then [""] + rest
      else [[s[0]] + rest[0]] + rest[1..]
  }

  /** QStringList::join(sep). */
  function Join(parts: seq<string>, sep: char): string
  {
    if parts == [] then ""
    else if |parts| == 1 then parts[0]
    else parts[0] + [sep] + Join(parts[1..], sep)
  }

  /** The reports of the command executor are lists of lines joined by newlines. */
  function JoinLines(lines: seq<string>): string
  {
    Join(lines, '\n')
  }

  /** Splitting loses nothing: joining the parts back gives the original text. */
  lemma {:induction false} JoinOfSplit(s: string, sep: char)
    ensures Join(Split(s, sep), sep) == s
  {
    if s != [] {
      JoinOfSplit(s[1..], sep);
      var rest := Split(s[1..], sep);
      if s[0] == sep {
        assert Split(s, sep) == [""] + rest;
        assert ([""] + rest)[1..] == rest;
      } else {
        var parts := Split(s, sep);
        assert parts == [[s[0]] + rest[0]] + rest[1..];
        if |rest| == 1 {
          assert parts == [[s[0]] + rest[0]];
        } else {
          assert parts[1..] == rest[1..];
          assert Join(rest, sep) == rest[0] + [sep] + Join(rest[1..], sep);
        }
      }
    }
  }

  /** Joining parts that hold no separator and splitting again gives the parts back. */
  lemma {:induction false} SplitOfJoin(parts: seq<string>, sep: char)
    requires |parts| >= 1
    requires forall i :: 0 <= i < |parts| ==> sep !in parts[i]
    ensures Split(Join(parts, sep), sep) == parts
    decreases |parts|, |parts[0]|
  {
    if |parts| == 1 {
      SplitOfPlain(parts[0], sep);
    } else if parts[0] == "" {
      var tail := parts[1..];
      SplitOfJoin(tail, sep);
      assert Join(parts, sep) == [sep] + Join(tail, sep);
      assert ([sep] + Join(tail, sep))[1..] == Join(tail, sep);
      assert [""] + tail == parts;
    } else {
      var p0 := parts[0];
      var shorter := [p0[1..]] + parts[1..];
      assert shorter[1..] == parts[1..];
      forall i | 0 <= i < |shorter| ensures sep !in shorter[i] {
        if i == 0 {
          assert forall c :: c in p0[1..] ==> c in p0;
        }
      }
      SplitOfJoin(shorter, sep);
      var j := Join(parts, sep);
      assert j == p0 + [sep] + Join(parts[1..], sep);
      assert j[0] == p0[0] && j[0] != sep;
      assert j[1..] == Join(shorter, sep);
      var rest := Split(j[1..], sep);
      assert rest == shorter;
      assert [p0[0]] + p0[1..] == p0;
      assert Split(j, sep) == [[p0[0]] + rest[0]] + rest[1..];
    }
  }

  /** A text without separators splits into itself. */
  lemma {:induction false} SplitOfPlain(s: string, sep: char)
    requires sep !in s
    ensures Split(s, sep) == [s]
  {
    if s != [] {
      assert forall c :: c in s[1..] ==> c in s;
      SplitOfPlain(s[1..], sep);
      assert [s[0]] + s[1..] == s;
    }
  }

  /** A trailing separator adds one empty part. */
  lemma JoinWithTrailingSeparator(parts: seq<string>, sep: char)
    requires |parts| >= 1
    ensures Join(parts, sep) + [sep] == Join(parts + [""], sep)
    decreases |parts|
  {
    if |parts| > 1 {
      JoinWithTrailingSeparator(parts[1..], sep);
      assert (parts + [""])[1..] == parts[1..] + [""];
    }
  }

  /** QChar::isSpace: the Unicode white-space characters. */
  predicate IsSpace(c: char)
  {
    c == ' ' || ('\t' <= c <= '\r') || c == '\U{0085}' || c == '\U{00A0}' || c == '\U{1680}'
    || ('\U{2000}' <= c <= '\U{200A}') || c == '\U{2028}' || c == '\U{2029}' || c == '\U{202F}'
    || c == '\U{205F}' || c == '\U{3000}'
  }

  /** QString::trimmed().isEmpty(): the text is white space only. */
  predicate IsBlank(s: string)
  {
    forall i :: 0 <= i < |s| ==> IsSpace(s[i])
  }

  /** QString::split with Qt::SkipEmptyParts: the empty parts are dropped. */
  function NonEmpty(parts: seq<string>): (r: seq<string>)
    ensures |r| <= |parts|
    ensures forall i :: 0 <= i < |r| ==> r[i] != "" && r[i] in parts
    ensures forall p :: p in parts && p != "" ==> p in r
  {
    if parts == [] then []
    else
      var last := parts[|parts| - 1];
      NonEmpty(parts[..|parts| - 1]) + (if last == "" then [] else [last])
  }

  /** The parts that are not white space only, in order. */
  function NonBlank(parts: seq<string>): (r: seq<string>)
    ensures |r| <= |parts|
    ensures forall i :: 0 <= i < |r| ==> !IsBlank(r[i]) && r[i] in parts
    ensures forall p :: p in parts && !IsBlank(p) ==> p in r
  {
    if parts == [] then []
    else
      var last := parts[|parts| - 1];
      NonBlank(parts[..|parts| - 1]) + (if IsBlank(last) then [] else [last])
  }

  /** One more part: NonBlank keeps it exactly when it is not blank. */
  lemma NonBlankStep(parts: seq<string>, i: nat)
    requires i < |parts|
    ensures NonBlank(parts[..i + 1]) == NonBlank(parts[..i]) + (if IsBlank(parts[i]) then [] else [parts[i]])
  {
    assert parts[..i + 1][..i] == parts[..i];
  }

  /** Dropping empty parts first does not change which non-blank parts remain. */
  lemma {:induction false} NonBlankOfNonEmpty(parts: seq<string>)
    ensures NonBlank(NonEmpty(parts)) == NonBlank(parts)
  {
    if parts != [] {
      var init, last := parts[..|parts| - 1], parts[|parts| - 1];
      NonBlankOfNonEmpty(init);
      if last == "" {
        assert NonEmpty(parts) == NonEmpty(init);
        assert IsBlank(last);
        assert NonBlank(parts) == NonBlank(init) + [];
      } else {
        var ne := NonEmpty(init) + [last];
        assert ne[..|ne| - 1] == NonEmpty(init);
      }
    }
  }

  /** Parts that are all non-blank are kept as they are. */
  lemma {:induction false} NonBlankKeepsAll(parts: seq<string>)
    requires forall i :: 0 <= i < |parts| ==> !IsBlank(parts[i])
    ensures NonBlank(parts) == parts
  {
    if parts != [] {
      NonBlankKeepsAll(parts[..|parts| - 1]);
      assert parts[..|parts| - 1] + [parts[|parts| - 1]] == parts;
    }
  }

  function DigitChar(d: nat): (c: char)
    requires d < 10
    ensures '0' <= c <= '9'
  {
    ('0' as int + d) as char
  }

  predicate IsDigits(s: string)
  {
    forall i :: 0 <= i < |s| ==> '0' <= s[i] <= '9'
  }

  /** QString::number for a non-negative integer: decimal digits, no leading zero. */
  function NatToString(n: nat): (s: string)
    ensures |s| >= 1 && IsDigits(s)
    ensures s[0] == '0' ==> n == 0
    decreases n
  {
    if n < 10 then [DigitChar(n)] else NatToString(n / 10) + [DigitChar(n % 10)]
  }

  /** QString::number and QString::arg for an int: a leading minus for negatives. */
  function IntToString(i: int): (s: string)
    ensures |s| >= 1
    ensures i >= 0 ==> s == NatToString(i)
    ensures i < 0 ==> s == "-" + NatToString(-i)
  {
    if i < 0 then "-" + NatToString(-i) else NatToString(i)
  }

  /** The number a string of decimal digits denotes. */
  function DecimalValue(s: string): nat
    requires IsDigits(s)
  {
    if s == [] then 0
    else DecimalValue(s[..|s| - 1]) * 10 + (s[|s| - 1] as int - '0' as int)
  }

  /** The decimal rendering can be read back: the value it denotes is the number. */
  lemma {:induction false} DecimalOfNatToString(n: nat)
    ensures DecimalValue(NatToString(n)) == n
    decreases n
  {
    if n >= 10 {
      DecimalOfNatToString(n / 10);
      var s := NatToString(n);
      assert s[..|s| - 1] == NatToString(n / 10);
    }
  }

  /** Distinct numbers render as distinct strings. */
  lemma NatToStringInjective(m: nat, n: nat)
    requires NatToString(m) == NatToString(n)
    ensures m == n
  {
    DecimalOfNatToString(m);
    DecimalOfNatToString(n);
  }

  predicate StartsWith(s: string, prefix: string)
  {
    |prefix| <= |s| && s[..|prefix|] == prefix
  }

  predicate EndsWith(s: string, suffix: string)
  {
    |suffix| <= |s| && s[|s| - |suffix|..] == suffix
  }
}

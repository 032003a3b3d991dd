/**
 * The command executor (MCPCommands): the advisory method-timeout table,
 * kept in a class because setMethodMetadata updates it in place, and the
 * commands against the host IDE, which read a host snapshot and report
 * the trigger they fire.
 */
module McpCommands {
  import opened Wrappers
  import opened Host
  import opened Strings

  // ---------------------------------------------------------------------
  // The advisory timeout table

  /** The methods whose timeout may be configured, in the order the source lists them. */
  const TimeoutMethods: seq<string> := ["debug", "build", "runProject", "loadSession", "cleanProject"]

  /** Keys are exactly the configurable methods and every timeout is non-negative. */
  predicate TableInvariant(t: map<string, int>)
  {
    && (forall m :: m in t ==> m in TimeoutMethods)
    && (forall m :: m in TimeoutMethods ==> m in t)
    && (forall m :: m in t ==> t[m] >= 0)
  }

  /** The table the constructor seeds. */
  function DefaultTimeouts(): (t: map<string, int>)
    ensures TableInvariant(t)
    ensures "debug" in t && "build" in t && "runProject" in t && "loadSession" in t && "cleanProject" in t
    ensures t["debug"] == 60 && t["build"] == 1200 && t["runProject"] == 60
    ensures t["loadSession"] == 30 && t["cleanProject"] == 300
  {
    map["debug" := 60, "build" := 1200, "runProject" := 60, "loadSession" := 30, "cleanProject" := 300]
  }

  /** QMap::value(method, -1). */
  function Lookup(t: map<string, int>, m: string): int
  {
    if m in t then t[m] else -1
  }

  /** Whether setMethodMetadata refuses the request. */
  predicate Rejected(m: string, timeout: int)
  {
    m == "" || timeout < 0 || m !in TimeoutMethods
  }

  /** An error line of a command report. */
  function Error(msg: string): (line: string)
    ensures StartsWith(line, "ERROR: ")
  {
    var line := "ERROR: " + msg;
    assert line[..7] == "ERROR: ";
    line
  }

  /** An information line of listIssues. */
  function Info(msg: string): (line: string)
    ensures |line| >= 5 && line[0] == 'I'
  {
    "INFO:" + msg
  }

  /** A warning line of listIssues. */
  function Warning(msg: string): (line: string)
    ensures StartsWith(line, "WARNING:") && line[0] == 'W'
  {
    var line := "WARNING:" + msg;
    assert line[..8] == "WARNING:";
    line
  }

  /** A line whose first character is not the prefix's is not an error line. */
  lemma NotStartsWith(s: string, prefix: string)
    requires s != [] && prefix != [] && s[0] != prefix[0]
    ensures !StartsWith(s, prefix)
  {
    if |prefix| <= |s| {
      assert s[..|prefix|][0] == s[0];
    }
  }

  const MetadataHeader: string := "=== SET METHOD METADATA ==="
  const EmptyNameError: string := Error("Method name cannot be empty")
  const NegativeTimeoutError: string := Error("Timeout cannot be negative")

  function UnsupportedMethodError(m: string): string
  {
    Error("Method '" + m + "' does not support timeout configuration")
  }

  function PreviousTimeoutLine(old_: int): string
  {
    "Previous timeout: " + (if old_ >= 0 then IntToString(old_) + " seconds" else "not set")
  }

  function NewTimeoutLine(timeout: int): string
  {
    "New timeout: " + IntToString(timeout) + " seconds"
  }

  datatype MetadataUpdate = MetadataUpdate(lines: seq<string>, table: map<string, int>)

  /** The report lines and the new table of setMethodMetadata. */
  function SetMetadata(t: map<string, int>, m: string, timeout: int): (r: MetadataUpdate)
    ensures |r.lines| >= 2 && r.lines[0] == MetadataHeader
    ensures Rejected(m, timeout) ==> r.table == t && StartsWith(r.lines[1], "ERROR: ")
    ensures m == "" ==> r.lines[1] == EmptyNameError
    ensures m != "" && timeout < 0 ==> r.lines[1] == NegativeTimeoutError
    ensures m != "" && timeout >= 0 && m !in TimeoutMethods ==> r.lines[1] == UnsupportedMethodError(m)
    ensures !Rejected(m, timeout) ==> r.table == t[m := timeout]
    ensures !Rejected(m, timeout) ==>
      |r.lines| >= 4 && r.lines[1] == "Method: " + m
      && r.lines[2] == PreviousTimeoutLine(Lookup(t, m)) && r.lines[3] == NewTimeoutLine(timeout)
  {
    if m == "" then MetadataUpdate([MetadataHeader, EmptyNameError], t)
    else if timeout < 0 then MetadataUpdate([MetadataHeader, NegativeTimeoutError], t)
    else if m !in TimeoutMethods then
      MetadataUpdate([MetadataHeader, UnsupportedMethodError(m), ValidMethodsLine], t)
    else
      MetadataUpdate([MetadataHeader, "Method: " + m, PreviousTimeoutLine(Lookup(t, m)), NewTimeoutLine(timeout)]
                     + MetadataTrailer, t[m := timeout])
  }

  const ValidMethodsLine: string := "Valid methods: debug, build, runProject, loadSession, cleanProject"

  const MetadataTrailer: seq<string> := [
    "",
    "Timeout updated successfully!",
    "Note: This change affects the timeout hints shown in method responses.",
    "The actual operation timeouts are still controlled by Qt Creator's internal mechanisms.",
    "",
    "=== SET METHOD METADATA RESULT ===",
    "Method metadata update completed."]

  /** The whole report of setMethodMetadata: its length and every line, rejection by rejection. */
  lemma SetMetadataReports(t: map<string, int>, m: string, timeout: int)
    ensures var lines := SetMetadata(t, m, timeout).lines;
            && (m == "" ==> lines == [MetadataHeader, EmptyNameError])
            && (m != "" && timeout < 0 ==> lines == [MetadataHeader, NegativeTimeoutError])
            && (m != "" && timeout >= 0 && m !in TimeoutMethods ==>
                  lines == [MetadataHeader, UnsupportedMethodError(m), ValidMethodsLine])
            && (!Rejected(m, timeout) ==> |lines| == 4 + |MetadataTrailer| && lines[4..] == MetadataTrailer)
  {
    if !Rejected(m, timeout) {
      var head := [MetadataHeader, "Method: " + m, PreviousTimeoutLine(Lookup(t, m)), NewTimeoutLine(timeout)];
      assert (head + MetadataTrailer)[4..] == MetadataTrailer;
    }
  }

  /** An accepted update is seen by the next lookup, and no other method's timeout moves. */
  lemma SetMetadataThenLookup(t: map<string, int>, m: string, timeout: int, other: string)
    requires !Rejected(m, timeout)
    ensures Lookup(SetMetadata(t, m, timeout).table, m) == timeout
    ensures other != m ==> Lookup(SetMetadata(t, m, timeout).table, other) == Lookup(t, other)
  {
  }

  /** Every update, accepted or not, keeps the table invariant. */
  lemma SetMetadataKeepsInvariant(t: map<string, int>, m: string, timeout: int)
    requires TableInvariant(t)
    ensures TableInvariant(SetMetadata(t, m, timeout).table)
  {
  }

  /** Under the invariant the previous value is always reported, never "not set". */
  lemma PreviousAlwaysSet(t: map<string, int>, m: string, timeout: int)
    requires TableInvariant(t) && !Rejected(m, timeout)
    ensures SetMetadata(t, m, timeout).lines[2] == "Previous timeout: " + IntToString(t[m]) + " seconds"
  {
  }

  /** MCPCommands' mutable state: the advisory timeout table. */
  class Commands {
    var timeouts: map<string, int>

    ghost predicate Valid()
      reads this
    {
      TableInvariant(timeouts)
    }

    constructor()
      ensures Valid() && timeouts == DefaultTimeouts()
    {
      timeouts := map[];
      new;
      timeouts := timeouts["debug" := 60];
      timeouts := timeouts["build" := 1200];
      timeouts := timeouts["runProject" := 60];
      timeouts := timeouts["loadSession" := 30];
      timeouts := timeouts["cleanProject" := 300];
    }

    /** Validates and stores a new timeout, returning the report text. */
    method SetMethodMetadata(m: string, timeoutSeconds: int) returns (report: string)
      requires Valid()
      modifies this
      ensures Valid()
      ensures report == JoinLines(SetMetadata(old(timeouts), m, timeoutSeconds).lines)
      ensures timeouts == SetMetadata(old(timeouts), m, timeoutSeconds).table
    {
      var results := [MetadataHeader];
      if m == "" {
        results := results + [EmptyNameError];
        assert results == [MetadataHeader, EmptyNameError];
        return JoinLines(results);
      }
      if timeoutSeconds < 0 {
        results := results + [NegativeTimeoutError];
        return JoinLines(results);
      }
      if m !in TimeoutMethods {
        results := results + [UnsupportedMethodError(m)];
        results := results + [ValidMethodsLine];
        assert results == [MetadataHeader, UnsupportedMethodError(m), ValidMethodsLine];
        return JoinLines(results);
      }
      var oldTimeout := Lookup(timeouts, m);
      timeouts := timeouts[m := timeoutSeconds];
      results := results + ["Method: " + m, PreviousTimeoutLine(oldTimeout), NewTimeoutLine(timeoutSeconds)];
      assert results == [MetadataHeader, "Method: " + m, PreviousTimeoutLine(oldTimeout), NewTimeoutLine(timeoutSeconds)];
      results := results + MetadataTrailer;
      report := JoinLines(results);
    }

    /** The stored timeout, or -1 for a method not in the table. */
    function GetMethodTimeout(m: string): (r: int)
      reads this
      ensures m in timeouts ==> r == timeouts[m]
      ensures m !in timeouts ==> r == -1
      ensures Valid() ==> (r >= 0 <==> m in TimeoutMethods)
    {
      Lookup(timeouts, m)
    }
  }

  // ---------------------------------------------------------------------
  // Commands against the host

  /** A trigger command's boolean outcome and the trigger it fired. */
  datatype Triggered = Triggered(ok: bool, effect: Effect)

  /** A report command's lines (joined by newlines on return) and the trigger it fired. */
  datatype Reported = Reported(lines: seq<string>, effect: Effect)

  /** hasValidProject: a startup project with an active target. */
  predicate HasValidProject(h: Snapshot)
  {
    h.startup.Some? && h.startup.value.activeTarget.Some?
  }

  predicate HasActiveBuildConfig(h: Snapshot)
  {
    HasValidProject(h) && ActiveTarget(h).value.activeBuildConfig.Some?
  }

  predicate HasActiveRunConfig(h: Snapshot)
  {
    HasValidProject(h) && ActiveTarget(h).value.activeRunConfig.Some?
  }

  /**
   * build. The source checks hasValidProject and then the project and the
   * target once more; those two checks cannot fail after the first and are
   * not repeated here.
   */
  function Build(h: Snapshot): (r: Triggered)
    ensures r.ok <==> HasActiveBuildConfig(h)
    ensures r.effect == if r.ok then BuildTriggered(h.startup.value.name) else NoEffect
  {
    if !HasValidProject(h) then Triggered(false, NoEffect)
    else if ActiveTarget(h).value.activeBuildConfig.None? then Triggered(false, NoEffect)
    else Triggered(true, BuildTriggered(h.startup.value.name))
  }

  /** cleanProject: the same preconditions as build, a clean trigger instead. */
  function CleanProject(h: Snapshot): (r: Triggered)
    ensures r.ok <==> HasActiveBuildConfig(h)
    ensures r.effect == if r.ok then CleanTriggered(h.startup.value.name) else NoEffect
  {
    if !HasValidProject(h) then Triggered(false, NoEffect)
    else
      var target := h.startup.value.activeTarget.value;
      if target.activeBuildConfig.Some? then Triggered(true, CleanTriggered(h.startup.value.name))
      else Triggered(false, NoEffect)
  }

  /** Whether an action ID is registered with an action behind it. */
  function Resolves(resolvable: set<string>): string -> bool
  {
    id => id in resolvable
  }

  /** The trigger of the first resolvable action ID in list order, if any. */
  function FirstAction(ids: seq<string>, resolvable: set<string>): (e: Effect)
    ensures e == NoEffect <==> forall j :: 0 <= j < |ids| ==> ids[j] !in resolvable
    ensures e != NoEffect ==>
      exists k :: 0 <= k < |ids| && e == ActionTriggered(ids[k]) && ids[k] in resolvable
                  && forall j :: 0 <= j < k ==> ids[j] !in resolvable
  {
    match FirstWhere(ids, Resolves(resolvable))
    case Some(k) => ActionTriggered(ids[k])
    case None => NoEffect
  }

  const RunActionIds: seq<string> := ["ProjectExplorer.Run", "ProjectExplorer.RunProject", "ProjectExplorer.RunStartupProject"]

  const DebugActionIds: seq<string> := [
    "Debugger.StartDebugging",
    "ProjectExplorer.StartDebugging",
    "Debugger.Debug",
    "ProjectExplorer.Debug",
    "Debugger.StartDebuggingOfStartupProject",
    "ProjectExplorer.StartDebuggingOfStartupProject"]

  const StopActionIds: seq<string> := [
    "Debugger.StopDebugger",
    "Debugger.Stop",
    "ProjectExplorer.StopDebugging",
    "ProjectExplorer.Stop",
    "Debugger.StopDebugging"]

  /** runProject: with no run action registered it starts a RunControl and still succeeds. */
  function RunOutcome(h: Snapshot): (r: Triggered)
    ensures r.ok <==> HasActiveRunConfig(h) && h.actionManager
    ensures !r.ok ==> r.effect == NoEffect
    ensures r.ok && FirstAction(RunActionIds, h.resolvable) != NoEffect ==>
      r.effect == FirstAction(RunActionIds, h.resolvable)
    ensures r.ok && FirstAction(RunActionIds, h.resolvable) == NoEffect ==>
      r.effect == RunControlStarted(ActiveTarget(h).value.activeRunConfig.value)
  {
    if !HasActiveRunConfig(h) || !h.actionManager then Triggered(false, NoEffect)
    else
      var fired := FirstAction(RunActionIds, h.resolvable);
      if fired != NoEffect then Triggered(true, fired)
      else Triggered(true, RunControlStarted(ActiveTarget(h).value.activeRunConfig.value))
  }

  method RunProject(h: Snapshot) returns (ok: bool, eff: Effect)
    ensures Triggered(ok, eff) == RunOutcome(h)
  {
    if !HasValidProject(h) {
      return false, NoEffect;
    }
    var target := h.startup.value.activeTarget.value;
    if target.activeRunConfig.None? {
      return false, NoEffect;
    }
    if !h.actionManager {
      return false, NoEffect;
    }
    var triggered := false;
    eff := NoEffect;
    var i := 0;
    while i < |RunActionIds|
      invariant 0 <= i <= |RunActionIds|
      invariant !triggered
      invariant forall j :: 0 <= j < i ==> RunActionIds[j] !in h.resolvable
      invariant eff == NoEffect
    {
      if RunActionIds[i] in h.resolvable {
        FirstWhereIs(RunActionIds, Resolves(h.resolvable), i);
        eff := ActionTriggered(RunActionIds[i]);
        triggered := true;
        break;
      }
      i := i + 1;
    }
    if !triggered {
      eff := RunControlStarted(target.activeRunConfig.value);
    }
    return true, eff;
  }

  /** The progress lines one command adds while it tries action IDs. */
  datatype Labels = Labels(trying: string, found: string, triggered: string, notFound: string)

  const DebugLabels: Labels := Labels(
    "Trying debug action: ", "Found debug action, triggering...",
    "Debug action triggered successfully", "Debug action not found: ")

  const StopLabels: Labels := Labels(
    "Trying stop debug action: ", "Found stop debug action, triggering...",
    "Stop debug action triggered successfully", "Stop debug action not found: ")

  /** The lines logged while trying the IDs in order up to the first that resolves. */
  function AttemptTrace(ids: seq<string>, resolvable: set<string>, l: Labels): seq<string>
  {
    if ids == [] then []
    else if ids[0] in resolvable then [l.trying + ids[0], l.found, l.triggered]
    else [l.trying + ids[0], l.notFound + ids[0]] + AttemptTrace(ids[1..], resolvable, l)
  }

  /** Labels that read as progress, never as an error or a warning. */
  predicate PlainLabels(l: Labels)
  {
    && l.trying != "" && l.trying[0] != 'E' && l.trying[0] != 'W'
    && l.found != "" && l.found[0] != 'E' && l.found[0] != 'W'
    && l.triggered != "" && l.triggered[0] != 'E' && l.triggered[0] != 'W'
    && l.notFound != "" && l.notFound[0] != 'E' && l.notFound[0] != 'W'
  }

  /** Trying action IDs logs progress lines only: none of them is an error or a warning. */
  lemma {:induction false} AttemptTracePlain(ids: seq<string>, resolvable: set<string>, l: Labels)
    requires PlainLabels(l)
    ensures forall line :: line in AttemptTrace(ids, resolvable, l) ==> line != "" && line[0] != 'E' && line[0] != 'W'
  {
    if ids != [] && ids[0] !in resolvable {
      AttemptTracePlain(ids[1..], resolvable, l);
      assert (l.trying + ids[0])[0] == l.trying[0];
      assert (l.notFound + ids[0])[0] == l.notFound[0];
    } else if ids != [] {
      assert (l.trying + ids[0])[0] == l.trying[0];
    }
  }

  /** The lines logged for IDs that all fail to resolve. */
  function Misses(ids: seq<string>, l: Labels): seq<string>
  {
    if ids == [] then []
    else Misses(ids[..|ids| - 1], l) + [l.trying + ids[|ids| - 1], l.notFound + ids[|ids| - 1]]
  }

  /** Failed attempts at the front of the list contribute their two lines each. */
  lemma {:induction false} AttemptTraceAfterMisses(ids: seq<string>, resolvable: set<string>, l: Labels, i: nat)
    requires i <= |ids|
    requires forall j :: 0 <= j < i ==> ids[j] !in resolvable
    ensures AttemptTrace(ids, resolvable, l) == Misses(ids[..i], l) + AttemptTrace(ids[i..], resolvable, l)
  {
    if i > 0 {
      AttemptTraceAfterMisses(ids, resolvable, l, i - 1);
      var x := ids[i - 1];
      assert ids[i - 1..] == [x] + ids[i..];
      assert AttemptTrace(ids[i - 1..], resolvable, l)
          == [l.trying + x, l.notFound + x] + AttemptTrace(ids[i..], resolvable, l);
      assert ids[..i][..i - 1] == ids[..i - 1];
      assert Misses(ids[..i], l) == Misses(ids[..i - 1], l) + [l.trying + x, l.notFound + x];
    }
  }

  /** The loop shared by debug and stopDebug: try each ID, trigger the first that resolves. */
  method TryActions(ids: seq<string>, resolvable: set<string>, l: Labels) returns (fired: Option<nat>, trace: seq<string>)
    ensures fired == FirstWhere(ids, Resolves(resolvable))
    ensures trace == AttemptTrace(ids, resolvable, l)
  {
    trace := [];
    var i := 0;
    while i < |ids|
      invariant 0 <= i <= |ids|
      invariant forall j :: 0 <= j < i ==> ids[j] !in resolvable
      invariant trace == Misses(ids[..i], l)
    {
      trace := trace + [l.trying + ids[i]];
      if ids[i] in resolvable {
        trace := trace + [l.found, l.triggered];
        FirstWhereIs(ids, Resolves(resolvable), i);
        AttemptTraceAfterMisses(ids, resolvable, l, i);
        assert ids[i..] == [ids[i]] + ids[i + 1..];
        return Some(i), trace;
      }
      trace := trace + [l.notFound + ids[i]];
      assert ids[..i + 1][..i] == ids[..i];
      i := i + 1;
    }
    AttemptTraceAfterMisses(ids, resolvable, l, i);
    assert ids[..i] == ids;
    return None, trace;
  }

  const DebugHeader: string := "=== DEBUG ATTEMPT ==="

  const DebugSuccessLines: seq<string> := [
    "Debug session initiated successfully!",
    "The debugger is now starting in the background.",
    "Check Qt Creator's debugger output for progress updates.",
    "NOTE: The debug session will continue running asynchronously.",
    "",
    "=== DEBUG RESULT ===",
    "Debug command completed."]

  /** debug: its report lines and the debug action it triggered. */
  function DebugOutcome(h: Snapshot): (r: Reported)
    ensures |r.lines| >= 2 && r.lines[0] == DebugHeader
    ensures r.effect == if HasActiveRunConfig(h) && h.actionManager then FirstAction(DebugActionIds, h.resolvable) else NoEffect
    ensures r.effect == NoEffect <==> StartsWith(r.lines[|r.lines| - 1], "ERROR: ")
  {
    var head := [DebugHeader];
    if !HasValidProject(h) then
      Reported(head + [Error("No valid project available for debugging")], NoEffect)
    else if ActiveTarget(h).value.activeRunConfig.None? then
      Reported(head + [Error("No active run configuration available for debugging")], NoEffect)
    else
      var intro := head + ["Project: " + h.startup.value.name,
                           "Run configuration: " + ActiveTarget(h).value.activeRunConfig.value,
                           "", "=== STARTING DEBUG SESSION ==="];
      if !h.actionManager then
        Reported(intro + [Error("ActionManager not available")], NoEffect)
      else
        var trace := AttemptTrace(DebugActionIds, h.resolvable, DebugLabels);
        match FirstWhere(DebugActionIds, Resolves(h.resolvable))
        case None => Reported(intro + trace + [Error("No debug action found among tried IDs")], NoEffect)
        case Some(k) =>
          NotStartsWith(DebugSuccessLines[6], "ERROR: ");
          Reported(intro + trace + DebugSuccessLines, ActionTriggered(DebugActionIds[k]))
  }

  /** hasValidProject guards every command that acts on the project: without it none of them acts. */
  lemma InvalidProjectTriggersNothing(h: Snapshot)
    requires !HasValidProject(h)
    ensures !Build(h).ok && Build(h).effect == NoEffect
    ensures !CleanProject(h).ok && CleanProject(h).effect == NoEffect
    ensures !RunOutcome(h).ok && RunOutcome(h).effect == NoEffect
    ensures DebugOutcome(h).effect == NoEffect
  {
  }

  /** The line debug ends its report with names why nothing was triggered, or that the command completed. */
  lemma DebugReportsCause(h: Snapshot)
    ensures var r := DebugOutcome(h);
            var last := r.lines[|r.lines| - 1];
            && (!HasValidProject(h) ==> r.lines == [DebugHeader, Error("No valid project available for debugging")])
            && (HasValidProject(h) && !HasActiveRunConfig(h) ==>
                  r.lines == [DebugHeader, Error("No active run configuration available for debugging")])
            && (HasActiveRunConfig(h) && !h.actionManager ==> last == Error("ActionManager not available"))
            && (HasActiveRunConfig(h) && h.actionManager && r.effect == NoEffect ==>
                  last == Error("No debug action found among tried IDs"))
            && (r.effect != NoEffect ==> last == "Debug command completed.")
  {
  }

  method Debug(h: Snapshot) returns (report: string, eff: Effect)
    ensures report == JoinLines(DebugOutcome(h).lines) && eff == DebugOutcome(h).effect
  {
    var results := [DebugHeader];
    if !HasValidProject(h) {
      results := results + [Error("No valid project available for debugging")];
      return JoinLines(results), NoEffect;
    }
    var project := h.startup.value;
    var target := project.activeTarget.value;
    if target.activeRunConfig.None? {
      results := results + [Error("No active run configuration available for debugging")];
      return JoinLines(results), NoEffect;
    }
    results := results + ["Project: " + project.name,
                          "Run configuration: " + target.activeRunConfig.value,
                          "", "=== STARTING DEBUG SESSION ==="];
    if !h.actionManager {
      results := results + [Error("ActionManager not available")];
      return JoinLines(results), NoEffect;
    }
    var fired, trace := TryActions(DebugActionIds, h.resolvable, DebugLabels);
    results := results + trace;
    if fired.None? {
      results := results + [Error("No debug action found among tried IDs")];
      return JoinLines(results), NoEffect;
    }
    eff := ActionTriggered(DebugActionIds[fired.value]);
    results := results + DebugSuccessLines;
    report := JoinLines(results);
  }

  const StopHeader: string := "=== STOP DEBUGGING ==="
  const StopWarning: string := Warning(" No stop debug action found among tried IDs")
  const StopAdvice: seq<string> :=
    [StopWarning, "You may need to stop" + " debugging manually from Qt Creator's debugger interface"]
  const StopTrailer: seq<string> := ["", "=== STOP DEBUG RESULT ===", "Stop debug command completed."]

  /** stopDebug: its report lines and the stop action it triggered. */
  function StopDebugOutcome(h: Snapshot): (r: Reported)
    ensures |r.lines| >= 2 && r.lines[0] == StopHeader
    ensures !h.actionManager ==> r.lines == [StopHeader, Error("ActionManager not available")] && r.effect == NoEffect
    ensures h.actionManager ==> r.effect == FirstAction(StopActionIds, h.resolvable)
    ensures h.actionManager ==> r.lines[|r.lines| - 1] == "Stop debug command completed."
    ensures h.actionManager && r.effect == NoEffect ==> StopWarning in r.lines
  {
    if !h.actionManager then Reported([StopHeader, Error("ActionManager not available")], NoEffect)
    else
      var trace := AttemptTrace(StopActionIds, h.resolvable, StopLabels);
      var fired := FirstAction(StopActionIds, h.resolvable);
      var warning := if fired == NoEffect then StopAdvice else [];
      Reported([StopHeader] + trace + warning + StopTrailer, fired)
  }

  /** No line of the report reads as an error. */
  predicate NoErrorLine(lines: seq<string>)
  {
    forall line :: line in lines ==> line == "" || line[0] != 'E'
  }

  lemma NoErrorLineConcat(a: seq<string>, b: seq<string>)
    requires NoErrorLine(a) && NoErrorLine(b)
    ensures NoErrorLine(a + b)
  {
  }

  /** The fixed lines of stopDebug: none is an error, and only the advice carries the warning. */
  lemma StopTextsPlain()
    ensures NoErrorLine([StopHeader]) && NoErrorLine(StopAdvice) && NoErrorLine(StopTrailer)
    ensures StopWarning != "" && StopWarning[0] == 'W' && StopWarning in StopAdvice
    ensures StopWarning !in [StopHeader] + StopTrailer
  {
    StopWarningIsWarning();
    StopAdviceSecond();
    StopTrailerPlain();
    assert StopHeader[0] == '=';
  }

  lemma StopWarningIsWarning()
    ensures StopWarning != "" && StopWarning[0] == 'W'
  {
  }

  lemma StopAdviceSecond()
    ensures StopAdvice[1] != "" && StopAdvice[1][0] == 'Y'
  {
    assert StopAdvice[1] == "You may need to stop" + " debugging manually from Qt Creator's debugger interface";
  }

  lemma StopTrailerPlain()
    ensures StopTrailer[0] == "" && StopTrailer[1][0] == '=' && StopTrailer[2][0] == 'S'
  {
  }

  /**
   * With an action manager, stopDebug warns exactly when no stop action
   * fired, and it reports no error line.
   */
  lemma StopDebugWarnsIffNothingFired(h: Snapshot)
    requires h.actionManager
    ensures StopDebugOutcome(h).effect == NoEffect <==> StopWarning in StopDebugOutcome(h).lines
    ensures NoErrorLine(StopDebugOutcome(h).lines)
  {
    var trace := AttemptTrace(StopActionIds, h.resolvable, StopLabels);
    AttemptTracePlain(StopActionIds, h.resolvable, StopLabels);
    StopTextsPlain();
    var fired := FirstAction(StopActionIds, h.resolvable);
    var warning := if fired == NoEffect then StopAdvice else [];
    assert StopDebugOutcome(h).lines == [StopHeader] + trace + warning + StopTrailer;
    assert StopWarning !in trace;
    NoErrorLineConcat([StopHeader], trace);
    NoErrorLineConcat([StopHeader] + trace, warning);
    NoErrorLineConcat([StopHeader] + trace + warning, StopTrailer);
  }

  method StopDebug(h: Snapshot) returns (report: string, eff: Effect)
    ensures report == JoinLines(StopDebugOutcome(h).lines) && eff == StopDebugOutcome(h).effect
  {
    var results := [StopHeader];
    if !h.actionManager {
      results := results + [Error("ActionManager not available")];
      assert results == [StopHeader, Error("ActionManager not available")];
      return JoinLines(results), NoEffect;
    }
    var fired, trace := TryActions(StopActionIds, h.resolvable, StopLabels);
    results := results + trace;
    eff := NoEffect;
    if fired.None? {
      results := results + StopAdvice;
    } else {
      eff := ActionTriggered(StopActionIds[fired.value]);
      assert results == results + [];
    }
    results := results + StopTrailer;
    report := JoinLines(results);
  }

  /** openFile: an empty or missing path fails, otherwise an editor is opened. */
  function OpenFile(h: Snapshot, path: string): (r: Triggered)
    ensures r.ok <==> path != "" && path in h.existingFiles
    ensures r.effect == if r.ok then EditorOpened(path) else NoEffect
  {
    if path == "" then Triggered(false, NoEffect)
    else if path !in h.existingFiles then Triggered(false, NoEffect)
    else Triggered(true, EditorOpened(path))
  }

  function ListProjects(h: Snapshot): seq<string>
  {
    h.projects
  }

  /** listBuildConfigs: the display names of the active target's configurations, in order. */
  function ListBuildConfigs(h: Snapshot): (r: seq<string>)
    ensures ActiveTarget(h).None? ==> r == []
    ensures ActiveTarget(h).Some? ==>
      |r| == |ActiveTarget(h).value.buildConfigs|
      && forall i :: 0 <= i < |r| ==> r[i] == ActiveTarget(h).value.buildConfigs[i].name
  {
    if ActiveTarget(h).None? then []
    else
      var configs := ActiveTarget(h).value.buildConfigs;
      seq(|configs|, i requires 0 <= i < |configs| => configs[i].name)
  }

  function Named(name: string): BuildConfig -> bool
  {
    (c: BuildConfig) => c.name == name
  }

  /** switchToBuildConfig: activates the first configuration with the given display name. */
  function SwitchOutcome(h: Snapshot, name: string): (r: Triggered)
    ensures r.ok <==>
      name != "" && ActiveTarget(h).Some?
      && exists k :: 0 <= k < |ActiveTarget(h).value.buildConfigs| && ActiveTarget(h).value.buildConfigs[k].name == name
    ensures !r.ok ==> r.effect == NoEffect
    ensures r.ok ==>
      r.effect.BuildConfigActivated? && r.effect.index < |ActiveTarget(h).value.buildConfigs|
      && ActiveTarget(h).value.buildConfigs[r.effect.index].name == name
      && forall j :: 0 <= j < r.effect.index ==> ActiveTarget(h).value.buildConfigs[j].name != name
  {
    if name == "" || ActiveTarget(h).None? then Triggered(false, NoEffect)
    else
      var configs := ActiveTarget(h).value.buildConfigs;
      match FirstWhere(configs, Named(name))
      case None =>
        assert forall k :: 0 <= k < |configs| ==> !Named(name)(configs[k]);
        Triggered(false, NoEffect)
      case Some(k) => Triggered(true, BuildConfigActivated(k))
  }

  method SwitchToBuildConfig(h: Snapshot, name: string) returns (ok: bool, eff: Effect)
    ensures Triggered(ok, eff) == SwitchOutcome(h, name)
  {
    if name == "" {
      return false, NoEffect;
    }
    if h.startup.None? {
      return false, NoEffect;
    }
    if h.startup.value.activeTarget.None? {
      return false, NoEffect;
    }
    var configs := h.startup.value.activeTarget.value.buildConfigs;
    for i := 0 to |configs|
      invariant forall j :: 0 <= j < i ==> configs[j].name != name
    {
      if configs[i].name == name {
        FirstWhereIs(configs, Named(name), i);
        return true, BuildConfigActivated(i);
      }
    }
    assert FirstWhere(configs, Named(name)) == None;
    return false, NoEffect;
  }

  /** After a successful switch the current build configuration is the one asked for. */
  lemma SwitchThenCurrentConfig(h: Snapshot, name: string)
    requires SwitchOutcome(h, name).ok
    ensures GetCurrentBuildConfig(ApplyEffect(h, SwitchOutcome(h, name).effect)) == name
  {
  }

  function Quit(): (r: Triggered)
    ensures r.ok && r.effect == QuitRequested
  {
    Triggered(true, QuitRequested)
  }

  function GetCurrentProject(h: Snapshot): string
  {
    if h.startup.Some? then h.startup.value.name else ""
  }

  /** getCurrentBuildConfig: the active configuration's name, or empty when there is none. */
  function GetCurrentBuildConfig(h: Snapshot): (r: string)
    ensures HasActiveBuildConfig(h) ==> r == ActiveTarget(h).value.activeBuildConfig.value.name
    ensures !HasActiveBuildConfig(h) ==> r == ""
  {
    if h.startup.None? then ""
    else if h.startup.value.activeTarget.None? then ""
    else
      var target := h.startup.value.activeTarget.value;
      if target.activeBuildConfig.Some? then target.activeBuildConfig.value.name else ""
  }

  function ListOpenFiles(h: Snapshot): seq<string>
  {
    h.openFiles
  }

  function ListSessions(h: Snapshot): seq<string>
  {
    h.sessions
  }

  function GetCurrentSession(h: Snapshot): string
  {
    h.activeSession
  }

  function GetVersion(h: Snapshot): string
  {
    h.version
  }

  /** saveSession: the session manager's answer. */
  function SaveSession(h: Snapshot): (r: Triggered)
    ensures r.ok == h.saveSucceeds && r.effect == SessionSaveRequested
  {
    Triggered(h.saveSucceeds, SessionSaveRequested)
  }

  /** testTaskAccess is defined nowhere in the sources; its report is a host input. */
  function TestTaskAccess(h: Snapshot): seq<string>
  {
    h.taskAccessReport
  }

  /** The readiness a poll observes: a startup project with a non-empty display name. */
  predicate Ready(o: Option<string>)
  {
    o.Some? && o.value != ""
  }

  function ReadyAt(): Option<string> -> bool
  {
    o => Ready(o)
  }

  datatype LoadResult = LoadResult(ok: bool, effect: Effect, polls: nat)

  /** loadSession: the result, the load request emitted, and how many one-second polls were made. */
  function LoadOutcome(h: Snapshot, name: string): (r: LoadResult)
    ensures name == "" || name !in h.sessions ==> r == LoadResult(false, NoEffect, 0)
    ensures name != "" && name in h.sessions ==>
      && r.effect == SessionLoadRequested(name)
      && 1 <= r.polls <= PollLimit
      && (r.ok <==> exists i :: 0 <= i < PollLimit && Ready(h.loadPolls[i]))
      && (r.ok ==> Ready(h.loadPolls[r.polls - 1]))
      && (forall j :: 0 <= j < r.polls - 1 ==> !Ready(h.loadPolls[j]))
      && (!r.ok ==> r.polls == PollLimit)
  {
    if name == "" || name !in h.sessions then LoadResult(false, NoEffect, 0)
    else match FirstWhere(h.loadPolls, ReadyAt())
      case Some(i) => LoadResult(true, SessionLoadRequested(name), i + 1)
      case None =>
        assert forall j :: 0 <= j < PollLimit ==> !ReadyAt()(h.loadPolls[j]);
        LoadResult(false, SessionLoadRequested(name), PollLimit)
  }

  method LoadSession(h: Snapshot, name: string) returns (ok: bool, eff: Effect, polls: nat)
    ensures LoadResult(ok, eff, polls) == LoadOutcome(h, name)
  {
    if name == "" {
      return false, NoEffect, 0;
    }
    if name !in h.sessions {
      return false, NoEffect, 0;
    }
    eff := SessionLoadRequested(name);
    var i := 0;
    while i < PollLimit
      invariant 0 <= i <= PollLimit
      invariant forall j :: 0 <= j < i ==> !Ready(h.loadPolls[j])
    {
      // one poll interval elapses here (QThread::msleep(1000))
      var project := h.loadPolls[i];
      if project.Some? && project.value != "" {
        FirstWhereIs(h.loadPolls, ReadyAt(), i);
        return true, eff, i + 1;
      }
      i := i + 1;
    }
    assert FirstWhere(h.loadPolls, ReadyAt()) == None;
    return false, eff, PollLimit;
  }

  const BuildInProgress: string := Info("Build in progress - issues may not be current")

  const IssuesPlaceholder: seq<string> := [
    Info("Issues panel integration not yet fully implemented"),
    Info("This command currently shows project status information"),
    Info("To see actual build issues, check the Issues panel in Qt Creator")]

  /** The first configuration check listIssues fails, in the order it checks them. */
  function ProjectWarning(h: Snapshot): (w: Option<string>)
    ensures w.Some? ==> StartsWith(w.value, "WARNING:")
    ensures h.startup.None? ==> w == Some(Warning("No active project found"))
    ensures h.startup.Some? && h.startup.value.targetCount == 0 ==>
      w == Some(Warning("Project has no build targets configured"))
    ensures h.startup.Some? && h.startup.value.targetCount != 0 && ActiveTarget(h).None? ==>
      w == Some(Warning("No active build target"))
    ensures h.startup.Some? && h.startup.value.targetCount != 0 && ActiveTarget(h).Some?
            && |ActiveTarget(h).value.buildConfigs| == 0 ==>
      w == Some(Warning("No build configurations found"))
    ensures h.startup.Some? && h.startup.value.targetCount != 0 && ActiveTarget(h).Some?
            && |ActiveTarget(h).value.buildConfigs| != 0 && ActiveTarget(h).value.activeBuildConfig.None? ==>
      w == Some(Warning("No active build configuration"))
    ensures w.None? <==>
      && h.startup.Some? && h.startup.value.targetCount != 0 && ActiveTarget(h).Some?
      && |ActiveTarget(h).value.buildConfigs| != 0 && ActiveTarget(h).value.activeBuildConfig.Some?
  {
    if h.startup.None? then Some(Warning("No active project found"))
    else if h.startup.value.targetCount == 0 then Some(Warning("Project has no build targets configured"))
    else if h.startup.value.activeTarget.None? then Some(Warning("No active build target"))
    else if |h.startup.value.activeTarget.value.buildConfigs| == 0 then Some(Warning("No build configurations found"))
    else if h.startup.value.activeTarget.value.activeBuildConfig.None? then Some(Warning("No active build configuration"))
    else None
  }

  /** Whether the active build configuration's build directory exists (false when there is none). */
  predicate BuildDirExists(h: Snapshot)
  {
    ActiveTarget(h).Some? && ActiveTarget(h).value.activeBuildConfig.Some?
    && ActiveTarget(h).value.activeBuildConfig.value.buildDirExists
  }

  /** listIssues: project status lines. */
  function IssueLines(h: Snapshot): (r: seq<string>)
    ensures 1 <= |r| <= 3
    ensures h.building <==> r[0] == BuildInProgress
    ensures r == IssuesPlaceholder <==> !h.building && ProjectWarning(h).None? && BuildDirExists(h)
    ensures ProjectWarning(h).Some? ==> r == (if h.building then [BuildInProgress] else []) + [ProjectWarning(h).value]
    ensures ProjectWarning(h).None? ==>
      var config := ActiveTarget(h).value.activeBuildConfig.value;
      var found := (if h.building then [BuildInProgress] else [])
                   + (if config.buildDirExists then [] else [Warning("Build directory does not exist:" + config.buildDir)]);
      r == if found == [] then IssuesPlaceholder else found
  {
    var progress := if h.building then [BuildInProgress] else [];
    match ProjectWarning(h)
    case Some(w) => progress + [w]
    case None =>
      var config := ActiveTarget(h).value.activeBuildConfig.value;
      var dir := if config.buildDirExists then [] else [Warning("Build directory does not exist:" + config.buildDir)];
      if progress + dir == [] then IssuesPlaceholder else progress + dir
  }

  /** A check of listIssues: whether it passes, and the warning it gives when it is the first to fail. */
  datatype Check = Check(passes: bool, warning: string)

  /**
   * The checks of listIssues in the order it makes them. Each is stated on
   * its own; a check that depends on an earlier one passes whenever that
   * earlier one fails, since only the first failure is reported.
   */
  function IssueChecks(h: Snapshot): seq<Check>
  {
    var p := h.startup;
    var t := ActiveTarget(h);
    [Check(p.Some?, Warning("No active project found")),
     Check(p.None? || p.value.targetCount != 0, Warning("Project has no build targets configured")),
     Check(p.None? || t.Some?, Warning("No active build target")),
     Check(t.None? || |t.value.buildConfigs| != 0, Warning("No build configurations found")),
     Check(t.None? || t.value.activeBuildConfig.Some?, Warning("No active build configuration"))]
  }

  function Fails(): Check -> bool
  {
    (c: Check) => !c.passes
  }

  /** listIssues reports the warning of the first failing check, and none when every check passes. */
  lemma ProjectWarningIsFirstFailure(h: Snapshot)
    ensures ProjectWarning(h) == match FirstWhere(IssueChecks(h), Fails())
                                 case None => None
                                 case Some(k) => Some(IssueChecks(h)[k].warning)
  {
    var checks := IssueChecks(h);
    var p := h.startup;
    var t := ActiveTarget(h);
    if p.None? {
      FirstWhereIs(checks, Fails(), 0);
    } else if p.value.targetCount == 0 {
      FirstWhereIs(checks, Fails(), 1);
    } else if t.None? {
      FirstWhereIs(checks, Fails(), 2);
    } else if |t.value.buildConfigs| == 0 {
      FirstWhereIs(checks, Fails(), 3);
    } else if t.value.activeBuildConfig.None? {
      FirstWhereIs(checks, Fails(), 4);
    } else {
      assert checks[0].passes && checks[1].passes && checks[2].passes && checks[3].passes && checks[4].passes;
    }
  }

  /** When listIssues reports no project problem, build and clean find what they need. */
  lemma NoWarningThenBuildable(h: Snapshot)
    requires ProjectWarning(h).None?
    ensures Build(h).ok && CleanProject(h).ok
  {
  }

  /** Apart from the placeholder text, listIssues gives at most the progress note followed by one warning. */
  lemma WarningIsLast(h: Snapshot)
    ensures IssueLines(h) != IssuesPlaceholder ==>
      forall i :: 0 <= i < |IssueLines(h)| - 1 ==> IssueLines(h)[i] == BuildInProgress
    ensures ProjectWarning(h).Some? || !BuildDirExists(h) ==> StartsWith(IssueLines(h)[|IssueLines(h)| - 1], "WARNING:")
  {
    var progress := if h.building then [BuildInProgress] else [];
    if ProjectWarning(h).Some? {
      assert IssueLines(h) == progress + [ProjectWarning(h).value];
    } else {
      var config := ActiveTarget(h).value.activeBuildConfig.value;
      var dir := if config.buildDirExists then [] else [Warning("Build directory does not exist:" + config.buildDir)];
      if progress + dir != [] {
        assert IssueLines(h) == progress + dir;
      }
    }
  }

  method ListIssues(h: Snapshot) returns (issues: seq<string>)
    ensures issues == IssueLines(h)
  {
    issues := [];
    if h.building {
      issues := issues + [BuildInProgress];
    }
    if h.startup.None? {
      issues := issues + [Warning("No active project found")];
      return;
    }
    var project := h.startup.value;
    if project.targetCount == 0 {
      issues := issues + [Warning("Project has no build targets configured")];
      return;
    }
    if project.activeTarget.None? {
      issues := issues + [Warning("No active build target")];
      return;
    }
    var target := project.activeTarget.value;
    if |target.buildConfigs| == 0 {
      issues := issues + [Warning("No build configurations found")];
      return;
    }
    if target.activeBuildConfig.None? {
      issues := issues + [Warning("No active build configuration")];
      return;
    }
    var config := target.activeBuildConfig.value;
    if !config.buildDirExists {
      issues := issues + [Warning("Build directory does not exist:" + config.buildDir)];
    }
    if issues == [] {
      issues := issues + IssuesPlaceholder;
    }
  }
}

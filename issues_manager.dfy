/**
 * IssuesManager: a flag recording whether the build manager could be
 * reached, queries over what the build manager reports, and the task
 * formatter.
 */
module IssuesManager {
  import opened Strings

  /** What the build manager reports: whether it has tasks, and how many are errors. */
  datatype BuildTasks = BuildTasks(available: bool, errorCount: nat)

  const NotAccessible: string := "ERROR:Issues panel not accessible - cannot retrieve current issues"
  const NoBuildErrors: string := "INFO:No build errors found"
  const NoBuildTasks: string := "INFO:No build tasks available"

  const IssuesFooter: seq<string> := [
    "INFO:Full Issues panel integration requires access to internal Qt Creator APIs",
    "INFO:To see actual build issues, check the Issues panel in Qt Creator"]

  function FoundErrors(count: nat): string
  {
    "INFO:Found " + NatToString(count) + " error(s) in build system"
  }

  /** getIssueCount: -1 when not accessible, otherwise the error count, 0 without tasks. */
  function IssueCount(accessible: bool, tasks: BuildTasks): (r: int)
    ensures r >= -1
    ensures r == -1 <==> !accessible
    ensures accessible && tasks.available ==> r == tasks.errorCount
    ensures accessible && !tasks.available ==> r == 0
  {
    if !accessible then -1
    else if tasks.available then tasks.errorCount
    else 0
  }

  /** getCurrentIssues: one error line, or a status line followed by two fixed lines. */
  function CurrentIssues(accessible: bool, tasks: BuildTasks): (r: seq<string>)
    ensures !accessible ==> r == [NotAccessible]
    ensures accessible ==> |r| == 3 && r[1..] == IssuesFooter
    ensures accessible && tasks.available && tasks.errorCount > 0 ==> r[0] == FoundErrors(tasks.errorCount)
    ensures accessible && tasks.available && tasks.errorCount == 0 ==> r[0] == NoBuildErrors
    ensures accessible && !tasks.available ==> r[0] == NoBuildTasks
  {
    if !accessible then [NotAccessible]
    else
      var status := if !tasks.available then NoBuildTasks
                    else if tasks.errorCount > 0 then FoundErrors(tasks.errorCount)
                    else NoBuildErrors;
      [status] + IssuesFooter
  }

  /**
   * The report and the count agree: the report is the single error line
   * exactly when the count is -1, and a positive count is written into the
   * report's first line in decimal, from which it can be read back.
   */
  lemma ReportCarriesCount(accessible: bool, tasks: BuildTasks)
    ensures IssueCount(accessible, tasks) == -1 <==> |CurrentIssues(accessible, tasks)| == 1
    ensures IssueCount(accessible, tasks) > 0 ==>
      var digits := NatToString(IssueCount(accessible, tasks));
      && CurrentIssues(accessible, tasks)[0][11..11 + |digits|] == digits
      && DecimalValue(CurrentIssues(accessible, tasks)[0][11..11 + |digits|]) == IssueCount(accessible, tasks)
  {
    var c := IssueCount(accessible, tasks);
    if c > 0 {
      var digits := NatToString(c);
      var line := CurrentIssues(accessible, tasks)[0];
      assert line == "INFO:Found " + digits + " error(s) in build system";
      assert line[11..11 + |digits|] == digits;
      DecimalOfNatToString(c);
    }
  }

  /**
   * formatTask: "type:description", followed, when a file path is given,
   * by " [path", ":line" when the line number is positive, and "]".
   */
  function FormatTask(taskType: string, description: string, filePath: string := "", lineNumber: int := -1): (r: string)
    ensures StartsWith(r, taskType + ":" + description)
    ensures filePath == "" ==> r == taskType + ":" + description
    ensures filePath != "" ==> StartsWith(r, taskType + ":" + description + " [" + filePath) && EndsWith(r, "]")
    ensures filePath != "" ==>
      r == taskType + ":" + description + " [" + filePath
           + (if lineNumber > 0 then ":" + NatToString(lineNumber) else "") + "]"
  {
    var head := taskType + ":" + description;
    if filePath == "" then
      assert head[..|head|] == head;
      head
    else
      var location := " [" + filePath + (if lineNumber > 0 then ":" + NatToString(lineNumber) else "") + "]";
      assert (head + location)[..|head|] == head;
      assert (head + location)[..|head| + 2 + |filePath|] == head + " [" + filePath;
      assert (head + location)[|head + location| - 1..] == "]";
      head + location
  }

  /** With a file path, two positive line numbers give the same text only when they are equal. */
  lemma FormatTaskKeepsLine(taskType: string, description: string, filePath: string, m: nat, n: nat)
    requires filePath != "" && m > 0 && n > 0
    requires FormatTask(taskType, description, filePath, m) == FormatTask(taskType, description, filePath, n)
    ensures m == n
  {
    var prefix := taskType + ":" + description + " [" + filePath + ":";
    var head := taskType + ":" + description + " [" + filePath;
    var a := prefix + NatToString(m) + "]";
    var b := prefix + NatToString(n) + "]";
    assert head + (":" + NatToString(m)) + "]" == a;
    assert head + (":" + NatToString(n)) + "]" == b;
    assert a == b;
    assert NatToString(m) == a[|prefix|..|a| - 1];
    assert NatToString(n) == b[|prefix|..|b| - 1];
    NatToStringInjective(m, n);
  }

  /** Without a file path the line number is ignored: a two-argument call gives the same text. */
  lemma FormatTaskWithoutPath(taskType: string, description: string, lineNumber: int)
    ensures FormatTask(taskType, description, "", lineNumber) == FormatTask(taskType, description)
  {
  }

  /** A line number that is not positive is left out. */
  lemma FormatTaskNonPositiveLine(taskType: string, description: string, filePath: string, lineNumber: int)
    requires lineNumber <= 0
    ensures FormatTask(taskType, description, filePath, lineNumber) == FormatTask(taskType, description, filePath)
  {
  }

  /**
   * A positive line number is inserted as ":line" just before the closing
   * bracket, and it can be read back from there.
   */
  lemma FormatTaskLine(taskType: string, description: string, filePath: string, lineNumber: int)
    requires filePath != "" && lineNumber > 0
    ensures var plain := FormatTask(taskType, description, filePath);
            FormatTask(taskType, description, filePath, lineNumber)
              == plain[..|plain| - 1] + ":" + NatToString(lineNumber) + "]"
    ensures var r := FormatTask(taskType, description, filePath, lineNumber);
            var digits := NatToString(lineNumber);
            && r[|r| - 1 - |digits|..|r| - 1] == digits
            && DecimalValue(r[|r| - 1 - |digits|..|r| - 1]) == lineNumber
  {
    var head := taskType + ":" + description + " [" + filePath;
    var plain := FormatTask(taskType, description, filePath);
    assert plain == head + "]";
    assert plain[..|plain| - 1] == head;
    var digits := NatToString(lineNumber);
    var r := FormatTask(taskType, description, filePath, lineNumber);
    assert r == head + ":" + digits + "]";
    assert r[|r| - 1 - |digits|..|r| - 1] == digits;
    DecimalOfNatToString(lineNumber);
  }

  /** The issues manager's state: whether the build manager was reachable at start-up. */
  class Issues {
    var accessible: bool

    /** Starts inaccessible and then tries to reach the build manager. */
    constructor(buildManagerExists: bool)
      ensures accessible == buildManagerExists
    {
      accessible := false;
      new;
      var reached := InitializeAccess(buildManagerExists);
    }

    /** Sets the flag when the build manager exists; it never clears it. */
    method InitializeAccess(buildManagerExists: bool) returns (ok: bool)
      modifies this
      ensures ok == buildManagerExists
      ensures accessible == (old(accessible) || buildManagerExists)
    {
      if buildManagerExists {
        accessible := true;
        return true;
      }
      return false;
    }

    function IsAccessible(): bool
      reads this
    {
      accessible
    }

    function GetIssueCount(tasks: BuildTasks): (r: int)
      reads this
      ensures r == IssueCount(accessible, tasks)
      ensures r == -1 <==> !IsAccessible()
    {
      IssueCount(accessible, tasks)
    }

    method GetCurrentIssues(tasks: BuildTasks) returns (issues: seq<string>)
      ensures issues == CurrentIssues(accessible, tasks)
    {
      issues := [];
      if !accessible {
        issues := issues + [NotAccessible];
        return;
      }
      if tasks.available {
        var errorCount := tasks.errorCount;
        if errorCount > 0 {
          issues := issues + [FoundErrors(errorCount)];
        } else {
          issues := issues + [NoBuildErrors];
        }
      } else {
        issues := issues + [NoBuildTasks];
      }
      issues := issues + [IssuesFooter[0]];
      issues := issues + [IssuesFooter[1]];
    }
  }
}

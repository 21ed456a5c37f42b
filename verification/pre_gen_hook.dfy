/**
 The cookiecutter pre-generation hook: it checks the rendered `app_name`
 against MODULE_REGEX, collects a problem message when the check fails,
 and ends with exit status 1 when any problem was collected.

 The rendered template values are parameters, and what the hook writes to
 standard error is returned as a list of lines instead of being printed.
 */
module PreGenHook {
  import opened Patterns

  datatype Option<T> = None | Some(value: T)

  const MessagePrefix := "The app_name \""
  const MessageSuffix := "\" is not a valid Python module name"

  /** First line written to standard error when there are problems. */
  const ReportHeader := "Problems creating project:"

  /** `print(" -", problem)` separates its two arguments with one space. */
  const Bullet := " - "

  /** Status passed to `sys.exit` when problems were found. */
  const ExitFailure: nat := 1

  /** Status of a hook script that runs to its end. */
  const ExitSuccess: nat := 0

  /** The problem recorded for a rejected app_name, which it quotes verbatim. */
  function ProblemMessage(appName: string): (m: string)
    ensures |m| == |MessagePrefix| + |appName| + |MessageSuffix|
    ensures m[..|MessagePrefix|] == MessagePrefix
    ensures m[|MessagePrefix|..|MessagePrefix| + |appName|] == appName
    ensures m[|MessagePrefix| + |appName|..] == MessageSuffix
  {
    MessagePrefix + appName + MessageSuffix
  }

  /** Reads the quoted name back out of a problem message; None for any other text. */
  function ParseProblemMessage(m: string): (r: Option<string>)
    ensures r.Some? ==> ProblemMessage(r.value) == m
  {
    if |m| >= |MessagePrefix| + |MessageSuffix|
       && m[..|MessagePrefix|] == MessagePrefix
       && m[|m| - |MessageSuffix|..] == MessageSuffix
    then
      var n := m[|MessagePrefix|..|m| - |MessageSuffix|];
      assert m == MessagePrefix + n + MessageSuffix;
      Some(n)
    else
      None
  }

  /** The name can always be recovered from its problem message. */
  lemma ProblemMessageRoundTrip(appName: string)
    ensures ParseProblemMessage(ProblemMessage(appName)) == Some(appName)
  {
  }

  /** Appends a problem to `problems` when app_name does not match MODULE_REGEX. */
  function CheckAppName(problems: seq<string>, appName: string): (r: seq<string>)
    ensures |r| >= |problems| && r[..|problems|] == problems
    ensures Matches(ModulePattern, appName) ==> r == problems
    ensures !Matches(ModulePattern, appName) ==>
              |r| == |problems| + 1 && ParseProblemMessage(r[|problems|]) == Some(appName)
  {
    if !Matches(ModulePattern, appName) then
      ProblemMessageRoundTrip(appName);
      problems + [ProblemMessage(appName)]
    else
      problems
  }

  /** One bulleted line per problem, in order. */
  function BulletLines(problems: seq<string>): (lines: seq<string>)
    ensures |lines| == |problems|
    ensures forall i :: 0 <= i < |lines| ==>
              |lines[i]| == |Bullet| + |problems[i]|
              && lines[i][..|Bullet|] == Bullet && lines[i][|Bullet|..] == problems[i]
  {
    if problems == [] then []
    else
      var line := Bullet + problems[0];
      assert line[..|Bullet|] == Bullet && line[|Bullet|..] == problems[0];
      [line] + BulletLines(problems[1..])
  }

  /** The lines written to standard error: nothing, or a header followed by every problem. */
  function Report(problems: seq<string>): (lines: seq<string>)
    ensures lines == [] <==> problems == []
    ensures problems != [] ==>
              |lines| == |problems| + 1 && lines[0] == ReportHeader
              && forall i :: 0 <= i < |problems| ==>
                   |lines[i + 1]| >= |Bullet| && lines[i + 1][..|Bullet|] == Bullet
                   && lines[i + 1][|Bullet|..] == problems[i]
  {
    if problems == [] then [] else [ReportHeader] + BulletLines(problems)
  }

  /** What one run of the hook produces. */
  datatype HookOutcome = HookOutcome(problems: seq<string>, stderr: seq<string>, exitStatus: nat)

  /** The final step: report and exit with failure iff any problem was collected. */
  function Finish(problems: seq<string>): (o: HookOutcome)
    ensures o.problems == problems
    ensures o.exitStatus == ExitFailure <==> problems != []
    ensures o.exitStatus == ExitSuccess <==> problems == []
    ensures o.stderr == [] <==> o.exitStatus == ExitSuccess
    ensures problems != [] ==> o.stderr == Report(problems)
  {
    if problems != [] then HookOutcome(problems, Report(problems), ExitFailure)
    else HookOutcome(problems, [], ExitSuccess)
  }

  /** The whole hook: `container_name` is rendered but never checked. */
  function RunHook(appName: string, containerName: string): (o: HookOutcome)
    ensures |o.problems| <= 1
  {
    var problems := CheckAppName([], appName);
    Finish(problems)
  }

  /**
   End to end: the hook succeeds exactly for module names, optionally followed
   by one newline; otherwise it records one problem quoting the name and exits 1.
   */
  lemma RunHookDecision(appName: string, containerName: string)
    ensures var o := RunHook(appName, containerName);
            && (o.exitStatus == ExitSuccess <==> NameWithOptionalNewline(appName, IsModuleName))
            && (o.exitStatus == ExitFailure <==> !NameWithOptionalNewline(appName, IsModuleName))
            && (|o.problems| == 1 <==> !NameWithOptionalNewline(appName, IsModuleName))
            && (o.problems != [] ==> ParseProblemMessage(o.problems[0]) == Some(appName))
            && (o.problems != [] ==> o.stderr == [ReportHeader, Bullet + ProblemMessage(appName)])
  {
    ModuleMatchIff(appName);
  }

  /** The outcome does not depend on the rendered container name. */
  lemma ContainerNameIgnored(appName: string, c1: string, c2: string)
    ensures RunHook(appName, c1) == RunHook(appName, c2)
  {
  }

  /** Concrete names the hook accepts, a trailing newline included. */
  lemma AcceptedExamples()
    ensures RunHook("my_app", "db").exitStatus == ExitSuccess
    ensures RunHook("app\n", "db").exitStatus == ExitSuccess
  {
    assert IsModuleName("my_app");
    ModuleMatchIff("my_app");
    assert IsModuleName("app");
    TrailingNewlineAccepted("app");
    assert "app" + "\n" == "app\n";
  }

  /** Concrete names that make the hook exit 1. */
  lemma RejectedExamples()
    ensures RunHook("my-app", "db").exitStatus == ExitFailure
    ensures RunHook("a", "db").exitStatus == ExitFailure
    ensures RunHook("_", "db").exitStatus == ExitFailure
    ensures RunHook("1app", "db").exitStatus == ExitFailure
  {
  }
}

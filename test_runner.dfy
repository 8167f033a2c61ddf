/** The test runner of the admin console (admin/42.py): how a pytest
    command line is built (`build_pytest_command`), which steps a test
    sequence runs (`_run_test_sequence`) and how the full lifecycle
    regression proceeds (`_run_full_lifecycle_regression`). Running a
    command is an oracle: `ran(j)` is the outcome of the j-th call of
    `run_command` in one invocation, counting from 0. */
module TestRunner {
  import opened PyStr

  /** What the commands are built from: the quoted interpreter path
      (PY_EXEC), the project root, DEBUG_MODE and ALLURE_RESULTS_DIR. */
  datatype Setting = Setting(py: string, root: string, debug: bool, resultsDir: string)

  /** One entry of `steps_to_run`. */
  datatype Step = Step(name: string, command: string)

  /** PYTEST_VERBOSITY_FLAG */
  function Verbosity(s: Setting): string {
    if s.debug then "-v" else "-q -rA"
  }

  /** CLEANUP_STEPS */
  function CleanupSteps(s: Setting): seq<Step> {
    [Step("Cleaning Project", s.py + " \"" + s.root + "/admin/cleanup.py\""),
     Step("Creating Directories", s.py + " \"" + s.root + "/admin/create_directories.py\"")]
  }

  /** SHOW_CONTEXT_STEP; its "abort_on_fail" entry is never read. */
  function ShowContextStep(s: Setting): Step {
    Step("Display CONTEXT", s.py + " \"" + s.root + "/admin/show_context.py\"")
  }

  /** REPORTING_STEP */
  function ReportingStep(s: Setting): Step {
    Step("Serve Allure Report", "\"allure\" serve \"" + s.resultsDir + "\"")
  }

  // ---------------------------------------------------------------------
  // build_pytest_command

  /** A target naming a test file is quoted; any other target is a scope. */
  function TargetArg(target: string): string {
    if Contains(target, ".py") then "\"" + target + "\"" else "--scope=" + target
  }

  /** The target is passed as a quoted file exactly when it contains ".py". */
  lemma TargetArgIff(target: string)
    ensures TargetArg(target) == "\"" + target + "\"" <==> Contains(target, ".py")
    ensures !Contains(target, ".py") ==> TargetArg(target) == "--scope=" + target
  {
    if !Contains(target, ".py") {
      assert TargetArg(target)[0] == '-';
      assert ("\"" + target + "\"")[0] == '"';
    }
  }

  function BaseCommand(s: Setting, target: string): string {
    s.py + " -m pytest " + Verbosity(s) + " " + TargetArg(target)
  }

  const CleanFlag: string := " --clean-alluredir"

  function AlluredirFlag(s: Setting): string {
    "--alluredir=\"" + s.resultsDir + "\""
  }

  /** `build_pytest_command(target, with_allure, clean_allure)` */
  function BuildPytestCommand(s: Setting, target: string, withAllure: bool, cleanAllure: bool): (cmd: string)
    ensures StartsWith(cmd, BaseCommand(s, target))
    ensures !withAllure ==> cmd == BaseCommand(s, target)
    ensures withAllure ==> StartsWith(cmd, BaseCommand(s, target) + " " + AlluredirFlag(s))
    ensures withAllure ==> (EndsWith(cmd, CleanFlag) <==> cleanAllure)
  {
    var base := BaseCommand(s, target);
    if withAllure then
      var flags := AlluredirFlag(s) + (if cleanAllure then CleanFlag else "");
      AllureFlagsAfter(base, AlluredirFlag(s), cleanAllure);
      base + " " + flags
    else base
  }

  /** The results flag ends in a quote and the clean flag in a letter, so
      the end of the command tells whether the clean flag was added. */
  lemma AllureFlagsAfter(base: string, dirFlag: string, clean: bool)
    requires dirFlag != [] && dirFlag[|dirFlag| - 1] == '"'
    ensures var cmd := base + " " + (dirFlag + (if clean then CleanFlag else ""));
      StartsWith(cmd, base) && StartsWith(cmd, base + " " + dirFlag) && (EndsWith(cmd, CleanFlag) <==> clean)
  {
    var head := base + " " + dirFlag;
    var cmd := base + " " + (dirFlag + (if clean then CleanFlag else ""));
    assert cmd == head + (if clean then CleanFlag else "");
    assert cmd[..|head|] == head;
    assert head[..|base|] == base;
    assert cmd[|cmd| - 1] == (if clean then 'r' else '"');
  }

  /** The command line tells which allure flags were asked for: without
      allure there are none, with allure the results flag is there and the
      clean flag follows it only when asked for. */
  lemma FlagsDetermined(s: Setting, target: string, w1: bool, c1: bool, w2: bool, c2: bool)
    requires BuildPytestCommand(s, target, w1, c1) == BuildPytestCommand(s, target, w2, c2)
    ensures w1 == w2
    ensures w1 ==> c1 == c2
  {
    var n := |BaseCommand(s, target)|;
    var a := |AlluredirFlag(s)|;
    assert |BuildPytestCommand(s, target, w1, c1)| == n + (if w1 then 1 + a + (if c1 then |CleanFlag| else 0) else 0);
    assert |BuildPytestCommand(s, target, w2, c2)| == n + (if w2 then 1 + a + (if c2 then |CleanFlag| else 0) else 0);
  }

  // ---------------------------------------------------------------------
  // _run_test_sequence

  function TestStep(s: Setting, target: string, withAllure: bool): Step {
    Step("Run " + target + " Tests", BuildPytestCommand(s, target, withAllure, true))
  }

  /** `steps_to_run` */
  function TestSteps(s: Setting, target: string, withAllure: bool, isRegression: bool, serveReport: bool): seq<Step> {
    (if isRegression then CleanupSteps(s) + [ShowContextStep(s)] else [ShowContextStep(s)])
    + [TestStep(s, target, withAllure)]
    + (if serveReport then [ReportingStep(s)] else [])
  }

  /** A regression starts with the two cleanup steps; the context step comes
      next, then the test step; the report step is last iff a report is
      served. */
  lemma TestStepsShape(s: Setting, target: string, withAllure: bool, isRegression: bool, serveReport: bool)
    ensures var steps := TestSteps(s, target, withAllure, isRegression, serveReport);
      var pre := if isRegression then 3 else 1;
      |steps| == pre + 1 + (if serveReport then 1 else 0) &&
      (isRegression ==> steps[..2] == CleanupSteps(s)) &&
      steps[pre - 1] == ShowContextStep(s) &&
      steps[pre] == TestStep(s, target, withAllure) &&
      (steps[|steps| - 1] == ReportingStep(s) <==> serveReport)
  {
    var steps := TestSteps(s, target, withAllure, isRegression, serveReport);
    if !serveReport {
      assert steps[|steps| - 1].name[0] == 'R';
      assert ReportingStep(s).name[0] == 'S';
    }
  }

  /** The number of leading calls `from`, `from + 1`, ... (at most `n` of
      them) that succeed: the position of the first failure, or `n`. */
  function FirstFailure(ran: nat -> bool, from: nat, n: nat): (k: nat)
    ensures k <= n
    ensures forall c :: from <= c < from + k ==> ran(c)
    ensures k < n ==> !ran(from + k)
  {
    if n == 0 then 0
    else
      var k := FirstFailure(ran, from, n - 1);
      if k < n - 1 then k else if ran(from + n - 1) then n else n - 1
  }

  /** How many of `n` calls are made when the sequence stops at the first
      failure: every call up to and including the failing one. */
  function Executed(ran: nat -> bool, from: nat, n: nat): (k: nat)
    ensures k <= n
  {
    var f := FirstFailure(ran, from, n);
    if f < n then f + 1 else n
  }

  /** What the runner does, in order. */
  datatype Event = StopFileLogging | StartFileLogging | Run(command: string)

  predicate IsCleanupCommand(command: string) {
    Contains(command, "cleanup.py")
  }

  /** One step with outcome `ok`: file logging is stopped before a cleanup
      step and restarted after it only when it succeeded. */
  function StepEvents(step: Step, ok: bool): seq<Event> {
    var cleanup := IsCleanupCommand(step.command);
    (if cleanup then [StopFileLogging] else [])
    + [Run(step.command)]
    + (if cleanup && ok then [StartFileLogging] else [])
  }

  /** The events of `steps`, the i-th with outcome `ran(i)`. */
  function SequenceEvents(steps: seq<Step>, ran: nat -> bool): seq<Event>
    decreases |steps|
  {
    if steps == [] then []
    else SequenceEvents(steps[..|steps| - 1], ran) + StepEvents(steps[|steps| - 1], ran(|steps| - 1))
  }

  /** The loop of `_run_test_sequence`: steps run in order, and the first
      failing step ends the sequence. */
  method RunSteps(steps: seq<Step>, ran: nat -> bool) returns (allOk: bool, events: seq<Event>)
    ensures allOk <==> forall j :: 0 <= j < |steps| ==> ran(j)
    ensures events == SequenceEvents(steps[..Executed(ran, 0, |steps|)], ran)
  {
    allOk := true;
    events := [];
    var i := 0;
    while i < |steps|
      invariant 0 <= i <= |steps|
      invariant forall j :: 0 <= j < i ==> ran(j)
      invariant events == SequenceEvents(steps[..i], ran)
    {
      SequenceEventsNext(steps, i, ran);
      var stepEvents := RunStep(steps[i], ran(i));
      events := events + stepEvents;
      if !ran(i) {
        allOk := false;
        ExecutedUpTo(ran, |steps|, i);
        return;
      }
      i := i + 1;
    }
    ExecutedAll(ran, |steps|);
    assert steps[..|steps|] == steps;
  }

  /** One pass of the loop body: file logging is stopped around a cleanup
      step and restarted only when the step succeeded. */
  method RunStep(step: Step, ok: bool) returns (events: seq<Event>)
    ensures events == StepEvents(step, ok)
  {
    var isCleanup := Contains(step.command, "cleanup.py");
    events := [];
    if isCleanup {
      events := events + [StopFileLogging];
    }
    events := events + [Run(step.command)];
    if !ok {
      return;
    }
    if isCleanup {
      events := events + [StartFileLogging];
    }
  }

  /** One more step of the sequence adds that step's events. */
  lemma SequenceEventsNext(steps: seq<Step>, i: nat, ran: nat -> bool)
    requires i < |steps|
    ensures SequenceEvents(steps[..i + 1], ran) == SequenceEvents(steps[..i], ran) + StepEvents(steps[i], ran(i))
  {
    assert steps[..i + 1][..i] == steps[..i];
  }

  /** A sequence that fails at call `i` makes `i + 1` calls. */
  lemma ExecutedUpTo(ran: nat -> bool, n: nat, i: nat)
    requires i < n && !ran(i) && forall j :: 0 <= j < i ==> ran(j)
    ensures Executed(ran, 0, n) == i + 1
  {
  }

  /** A sequence in which every call succeeds makes all of them. */
  lemma ExecutedAll(ran: nat -> bool, n: nat)
    requires forall j :: 0 <= j < n ==> ran(j)
    ensures Executed(ran, 0, n) == n
  {
  }

  /** `_run_test_sequence(target, with_allure, is_regression, serve_report)`:
      whether every step succeeded, and what was done. */
  method RunTestSequence(s: Setting, target: string, withAllure: bool, isRegression: bool, serveReport: bool,
                         ran: nat -> bool)
    returns (allOk: bool, events: seq<Event>)
    ensures var steps := TestSteps(s, target, withAllure, isRegression, serveReport);
      (allOk <==> forall j :: 0 <= j < |steps| ==> ran(j)) &&
      events == SequenceEvents(steps[..Executed(ran, 0, |steps|)], ran)
  {
    var steps: seq<Step> := [];
    if isRegression {
      steps := steps + CleanupSteps(s);
      steps := steps + [ShowContextStep(s)];
    } else {
      steps := steps + [ShowContextStep(s)];
    }
    steps := steps + [Step("Run " + target + " Tests", BuildPytestCommand(s, target, withAllure, true))];
    if serveReport {
      steps := steps + [ReportingStep(s)];
    }
    assert steps == TestSteps(s, target, withAllure, isRegression, serveReport);
    allOk, events := RunSteps(steps, ran);
  }

  /** The commands run, in the order of the events. */
  function RunsOf(events: seq<Event>): seq<string>
    decreases |events|
  {
    if events == [] then []
    else RunsOf(events[..|events| - 1]) + (if events[|events| - 1].Run? then [events[|events| - 1].command] else [])
  }

  function Commands(steps: seq<Step>): (r: seq<string>)
    ensures |r| == |steps| && forall i :: 0 <= i < |steps| ==> r[i] == steps[i].command
  {
    seq(|steps|, i requires 0 <= i < |steps| => steps[i].command)
  }

  lemma {:induction false} RunsOfAppend(a: seq<Event>, b: seq<Event>)
    ensures RunsOf(a + b) == RunsOf(a) + RunsOf(b)
    decreases |b|
  {
    if b != [] {
      var init := b[..|b| - 1];
      RunsOfAppend(a, init);
      assert (a + b)[..|a + b| - 1] == a + init;
      assert (a + b)[|a + b| - 1] == b[|b| - 1];
    } else {
      assert a + b == a;
    }
  }

  /** Each step runs its own command once, so the commands run are those of
      the executed steps, in order: no step is skipped or repeated, and none
      after the first failure runs. */
  lemma {:induction false} RunsInOrder(steps: seq<Step>, ran: nat -> bool)
    ensures RunsOf(SequenceEvents(steps, ran)) == Commands(steps)
    decreases |steps|
  {
    if steps != [] {
      var init := steps[..|steps| - 1];
      var last := steps[|steps| - 1];
      assert steps == init + [last];
      RunsInOrder(init, ran);
      RunsOfNextStep(init, last, ran);
      CommandsSnoc(init, last);
    }
  }

  /** One more step runs one more command, its own. */
  lemma RunsOfNextStep(steps: seq<Step>, last: Step, ran: nat -> bool)
    ensures RunsOf(SequenceEvents(steps + [last], ran)) == RunsOf(SequenceEvents(steps, ran)) + [last.command]
  {
    var all := steps + [last];
    var ok := ran(|steps|);
    assert all[..|all| - 1] == steps && all[|all| - 1] == last;
    assert SequenceEvents(all, ran) == SequenceEvents(steps, ran) + StepEvents(last, ok);
    RunsOfAppend(SequenceEvents(steps, ran), StepEvents(last, ok));
    RunsOfStep(last, ok);
  }

  lemma CommandsSnoc(steps: seq<Step>, last: Step)
    ensures Commands(steps + [last]) == Commands(steps) + [last.command]
  {
    var a := Commands(steps + [last]);
    var b := Commands(steps) + [last.command];
    assert |a| == |b|;
    forall i | 0 <= i < |a| ensures a[i] == b[i] {
      if i < |steps| {
        assert (steps + [last])[i] == steps[i];
      }
    }
  }

  /** A step runs its command once, whatever logging it does around it. */
  lemma RunsOfStep(step: Step, ok: bool)
    ensures RunsOf(StepEvents(step, ok)) == [step.command]
  {
    var pre: seq<Event> := if IsCleanupCommand(step.command) then [StopFileLogging] else [];
    var post: seq<Event> := if IsCleanupCommand(step.command) && ok then [StartFileLogging] else [];
    RunsOfAppend(pre, [Run(step.command)]);
    RunsOfAppend(pre + [Run(step.command)], post);
    assert RunsOf(pre) == [] by {
      if pre != [] { assert pre[..0] == []; }
    }
    assert RunsOf(post) == [] by {
      if post != [] { assert post[..0] == []; }
    }
    assert RunsOf([Run(step.command)]) == [step.command] by {
      assert [Run(step.command)][..0] == [];
    }
  }

  /** Whether file logging is on after `events`, starting from `on`. */
  function LoggingAfter(events: seq<Event>, on: bool): bool
    decreases |events|
  {
    if events == [] then on
    else LoggingAfter(events[1..], match events[0] case StopFileLogging => false case StartFileLogging => true case Run(_) => on)
  }

  /** Every cleanup command runs with file logging off, and every other
      command with it on. */
  predicate RunsLogged(events: seq<Event>, on: bool)
    decreases |events|
  {
    events == [] ||
    ((events[0].Run? ==> (on <==> !IsCleanupCommand(events[0].command))) &&
     RunsLogged(events[1..], match events[0] case StopFileLogging => false case StartFileLogging => true case Run(_) => on))
  }

  lemma {:induction false} LoggingAppend(a: seq<Event>, b: seq<Event>, on: bool)
    ensures LoggingAfter(a + b, on) == LoggingAfter(b, LoggingAfter(a, on))
    ensures RunsLogged(a + b, on) == (RunsLogged(a, on) && RunsLogged(b, LoggingAfter(a, on)))
    decreases |a|
  {
    if a != [] {
      var next := match a[0] case StopFileLogging => false case StartFileLogging => true case Run(_) => on;
      assert (a + b)[0] == a[0] && (a + b)[1..] == a[1..] + b;
      LoggingAppend(a[1..], b, next);
    } else {
      assert a + b == b;
    }
  }

  /** A step starting with logging on keeps every command's logging right,
      and leaves logging on unless it is a cleanup step that failed. */
  lemma StepLogged(step: Step, ok: bool)
    ensures RunsLogged(StepEvents(step, ok), true)
    ensures LoggingAfter(StepEvents(step, ok), true) <==> ok || !IsCleanupCommand(step.command)
  {
    var c := step.command;
    var e := StepEvents(step, ok);
    if IsCleanupCommand(c) {
      var tail: seq<Event> := if ok then [StartFileLogging] else [];
      assert e == [StopFileLogging, Run(c)] + tail;
      assert e[1..] == [Run(c)] + tail && e[1..][1..] == tail;
      assert LoggingAfter(e, true) == LoggingAfter(e[1..], false) == LoggingAfter(tail, false);
      if ok {
        assert RunsLogged(tail, false) by { assert tail[1..] == []; }
        assert LoggingAfter(tail, false) by { assert tail[1..] == []; }
      }
    } else {
      assert e == [Run(c)] && e[1..] == [];
    }
  }

  /** When every step but the last succeeds, cleanup commands run with file
      logging stopped and all others with it running, and logging is left
      stopped at the end exactly when the last step is a failed cleanup. */
  lemma {:induction false} SequenceLogged(steps: seq<Step>, ran: nat -> bool)
    requires forall j :: 0 <= j < |steps| - 1 ==> ran(j)
    ensures RunsLogged(SequenceEvents(steps, ran), true)
    ensures !LoggingAfter(SequenceEvents(steps, ran), true) <==>
      steps != [] && !ran(|steps| - 1) && IsCleanupCommand(steps[|steps| - 1].command)
    decreases |steps|
  {
    if steps != [] {
      var init := steps[..|steps| - 1];
      var last := steps[|steps| - 1];
      SequenceLogged(init, ran);
      if init != [] {
        assert init[|init| - 1] == steps[|init| - 1];
      }
      LoggingAppend(SequenceEvents(init, ran), StepEvents(last, ran(|steps| - 1)), true);
      StepLogged(last, ran(|steps| - 1));
    }
  }

  /** What a test sequence does: every command but a cleanup one runs with
      file logging on, and logging stays stopped afterwards only when a
      cleanup step failed. */
  lemma TestSequenceLogging(steps: seq<Step>, ran: nat -> bool)
    ensures var k := Executed(ran, 0, |steps|);
      RunsLogged(SequenceEvents(steps[..k], ran), true) &&
      (!LoggingAfter(SequenceEvents(steps[..k], ran), true) <==>
        k > 0 && !ran(k - 1) && IsCleanupCommand(steps[k - 1].command))
  {
    var k := Executed(ran, 0, |steps|);
    forall j | 0 <= j < k - 1 ensures ran(j) {
      assert j < FirstFailure(ran, 0, |steps|);
    }
    SequenceLogged(steps[..k], ran);
  }

  // ---------------------------------------------------------------------
  // _run_full_lifecycle_regression

  /** `lifecycle_stages`: the persona critiqued and the test target. */
  function Stages(s: Setting): seq<(string, string)> {
    [("Architect", s.root + "/src/presentation/tests/test_architect.py"),
     ("Constructor", "CONSTRUCTOR"),
     ("Designer", s.root + "/src/presentation/tests/test_designer.py"),
     ("Contractor", s.root + "/src/presentation/tests/test_contractor.py"),
     ("QA Engineer", s.root + "/src/presentation/tests/test_qa_engineer.py")]
  }

  /** The setup steps run once before the stages. */
  function SetupSteps(s: Setting): seq<Step> {
    CleanupSteps(s) + [ShowContextStep(s)]
  }

  /** The command of stage `i` (from 0): allure results are collected only
      when a report is served, and cleaned only on the first stage. */
  function StageCommand(s: Setting, serveReport: bool, i: nat): string
    requires i < 5
  {
    BuildPytestCommand(s, Stages(s)[i].1, serveReport, if serveReport then i == 0 else false)
  }

  function StageCommands(s: Setting, serveReport: bool): (r: seq<string>)
    ensures |r| == 5 && forall i :: 0 <= i < 5 ==> r[i] == StageCommand(s, serveReport, i)
  {
    seq(5, i requires 0 <= i < 5 => StageCommand(s, serveReport, i))
  }

  /** The allure results are cleaned on the first stage only, and only when
      a report is served. */
  lemma CleanOnFirstStageOnly(s: Setting, serveReport: bool, i: nat)
    requires i < 5
    ensures StageCommand(s, serveReport, i) == BuildPytestCommand(s, Stages(s)[i].1, true, true)
      <==> serveReport && i == 0
  {
    if StageCommand(s, serveReport, i) == BuildPytestCommand(s, Stages(s)[i].1, true, true) {
      FlagsDetermined(s, Stages(s)[i].1, serveReport, if serveReport then i == 0 else false, true, true);
    }
  }

  datatype Lifecycle = SetupFailed | StageFailed(stage: nat) | Passed

  /** The two loops of the lifecycle run: the commands from call number
      `from` on run one by one until the first failure. (The stage loop
      builds each command just before running it; building is pure, so
      the commands can as well be built first.) */
  method RunUntilFailure(commands: seq<string>, ran: nat -> bool, from: nat) returns (ok: bool, run: seq<string>)
    ensures ok <==> FirstFailure(ran, from, |commands|) == |commands|
    ensures run == commands[..Executed(ran, from, |commands|)]
  {
    run := [];
    var i := 0;
    while i < |commands|
      invariant 0 <= i <= |commands|
      invariant run == commands[..i]
      invariant forall c :: from <= c < from + i ==> ran(c)
    {
      run := run + [commands[i]];
      assert run == commands[..i + 1];
      if !ran(from + i) {
        assert FirstFailure(ran, from, |commands|) == i;
        return false, run;
      }
      i := i + 1;
    }
    assert run == commands;
    ok := true;
  }

  /** `_run_full_lifecycle_regression(serve_report)`: the commands run, in
      order, and how it ended. A failing setup step ends it before any
      stage; the stages stop at the first failure; the report is served
      only after every stage passed. */
  method RunLifecycle(s: Setting, serveReport: bool, ran: nat -> bool) returns (outcome: Lifecycle, commands: seq<string>)
    ensures FirstFailure(ran, 0, 3) < 3 ==>
      outcome == SetupFailed && commands == Commands(SetupSteps(s))[..FirstFailure(ran, 0, 3) + 1]
    ensures FirstFailure(ran, 0, 3) == 3 ==>
      var k := FirstFailure(ran, 3, 5);
      outcome == (if k == 5 then Passed else StageFailed(k)) &&
      commands == Commands(SetupSteps(s)) + StageCommands(s, serveReport)[..Executed(ran, 3, 5)]
                  + (if k == 5 && serveReport then [ReportingStep(s).command] else [])
  {
    var setup := Commands(SetupSteps(s));
    var stages := StageCommands(s, serveReport);
    assert |setup| == 3 && |stages| == 5;
    var setupOk, setupCommands := RunUntilFailure(setup, ran, 0);
    if !setupOk {
      return SetupFailed, setupCommands;
    }
    assert setupCommands == setup;
    var overallSuccess, stageCommands := RunUntilFailure(stages, ran, 3);
    commands := setupCommands + stageCommands;
    if overallSuccess {
      outcome := Passed;
      if serveReport {
        commands := commands + [ReportingStep(s).command];
      }
    } else {
      outcome := StageFailed(FirstFailure(ran, 3, 5));
    }
  }
}

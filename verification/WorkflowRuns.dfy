/**
 What a generated workflow does when it runs. The workflow engine knows only the printed `depends` and `when`
 strings; the author of the Flow thinks of the graph of steps. Both see the same runs.
 */
module WorkflowRuns {
  import opened Options
  import opened Steps
  import opened Expressions
  import opened WorkflowCompiler
  import opened DockerfileSearch
  import DockerfileDir
  import GitUrl

  // `report` is the output parameter that the steps' containers export.
  datatype Status = Waiting | Active | Succeeded(report: Option<string>) | Failed | Skipped | Omitted

  type Board = map<string, Status>

  const SKIPPED := "Skipped"

  // What is decided about a waiting task.
  datatype Verdict = Hold | Run | Gate | Drop

  // Of task number `i`.
  datatype Event =
    | Start(i: nat)
    | Skip(i: nat)
    | Omit(i: nat)
    | Succeed(i: nat, report: Option<string>)
    | Fail(i: nat)

  predicate Settled(status: Status) { !status.Waiting? && !status.Active? }

  predicate AllSettled(board: Board, names: seq<string>) { forall n <- names :: n in board && Settled(board[n]) }

  predicate AllSucceeded(board: Board, names: seq<string>) { forall n <- names :: n in board && board[n].Succeeded? }

  predicate DidWork(board: Board, name: string) {
    name in board && board[name].Succeeded? && board[name].report.Some? && board[name].report.value != SKIPPED
  }

  // ------------------------------------------------------------------ the engine's reading of a task

  // None is an expression that does not parse.
  function Decide(board: Board, depends: Option<seq<string>>, gates: Option<seq<string>>): Verdict {
    if depends.None? || gates.None? then Hold
    else if !AllSettled(board, depends.value) then Hold
    else if !AllSucceeded(board, depends.value) then Drop
    else if forall n <- gates.value :: DidWork(board, n) then Run
    else Gate
  }

  function EngineSays(board: Board, dependsExpr: string, whenExpr: string): Verdict {
    Decide(board, ReadDepends(dependsExpr), ReadWhen(whenExpr))
  }

  // ------------------------------------------------------------------ the meaning of a step

  /** A deploy step is gated on its direct build and ArgoCD dependencies. */
  predicate GateOpen(board: Board, s: Step, index: StepIndex) {
    Deploys(s) ==> forall d <- s.dependsOn :: ExportsStatus(index, d) ==> DidWork(board, d)
  }

  function FlowSays(board: Board, s: Step, index: StepIndex): Verdict {
    if !AllSettled(board, s.dependsOn) then Hold
    else if !AllSucceeded(board, s.dependsOn) then Drop
    else if GateOpen(board, s, index) then Run
    else Gate
  }

  // ------------------------------------------------------------------ runs

  predicate Allows(verdict: Verdict, status: Status, e: Event) {
    match e
    case Start(_) => status.Waiting? && verdict.Run?
    case Skip(_) => status.Waiting? && verdict.Gate?
    case Omit(_) => status.Waiting? && verdict.Drop?
    case Succeed(_, _) => status.Active?
    case Fail(_) => status.Active?
  }

  function Outcome(e: Event): Status {
    match e
    case Start(_) => Active
    case Skip(_) => Skipped
    case Omit(_) => Omitted
    case Succeed(_, report) => Succeeded(report)
    case Fail(_) => Failed
  }

  /** The board after `events` as the engine runs the tasks; None when it would not run them so. */
  function EngineRun(tasks: seq<Task>, events: seq<Event>): Option<Board> {
    if events == [] then Some(map t | t in tasks :: t.name := Waiting)
    else
      var before, e := EngineRun(tasks, events[..|events| - 1]), events[|events| - 1];
      if before.None? || e.i >= |tasks| || tasks[e.i].name !in before.value then None
      else
        var board, name := before.value, tasks[e.i].name;
        var says := EngineSays(board, tasks[e.i].depends, tasks[e.i].when);
        if Allows(says, board[name], e) then Some(board[name := Outcome(e)])
        else None
  }

  /** The same for the graph of steps. */
  function FlowRun(steps: seq<Step>, events: seq<Event>): Option<Board> {
    if events == [] then Some(map s | s in steps :: s.name := Waiting)
    else
      var before, e := FlowRun(steps, events[..|events| - 1]), events[|events| - 1];
      if before.None? || e.i >= |steps| || steps[e.i].name !in before.value then None
      else
        var board, name := before.value, steps[e.i].name;
        if Allows(FlowSays(board, steps[e.i], Index(steps)), board[name], e) then Some(board[name := Outcome(e)])
        else None
  }

  // ------------------------------------------------------------------ the engine follows the Flow

  predicate TaskNamesOnly(steps: seq<Step>) {
    forall s <- steps :: forall d <- s.dependsOn :: IsTaskName(d)
  }

  ghost predicate Compiles(steps: seq<Step>) {
    DistinctNames(steps) && TaskNamesOnly(steps) && Compile(steps).Compiled?
  }

  // The `when` of a step's task.
  function WhenOf(s: Step, index: StepIndex): string {
    if Deploys(s) then PrintWhen(Gates(s.dependsOn, index)) else ""
  }

  lemma CompiledStepIs(s: Step, i: nat, index: StepIndex)
    requires s.name in index && index[s.name] == s && CompileStep(s, i, index).Compiled?
    ensures var task := CompileStep(s, i, index).value;
      task.name == s.name && task.depends == PrintDepends(s.dependsOn) && task.when == WhenOf(s, index)
    ensures Deploys(s) ==> var task, found := CompileStep(s, i, index).value, SearchFrom(index, s.name);
      && found.Found? && "dockerfile-dir" in task.parameters
      && task.parameters["dockerfile-dir"] == DockerfileDir.GetDockerfileDir(found.path)
  {
  }

  lemma TaskHasStepsNames(steps: seq<Step>, i: nat)
    requires Compiles(steps) && i < |steps|
    ensures |Compile(steps).value| == |steps| && Compile(steps).value[i].name == steps[i].name
    ensures Compile(steps).value[i].depends == PrintDepends(steps[i].dependsOn)
    ensures Compile(steps).value[i].when == WhenOf(steps[i], Index(steps))
  {
    TaskOfStep(steps, |steps|);
    IndexLookup(steps);
    assert steps[i] in steps;
    CompiledStepIs(steps[i], i, Index(steps));
  }

  // The steps that a step's `when` names.
  function GatesOf(s: Step, index: StepIndex): seq<string> { if Deploys(s) then Gates(s.dependsOn, index) else [] }

  lemma GatesMeanGateOpen(board: Board, s: Step, index: StepIndex)
    ensures (forall d <- GatesOf(s, index) :: DidWork(board, d)) <==> GateOpen(board, s, index)
  {
    GatesAre(s.dependsOn, index);
  }

  lemma PrintedReadsBack(s: Step, index: StepIndex)
    requires forall d <- s.dependsOn :: IsTaskName(d)
    ensures ReadDepends(PrintDepends(s.dependsOn)) == Some(s.dependsOn)
    ensures ReadWhen(WhenOf(s, index)) == Some(GatesOf(s, index))
  {
    DependsRoundTrip(s.dependsOn);
    if Deploys(s) {
      GatesAre(s.dependsOn, index);
      WhenRoundTrip(Gates(s.dependsOn, index));
    }
  }

  lemma DecisionsAgree(s: Step, index: StepIndex, board: Board)
    ensures Decide(board, Some(s.dependsOn), Some(GatesOf(s, index))) == FlowSays(board, s, index)
  {
    GatesMeanGateOpen(board, s, index);
  }

  /** What the engine reads in the printed strings is what the step means, whatever the graph of steps. */
  lemma VerdictsAgree(s: Step, index: StepIndex, board: Board)
    requires forall d <- s.dependsOn :: IsTaskName(d)
    ensures EngineSays(board, PrintDepends(s.dependsOn), WhenOf(s, index)) == FlowSays(board, s, index)
  {
    PrintedReadsBack(s, index);
    DecisionsAgree(s, index, board);
  }

  /** Every run of the generated workflow is a run of the Flow, and the other way round, with the same statuses. */
  lemma {:induction false} EngineFollowsFlow(steps: seq<Step>, events: seq<Event>)
    requires Compiles(steps)
    ensures EngineRun(Compile(steps).value, events) == FlowRun(steps, events)
  {
    assert |Compile(steps).value| == |steps| by { TaskOfStep(steps, |steps|); }
    if events == [] {
      SameStart(steps);
    } else {
      EngineFollowsFlow(steps, events[..|events| - 1]);
      var before, e := FlowRun(steps, events[..|events| - 1]), events[|events| - 1];
      if before.Some? && e.i < |steps| {
        TaskHasStepsNames(steps, e.i);
        assert steps[e.i] in steps;
        VerdictsAgree(steps[e.i], Index(steps), before.value);
      }
    }
  }

  predicate Named(steps: seq<Step>, name: string) { exists s :: s in steps && s.name == name }

  predicate Tasked(tasks: seq<Task>, name: string) { exists t :: t in tasks && t.name == name }

  lemma SameStart(steps: seq<Step>)
    requires Compiles(steps)
    ensures EngineRun(Compile(steps).value, []) == FlowRun(steps, [])
  {
    var tasks := Compile(steps).value;
    var a, b := map t | t in tasks :: t.name := Waiting, map s | s in steps :: s.name := Waiting;
    forall name ensures name in a <==> name in b {
      assert name in a <==> Tasked(tasks, name);
      assert name in b <==> Named(steps, name);
      SameNames(steps, name);
    }
    assert a == b;
  }

  lemma SameNames(steps: seq<Step>, name: string)
    requires Compiles(steps)
    ensures Tasked(Compile(steps).value, name) <==> Named(steps, name)
  {
    var tasks := Compile(steps).value;
    OneTaskEach(steps, |steps|);
    if t :| t in tasks && t.name == name {
      var i :| 0 <= i < |tasks| && tasks[i] == t;
      TaskHasStepsNames(steps, i);
      assert steps[i] in steps;
    }
    if s :| s in steps && s.name == name {
      var i :| 0 <= i < |steps| && steps[i] == s;
      TaskHasStepsNames(steps, i);
      assert tasks[i] in tasks;
    }
  }

  // ------------------------------------------------------------------ what a started step can rely on

  predicate Started(status: Status) { status.Active? || status.Succeeded? || status.Failed? }

  // A started step's direct dependencies have succeeded, and its gate was open.
  predicate Founded(board: Board, steps: seq<Step>) {
    forall s <- steps ::
      && s.name in board
      && (Started(board[s.name]) ==> AllSucceeded(board, s.dependsOn) && GateOpen(board, s, Index(steps)))
  }

  lemma {:induction false} RunsAreFounded(steps: seq<Step>, events: seq<Event>)
    requires DistinctNames(steps) && FlowRun(steps, events).Some?
    ensures Founded(FlowRun(steps, events).value, steps)
  {
    if events != [] {
      RunsAreFounded(steps, events[..|events| - 1]);
      var before, e := FlowRun(steps, events[..|events| - 1]).value, events[|events| - 1];
      var after := FlowRun(steps, events).value;
      forall s | s in steps && Started(after[s.name])
        ensures AllSucceeded(after, s.dependsOn) && GateOpen(after, s, Index(steps))
      {
        var k :| 0 <= k < |steps| && steps[k] == s;
        if k != e.i { assert s.name != steps[e.i].name; }
        assert AllSucceeded(before, s.dependsOn) && GateOpen(before, s, Index(steps));
      }
    }
  }

  lemma {:induction false} WalksHaveSucceeded(board: Board, steps: seq<Step>, start: string, path: seq<string>)
    requires Founded(board, steps) && DistinctNames(steps)
    requires start in board && Started(board[start]) && IsWalk(Index(steps), start, path)
    ensures AllSucceeded(board, path)
    decreases |path|
  {
    IndexLookup(steps);
    if |path| > 1 {
      var front := path[..|path| - 1];
      WalksHaveSucceeded(board, steps, start, front);
      assert path == front + [path[|path| - 1]];
    }
  }

  /** Everything a started step depends on, however indirectly, has succeeded. */
  lemma ReachedHaveSucceeded(board: Board, steps: seq<Step>, start: string, name: string)
    requires Founded(board, steps) && DistinctNames(steps)
    requires start in board && Started(board[start]) && Reaches(Index(steps), start, name)
    ensures name in board && board[name].Succeeded?
  {
    var path :| IsWalk(Index(steps), start, path) && path[|path| - 1] == name;
    WalksHaveSucceeded(board, steps, start, path);
  }

  /** A step that depends on itself never starts. */
  lemma {:induction false} CyclesNeverStart(steps: seq<Step>, events: seq<Event>, s: Step)
    requires DistinctNames(steps) && FlowRun(steps, events).Some?
    requires s in steps && Reaches(Index(steps), s.name, s.name)
    ensures s.name in FlowRun(steps, events).value && !Started(FlowRun(steps, events).value[s.name])
  {
    RunsAreFounded(steps, events);
    if events != [] {
      var before, e := FlowRun(steps, events[..|events| - 1]).value, events[|events| - 1];
      CyclesNeverStart(steps, events[..|events| - 1], s);
      if e.Start? && steps[e.i].name == s.name {
        var after := FlowRun(steps, events).value;
        ReachedHaveSucceeded(after, steps, s.name, s.name);
      }
    }
  }

  /**
   When an ArgoCD or create-PR task of a generated workflow has started, all its transitive dependencies have
   succeeded, no direct build or ArgoCD dependency reported "Skipped", and it deploys the image directory of the
   one publish step among those dependencies.
   */
  lemma DeploysOnlyWhatWasBuilt(steps: seq<Step>, events: seq<Event>, i: nat)
    requires Compiles(steps) && i < |steps| && Deploys(steps[i])
    requires !SomeEmptyPath(Index(steps), steps[i].name)
    requires var run := EngineRun(Compile(steps).value, events);
      run.Some? && steps[i].name in run.value && Started(run.value[steps[i].name])
    ensures var board, index, name := EngineRun(Compile(steps).value, events).value, Index(steps), steps[i].name;
      && (forall n :: Reaches(index, name, n) ==> n in board && board[n].Succeeded?)
      && (forall d <- steps[i].dependsOn :: ExportsStatus(index, d) ==> DidWork(board, d))
    ensures |Compile(steps).value| == |steps| && "dockerfile-dir" in Compile(steps).value[i].parameters
    ensures exists path :: OnePublish(Index(steps), steps[i].name, path)
              && Compile(steps).value[i].parameters["dockerfile-dir"] == DockerfileDir.GetDockerfileDir(path)
  {
    var board, index, name := EngineRun(Compile(steps).value, events).value, Index(steps), steps[i].name;
    EngineFollowsFlow(steps, events);
    RunsAreFounded(steps, events);
    forall n | Reaches(index, name, n) ensures n in board && board[n].Succeeded? {
      ReachedHaveSucceeded(board, steps, name, n);
    }
    assert steps[i] in steps;
    ImageDirectoryIsRight(steps, i);
  }

  lemma DeployTaskIs(steps: seq<Step>, i: nat) returns (task: Task)
    requires DistinctNames(steps) && Compile(steps).Compiled? && i < |steps| && Deploys(steps[i])
    ensures |Compile(steps).value| == |steps| && task == Compile(steps).value[i]
    ensures steps[i].name in Index(steps) && SearchFrom(Index(steps), steps[i].name).Found?
    ensures "dockerfile-dir" in task.parameters
    ensures task.parameters["dockerfile-dir"]
         == DockerfileDir.GetDockerfileDir(SearchFrom(Index(steps), steps[i].name).path)
  {
    TaskOfStep(steps, |steps|);
    IndexLookup(steps);
    task := Compile(steps).value[i];
    assert steps[i] in steps;
    CompiledStepIs(steps[i], i, Index(steps));
  }

  // ------------------------------------------------------------------ the image that is handed over

  // The parts of an image's name: <registry><repository><directory>:<revision>.
  datatype Image = Image(repo: string, dir: string, revision: string)

  /** The image that a build task pushes. */
  function Pushes(t: Task): Option<Image> {
    if "image-repo" in t.parameters && "dockerfile-dir" in t.parameters && "revision" in t.parameters
    then Some(Image(t.parameters["image-repo"], t.parameters["dockerfile-dir"], t.parameters["revision"])) else None
  }

  /** The image that a deploy task puts into the manifests. */
  function Consumes(t: Task): Option<Image> {
    if "image-repo" in t.parameters && "dockerfile-dir" in t.parameters && "build-revision" in t.parameters
    then Some(Image(t.parameters["image-repo"], t.parameters["dockerfile-dir"], t.parameters["build-revision"]))
    else None
  }

  function ImageAt(path: string): Image {
    Image("{{inputs.parameters.repo-short}}", DockerfileDir.GetDockerfileDir(path), "{{inputs.parameters.revision}}")
  }

  lemma PublishTaskPushes(s: Step, i: nat, index: StepIndex)
    requires s.DockerBuildTestPublish? && s.name in index
    ensures CompileStep(s, i, index).Compiled?
    ensures Pushes(CompileStep(s, i, index).value) == Some(ImageAt(s.dockerfilePath))
  {
  }

  lemma DeployTaskConsumes(s: Step, i: nat, index: StepIndex)
    requires Deploys(s) && s.name in index && CompileStep(s, i, index).Compiled?
    ensures var found := SearchFrom(index, s.name);
      found.Found? && Consumes(CompileStep(s, i, index).value) == Some(ImageAt(found.path))
  {
  }

  /** A deploy task consumes exactly the image that the one publish step it depends on pushes. */
  lemma DeploysWhatItsDependencyPushes(steps: seq<Step>, tasks: seq<Task>, i: nat) returns (j: nat)
    requires DistinctNames(steps) && Compile(steps) == Compiled(tasks) && i < |steps| && Deploys(steps[i])
    requires !SomeEmptyPath(Index(steps), steps[i].name)
    ensures |tasks| == |steps| && j < |steps|
    ensures steps[j].DockerBuildTestPublish? && Reaches(Index(steps), steps[i].name, steps[j].name)
    ensures Pushes(tasks[j]).Some? && Consumes(tasks[i]) == Pushes(tasks[j])
  {
    var index, start := Index(steps), steps[i].name;
    OneTaskEach(steps, |steps|);
    TaskAt(steps, |steps|, i);
    DeployTaskConsumes(steps[i], i, index);
    SearchIsRight(index, start);
    var path := SearchFrom(index, start).path;
    var name :| ReachesPublish(index, start, name) && index[name].dockerfilePath == path;
    IndexLookup(steps);
    j :| 0 <= j < |steps| && steps[j] == index[name];
    TaskAt(steps, |steps|, j);
    PublishTaskPushes(steps[j], j, index);
  }

  // ------------------------------------------------------------------ and deploys do start

  predicate IsPair(build: Step, deploy: Step) {
    && build.DockerBuildTestPublish? && build.dependsOn == [] && build.dockerfilePath != ""
    && deploy.ArgoCD? && deploy.dependsOn == [build.name] && GitUrl.GetRepoOrgName(deploy.repoUrl).Repo?
    && IsTaskName(build.name) && build.name != deploy.name
  }

  lemma PairIndex(build: Step, deploy: Step)
    requires build.name != deploy.name
    ensures Index([build, deploy]) == map[build.name := build, deploy.name := deploy]
  {
    var steps := [build, deploy];
    assert steps[..1] == [build] && [build][..0] == [];
    assert Index([build]) == map[build.name := build];
  }

  lemma PairFinds(build: Step, deploy: Step)
    requires IsPair(build, deploy)
    ensures var index := map[build.name := build, deploy.name := deploy];
      SearchFrom(index, deploy.name) == Found(build.dockerfilePath)
  {
    var index := map[build.name := build, deploy.name := deploy];
    assert [build.name][1..] + build.dependsOn == [];
    assert Search(index, [], {} + {build.name}, build.dockerfilePath) == Found(build.dockerfilePath);
  }

  lemma PairCompiles(build: Step, deploy: Step)
    requires IsPair(build, deploy)
    ensures Compiles([build, deploy])
  {
    var steps, index := [build, deploy], map[build.name := build, deploy.name := deploy];
    PairIndex(build, deploy);
    PairFinds(build, deploy);
    assert CompileUpTo(steps, 0) == Compiled([]);
    CompileOneMore(steps, 0);
    assert CompileStep(build, 0, index).Compiled?;
    assert CompileUpTo(steps, 1).Compiled?;
    CompileOneMore(steps, 1);
    assert CompileStep(deploy, 1, index).Compiled?;
  }

  /** A published build that reports work lets the deploy step that depends on it start; one that skipped does not. */
  lemma BuildThenDeploy(build: Step, deploy: Step, report: string)
    requires IsPair(build, deploy)
    ensures Compiles([build, deploy])
    ensures var tasks, built := Compile([build, deploy]).value, [Start(0), Succeed(0, Some(report))];
      && (EngineRun(tasks, built + [Start(1)]).Some? <==> report != SKIPPED)
      && (EngineRun(tasks, built + [Skip(1)]).Some? <==> report == SKIPPED)
  {
    var steps, built := [build, deploy], [Start(0), Succeed(0, Some(report))];
    PairCompiles(build, deploy);
    EngineFollowsFlow(steps, built + [Start(1)]);
    EngineFollowsFlow(steps, built + [Skip(1)]);
    GateDecides(build, deploy, report, Start(1));
    GateDecides(build, deploy, report, Skip(1));
  }

  lemma GateDecides(build: Step, deploy: Step, report: string, e: Event)
    requires IsPair(build, deploy) && (e == Start(1) || e == Skip(1))
    ensures FlowRun([build, deploy], [Start(0), Succeed(0, Some(report))] + [e]).Some?
      <==> (e.Start? <==> report != SKIPPED)
  {
    var steps, built := [build, deploy], [Start(0), Succeed(0, Some(report))];
    PairIndex(build, deploy);
    var board := BuildRuns(build, deploy, report);
    assert (built + [e])[..2] == built;
    var d := deploy.dependsOn[0];
    assert d == build.name && d in deploy.dependsOn && ExportsStatus(Index(steps), d);
    assert GateOpen(board, deploy, Index(steps)) <==> DidWork(board, d);
    assert FlowSays(board, deploy, Index(steps)) == if report != SKIPPED then Run else Gate;
  }

  lemma BuildRuns(build: Step, deploy: Step, report: string) returns (board: Board)
    requires IsPair(build, deploy)
    ensures board == map[build.name := Succeeded(Some(report)), deploy.name := Waiting]
    ensures FlowRun([build, deploy], [Start(0), Succeed(0, Some(report))]) == Some(board)
  {
    var steps := [build, deploy];
    var first, both := [Start(0)], [Start(0), Succeed(0, Some(report))];
    assert first[..0] == [] && both[..1] == first;
    var start := FlowRun(steps, []).value;
    assert start == map[build.name := Waiting, deploy.name := Waiting] by {
      assert build in steps && deploy in steps;
    }
    assert FlowRun(steps, first) == Some(start[build.name := Active]);
    board := map[build.name := Succeeded(Some(report)), deploy.name := Waiting];
    assert start[build.name := Active][build.name := Succeeded(Some(report))] == board;
  }

  lemma ImageDirectoryIsRight(steps: seq<Step>, i: nat)
    requires DistinctNames(steps) && Compile(steps).Compiled? && i < |steps| && Deploys(steps[i])
    requires !SomeEmptyPath(Index(steps), steps[i].name)
    ensures |Compile(steps).value| == |steps| && "dockerfile-dir" in Compile(steps).value[i].parameters
    ensures exists path :: OnePublish(Index(steps), steps[i].name, path)
              && Compile(steps).value[i].parameters["dockerfile-dir"] == DockerfileDir.GetDockerfileDir(path)
  {
    assert |Compile(steps).value| == |steps| by { TaskOfStep(steps, |steps|); }
    var task := DeployTaskIs(steps, i);
    SearchIsRight(Index(steps), steps[i].name);
    assert OnePublish(Index(steps), steps[i].name, SearchFrom(Index(steps), steps[i].name).path);
  }
}

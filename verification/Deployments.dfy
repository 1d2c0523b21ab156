/**
 From a Flow to what its workflow deploys: preprocessing, the compiler, the reconciler and the workflow engine put
 together.
 */
module Deployments {
  import opened Options
  import opened Cluster
  import opened FlowWants
  import opened FlowProcessor
  import opened ReconcilerModel
  import opened ReconcilerResults
  import opened Steps
  import DockerfileDir
  import DockerfileSearch
  import WorkflowCompiler
  import WorkflowRuns

  /** Marshalling a workflow: different ones are written differently, and none as the empty string. */
  ghost predicate Readable(k: Constants) {
    && (forall a, b :: k.workflowText(a) == k.workflowText(b) ==> a == b)
    && (forall a :: k.workflowText(a) != "")
  }

  /** The stored sensor of a Flow starts this workflow. */
  predicate Carries(k: Constants, w: World, name: FlowName, wf: Workflow) {
    var sensor := Now(w.run.objects, Key(Kind.Sensor, name.namespace, name.name));
    sensor.Some? && WORKFLOW in sensor.value.spec && sensor.value.spec[WORKFLOW] == k.workflowText(wf)
  }

  lemma JobWantsItsSensor(k: Constants, flow: Flow)
    requires ProcessedOf(flow).Some?
    ensures var p := ProcessedOf(flow).value;
      SensorWant(flow.namespace, flow.name, SensorSpec(k, flow.name, p)) in Wants(k, JobOf(k, flow))
  {
    WantsInclude(k, JobOf(k, flow));
  }

  lemma DerivedText(want: Fields, have: Fields, text: string)
    requires WORKFLOW in want && want[WORKFLOW] == text && text != "" && Derives(want, have)
    ensures WORKFLOW in have && have[WORKFLOW] == text
  {
  }

  /** While all that a buildable Flow asks for is there, its sensor starts exactly the workflow compiled from it. */
  lemma DesiredCarriesTheWorkflow(k: Constants, w: World, flow: Flow, wf: Workflow)
    requires Readable(k) && Buildable(JobOf(k, flow)) && Desired(k, w, JobOf(k, flow))
    ensures ProcessedOf(flow).Some? && WorkflowCompiler.Compile(ProcessedOf(flow).value.steps).Compiled?
    ensures Carries(k, w, FlowName(flow.namespace, flow.name), wf) <==>
      wf == WorkflowOf(k, flow.name, ProcessedOf(flow).value)
  {
    BuildableFlows(k, flow);
    JobWantsItsSensor(k, flow);
    var p := ProcessedOf(flow).value;
    var spec := SensorSpec(k, flow.name, p);
    var want := SensorWant(flow.namespace, flow.name, spec);
    assert Holds(w.run.objects, want);
    DerivedText(spec, Now(w.run.objects, want.key).value.spec, k.workflowText(WorkflowOf(k, flow.name, p)));
  }

  // What a deploy task may rely on once it has started.
  ghost predicate Grounded(steps: seq<Step>, tasks: seq<WorkflowCompiler.Task>, board: WorkflowRuns.Board, i: nat)
    requires i < |steps| == |tasks|
  {
    var index, name := Index(steps), steps[i].name;
    && (forall n :: DockerfileSearch.Reaches(index, name, n) ==> n in board && board[n].Succeeded?)
    && "dockerfile-dir" in tasks[i].parameters
    && exists path :: DockerfileSearch.OnePublish(index, name, path)
                   && tasks[i].parameters["dockerfile-dir"] == DockerfileDir.GetDockerfileDir(path)
  }

  lemma StartedIsGrounded(steps: seq<Step>, events: seq<WorkflowRuns.Event>, i: nat)
    requires WorkflowRuns.Compiles(steps) && i < |steps| && WorkflowCompiler.Deploys(steps[i])
    requires !DockerfileSearch.SomeEmptyPath(Index(steps), steps[i].name)
    requires var run := WorkflowRuns.EngineRun(WorkflowCompiler.Compile(steps).value, events);
      run.Some? && steps[i].name in run.value && WorkflowRuns.Started(run.value[steps[i].name])
    ensures |WorkflowCompiler.Compile(steps).value| == |steps|
    ensures var tasks := WorkflowCompiler.Compile(steps).value;
      Grounded(steps, tasks, WorkflowRuns.EngineRun(tasks, events).value, i)
  {
    WorkflowRuns.DeploysOnlyWhatWasBuilt(steps, events, i);
  }

  /** No publish step of the Flow gives the empty Dockerfile path. */
  predicate PathsGiven(flow: Flow) {
    forall s <- flow.steps :: s.kind.BuildTestPublish? ==> s.dockerfilePath != Some("")
  }

  /**
   Take any Flow whose steps have distinct task names and whose publish steps do not give the empty Dockerfile path.
   While all that it asks for is in the cluster, and so after every successful reconcile and from then on, in every run
   of whatever workflow its stored sensor starts: a started deploy task has had all its transitive dependencies succeed,
   and deploys the image directory of the one publish step among them.
   */
  lemma StoredWorkflowsDeployWhatTheyBuilt(
    k: Constants, w: World, flow: Flow, wf: Workflow, events: seq<WorkflowRuns.Event>, i: nat)
    requires Readable(k) && Buildable(JobOf(k, flow)) && Desired(k, w, JobOf(k, flow)) && PathsGiven(flow)
    requires Carries(k, w, FlowName(flow.namespace, flow.name), wf)
    requires ProcessedOf(flow).Some?
    requires var steps := ProcessedOf(flow).value.steps;
      && DistinctNames(steps) && WorkflowRuns.TaskNamesOnly(steps)
      && i < |steps| && WorkflowCompiler.Deploys(steps[i])
      && var run := WorkflowRuns.EngineRun(wf.tasks, events);
         run.Some? && steps[i].name in run.value && WorkflowRuns.Started(run.value[steps[i].name])
    ensures |wf.tasks| == |ProcessedOf(flow).value.steps|
    ensures Grounded(
      ProcessedOf(flow).value.steps, wf.tasks, WorkflowRuns.EngineRun(wf.tasks, events).value, i)
  {
    var steps := ProcessedOf(flow).value.steps;
    DesiredCarriesTheWorkflow(k, w, flow, wf);
    ProcessedIsUsable(flow.deadline, flow.triggers, flow.steps, steps[i].name);
    StartedIsGrounded(steps, events, i);
  }

  /** A success stores that workflow. */
  lemma SuccessStoresTheWorkflow(k: Constants, w: World, flow: Flow)
    requires Readable(k) && SureOfJob(k, w, JobOf(k, flow)) && Reconcile(k, w, JobOf(k, flow)).outcome.Synced?
    ensures var a := Reconcile(k, w, JobOf(k, flow)).world;
      && Buildable(JobOf(k, flow)) && Desired(k, a, JobOf(k, flow))
      && ProcessedOf(flow).Some? && WorkflowCompiler.Compile(ProcessedOf(flow).value.steps).Compiled?
      && Carries(k, a, FlowName(flow.namespace, flow.name), WorkflowOf(k, flow.name, ProcessedOf(flow).value))
  {
    var job := JobOf(k, flow);
    ApplicationKeysDiffer(k, flow);
    SyncedMeansDesired(k, w, job);
    BuildableFlows(k, flow);
    DesiredCarriesTheWorkflow(
      k, Reconcile(k, w, job).world, flow, WorkflowOf(k, flow.name, ProcessedOf(flow).value));
  }
}

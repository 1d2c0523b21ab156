/** What the workflow that the stored sensor of a Flow starts says, in terms of the Flow. */
module DeployedWorkflows {
  import opened Options
  import opened Deployments
  import opened FlowDefaulter
  import opened FlowProcessor
  import opened FlowWants
  import opened ReconcilerModel
  import opened ReconcilerResults
  import opened WorkflowCompiler
  import AppBuilder
  import Steps
  import TaskParameters
  import Templates

  // The workflow compiled from a preprocessed Flow.
  predicate IsWorkflowOf(k: Constants, flow: Flow, p: Processed, wf: Workflow) {
    ProcessedOf(flow) == Some(p) && Compile(p.steps).Compiled? && wf == WorkflowOf(k, flow.name, p)
  }

  /** It is the only workflow that the stored sensor starts. */
  lemma OnlyItIsStored(k: Constants, w: World, flow: Flow, wf: Workflow) returns (p: Processed)
    requires Readable(k) && Buildable(JobOf(k, flow)) && Desired(k, w, JobOf(k, flow))
    requires Carries(k, w, FlowName(flow.namespace, flow.name), wf)
    ensures IsWorkflowOf(k, flow, p, wf)
  {
    DesiredCarriesTheWorkflow(k, w, flow, wf);
    p := ProcessedOf(flow).value;
  }

  /** It is the Flow's, runs for its triggers, and ends with its deadline. */
  lemma WorkflowIsTheFlows(k: Constants, flow: Flow, p: Processed, wf: Workflow)
    requires IsWorkflowOf(k, flow, p, wf)
    ensures wf.flowName == flow.name
    ensures wf.deadline ==
      if flow.deadline.Some? then flow.deadline.value
      else if exists t <- flow.triggers :: t.kind.Push? then 3600 else 900
    ensures |wf.triggers| == |flow.triggers| && forall i | 0 <= i < |wf.triggers| ::
      wf.triggers[i] == flow.triggers[i].kind
  {
    DeadlinesAre(flow.deadline, flow.triggers, flow.steps);
    ProcessedSaysWhatIsGiven(flow.deadline, flow.triggers, flow.steps);
  }

  /** Every step of the Flow has its task, which says what the step gives. */
  lemma TaskSaysWhatTheStepGives(k: Constants, flow: Flow, p: Processed, wf: Workflow, i: nat)
    requires IsWorkflowOf(k, flow, p, wf) && i < |flow.steps|
    ensures |wf.tasks| == |p.steps| == |flow.steps| && IsStepOf(p.steps[i], flow.steps[i])
    ensures wf.tasks[i].name == if flow.steps[i].name.Some? then flow.steps[i].name.value else flow.steps[i].source
    ensures WorkflowCompiler.Builds(p.steps[i]) ==>
      && TaskParameters.BuildsStep(wf.tasks[i], p.steps[i]) && TaskParameters.TestsOrPublishes(wf.tasks[i], p.steps[i])
      && TaskParameters.UsesBuildTemplate(wf.tasks[i], p.steps[i], i)
    ensures p.steps[i].ArgoCD? ==>
      AppBuilder.Parses(p.steps[i]) && TaskParameters.SyncsStep(wf.tasks[i], p.steps[i])
    ensures p.steps[i].GitHubCreatePr? ==> TaskParameters.RequestsStep(wf.tasks[i], p.steps[i])
  {
    ProcessedSaysWhatIsGiven(flow.deadline, flow.triggers, flow.steps);
    OneTaskEach(p.steps, |p.steps|);
    if WorkflowCompiler.Builds(p.steps[i]) {
      TaskParameters.BuildTasksSay(p.steps, wf.tasks, i);
    } else {
      TaskParameters.DeployTasksSay(p.steps, wf.tasks, i);
    }
  }

  // The name of an inline template occurs once.
  lemma NamedOnce(steps: seq<Steps.Step>, i: nat, name: string) returns (j: nat)
    requires IsInlineNameOf(steps, i, name)
    ensures j < |InlineNames(steps, |steps|)| && InlineNames(steps, |steps|)[j] == name
    ensures forall n | 0 <= n < |InlineNames(steps, |steps|)| && n != j :: InlineNames(steps, |steps|)[n] != name
  {
    InlineNamesAre(steps, |steps|);
    var names := InlineNames(steps, |steps|);
    assert name in names;
    j :| 0 <= j < |names| && names[j] == name;
    forall n | 0 <= n < |names| && n != j ensures names[n] != name {
      if n < j { InlineNamesDiffer(steps, |steps|, n, j); } else { InlineNamesDiffer(steps, |steps|, j, n); }
    }
  }

  lemma SpecialisedForItsStep(
    steps: seq<Steps.Step>, test: Templates.Contents, publish: Templates.Contents, i: nat, j: nat)
    requires Templates.NamedAsExpected(test, publish) && j < |Templates.InlineContents(steps, |steps|, test, publish)|
    requires IsInlineNameOf(steps, i, Templates.InlineContents(steps, |steps|, test, publish)[j].name)
    ensures Templates.IsSpecialised(
      Templates.InlineContents(steps, |steps|, test, publish)[j],
      if steps[i].DockerBuildTest? then test else publish, steps[i].extras)
  {
    var origin := Templates.ExtrasStayWithTheirStep(steps, |steps|, test, publish, j);
    InlineNameDecides(steps[i], i, steps[origin], origin);
  }

  lemma OwnTemplate(
    steps: seq<Steps.Step>, test: Templates.Contents, publish: Templates.Contents, i: nat, name: string)
    returns (j: nat)
    requires IsInlineNameOf(steps, i, name) && Templates.NamedAsExpected(test, publish)
    ensures var ts := Templates.InlineContents(steps, |steps|, test, publish);
      && j < |ts| && ts[j].name == name && (forall n | 0 <= n < |ts| && n != j :: ts[n].name != name)
      && Templates.IsSpecialised(ts[j], if steps[i].DockerBuildTest? then test else publish, steps[i].extras)
  {
    j := NamedOnce(steps, i, name);
    Templates.ContentsAreNamed(steps, |steps|, test, publish);
    SpecialisedForItsStep(steps, test, publish, i, j);
  }

  /** A task with a template of its own finds exactly one, and that has what the Flow's step adds, and only that. */
  lemma TemplateHasWhatTheStepAdds(k: Constants, flow: Flow, p: Processed, wf: Workflow, i: nat) returns (j: nat)
    requires IsWorkflowOf(k, flow, p, wf) && Templates.NamedAsExpected(k.test, k.publish)
    requires i < |wf.tasks| && wf.tasks[i].template.Inline?
    ensures i < |p.steps| == |flow.steps| && j < |wf.templates| && wf.templates[j].name == wf.tasks[i].template.name
    ensures forall n | 0 <= n < |wf.templates| && n != j :: wf.templates[n].name != wf.templates[j].name
    ensures var base := if flow.steps[i].kind.BuildTest? then k.test else k.publish;
      Templates.IsSpecialised(wf.templates[j], base, flow.steps[i].given.extras)
  {
    InlineTasksAreNamed(p.steps, i);
    j := OwnTemplate(p.steps, k.test, k.publish, i, wf.tasks[i].template.name);
    ProcessedSaysWhatIsGiven(flow.deadline, flow.triggers, flow.steps);
    assert IsStepOf(p.steps[i], flow.steps[i]);
  }
}

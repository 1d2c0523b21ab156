/** From the steps of a Flow to the tasks of a workflow. */
module WorkflowCompiler {
  import opened Options
  import opened Text
  import opened Steps
  import DockerfileSearch
  import opened DockerfileDir
  import opened Expressions
  import GitUrl
  import AppBuilder

  const BUILD_TEST := "docker-build-test"
  const BUILD_TEST_PUBLISH := "docker-build-test-publish"

  // A template of the shared cluster workflow template, or one inlined into this workflow.
  datatype TemplateUse = Shared(name: string) | Inline(name: string)

  datatype Task = Task(
    name: string, template: TemplateUse, parameters: map<string, string>, depends: string, when: string)

  datatype Error =
    | NoDockerfile(step: string, outcome: DockerfileSearch.Outcome)
    | BadRepoUrl(step: string, parsed: GitUrl.Parsed)

  datatype Compiled<+T> = Compiled(value: T) | Rejected(error: Error)

  predicate IsPlain(x: Extras) { |x.volumes| == 0 && |x.mounts| == 0 && |x.artifacts| == 0 }

  predicate Builds(s: Step) { s.DockerBuildTest? || s.DockerBuildTestPublish? }

  predicate Deploys(s: Step) { !Builds(s) }

  function BaseTemplate(s: Step): string
    requires Builds(s)
  {
    if s.DockerBuildTest? then BUILD_TEST else BUILD_TEST_PUBLISH
  }

  /** Only a step that adds something to its container gets a template of its own. */
  predicate NeedsInline(s: Step) { Builds(s) && !IsPlain(s.extras) }

  function InlineName(base: string, i: nat): string { base + Decimal(i) }

  function BuildTemplate(s: Step, i: nat): TemplateUse
    requires Builds(s)
  {
    if IsPlain(s.extras) then Shared(BaseTemplate(s)) else Inline(InlineName(BaseTemplate(s), i))
  }

  function BuildParameters(s: Step): map<string, string>
    requires Builds(s)
  {
    var common := map[
      "repo" := "{{inputs.parameters.repo}}",
      "revision" := "{{inputs.parameters.revision}}",
      "revision-ref" := "{{inputs.parameters.revision-ref}}",
      "dockerfile-path" := s.dockerfilePath,
      "docker-context-dir" := s.contextDir,
      "num-artifacts" := Decimal(|s.extras.artifacts|)];
    if s.DockerBuildTest? then
      common["base-revision" := "{{inputs.parameters.base-revision}}"]
            ["base-revision-ref" := "{{inputs.parameters.base-revision-ref}}"]
    else
      common["image-repo" := "{{inputs.parameters.repo-short}}"]
            ["dockerfile-dir" := GetDockerfileDir(s.dockerfilePath)]
  }

  function DeployParameters(s: Step, org: string, repo: string, dockerfileDir: string): map<string, string>
    requires Deploys(s)
  {
    if s.ArgoCD? then
      map["deploy-repo" := s.repoUrl,
          "deploy-revision" := s.baseRef,
          "resource-path" := s.repoPath,
          "image-repo" := "{{inputs.parameters.repo-short}}",
          "build-revision" := "{{inputs.parameters.revision}}",
          "dockerfile-dir" := dockerfileDir,
          "argocd-app-namespace" := org,
          "argocd-app-name" := AppBuilder.GetAppName(repo, s.repoPath)]
    else
      map["target-repo" := s.repoUrl,
          "target-repo-short-name" := org + "/" + repo,
          "target-branch" := s.baseRef,
          "file-paths" := Join(s.filePaths, " "),
          "image-repo" := "{{inputs.parameters.repo-short}}",
          "build-revision" := "{{inputs.parameters.revision}}",
          "dockerfile-dir" := dockerfileDir]
  }

  /** The task of step number `i`. */
  function CompileStep(s: Step, i: nat, index: StepIndex): Compiled<Task>
    requires s.name in index
  {
    if Builds(s) then
      Compiled(Task(s.name, BuildTemplate(s, i), BuildParameters(s), PrintDepends(s.dependsOn), ""))
    else
      var found := DockerfileSearch.SearchFrom(index, s.name);
      if !found.Found? then Rejected(NoDockerfile(s.name, found))
      else
        var parsed := GitUrl.GetRepoOrgName(s.repoUrl);
        if !parsed.Repo? then Rejected(BadRepoUrl(s.name, parsed))
        else
          Compiled(Task(s.name, Shared(if s.ArgoCD? then "deploy-step-argocd" else "deploy-step-create-pr"),
                        DeployParameters(s, parsed.org, parsed.name, GetDockerfileDir(found.path)),
                        PrintDepends(s.dependsOn), PrintWhen(Gates(index[s.name].dependsOn, index))))
  }

  /** The first `n` tasks, or the first failure among them. */
  function CompileUpTo(steps: seq<Step>, n: nat): Compiled<seq<Task>>
    requires n <= |steps|
  {
    if n == 0 then Compiled([])
    else
      var front := CompileUpTo(steps, n - 1);
      if front.Rejected? then front
      else
        IndexLookup(steps);
        var task := CompileStep(steps[n - 1], n - 1, Index(steps));
        if task.Rejected? then Rejected(task.error) else Compiled(front.value + [task.value])
  }

  function Compile(steps: seq<Step>): Compiled<seq<Task>> { CompileUpTo(steps, |steps|) }

  method BuildIndex(flowSteps: seq<Step>) returns (stepsByName: StepIndex)
    ensures stepsByName == Index(flowSteps)
  {
    stepsByName := map[];
    for i := 0 to |flowSteps|
      invariant stepsByName == Index(flowSteps[..i])
    {
      assert flowSteps[..i + 1][..i] == flowSteps[..i];
      stepsByName := stepsByName[flowSteps[i].name := flowSteps[i]];
    }
    assert flowSteps[..|flowSteps|] == flowSteps;
  }

  method CompileBuildOrDeploy(step: Step, i: nat, stepsByName: StepIndex) returns (r: Compiled<Task>)
    requires step.name in stepsByName && forall n <- stepsByName :: stepsByName[n].name == n
    ensures r == CompileStep(step, i, stepsByName)
  {
    var depends := Expressions.GetDepends(step.dependsOn);
    if step.DockerBuildTest? || step.DockerBuildTestPublish? {
      return Compiled(Task(step.name, BuildTemplate(step, i), BuildParameters(step), depends, ""));
    }
    var found := DockerfileSearch.GetDockerfilePathDependency(step.name, stepsByName);
    if !found.Found? {
      return Rejected(NoDockerfile(step.name, found));
    }
    var parsed := GitUrl.GetRepoOrgName(step.repoUrl);
    if !parsed.Repo? {
      return Rejected(BadRepoUrl(step.name, parsed));
    }
    var when := Expressions.GetWhen(stepsByName[step.name].dependsOn, stepsByName);
    var template := if step.ArgoCD? then "deploy-step-argocd" else "deploy-step-create-pr";
    return Compiled(Task(step.name, Shared(template),
                         DeployParameters(step, parsed.org, parsed.name, GetDockerfileDir(found.path)), depends, when));
  }

  /** getWorkflowTemplateDAGTasks, without the contents of inline templates. */
  method GetWorkflowTemplateDAGTasks(flowSteps: seq<Step>) returns (r: Compiled<seq<Task>>)
    ensures r == Compile(flowSteps)
  {
    var stepsByName := BuildIndex(flowSteps);
    IndexLookup(flowSteps);
    var dagTasks: seq<Task> := [];
    for i := 0 to |flowSteps|
      invariant CompileUpTo(flowSteps, i) == Compiled(dagTasks)
    {
      assert flowSteps[i] in flowSteps;
      var task := CompileBuildOrDeploy(flowSteps[i], i, stepsByName);
      CompileOneMore(flowSteps, i);
      if task.Rejected? {
        RejectedStays(flowSteps, i + 1, |flowSteps|);
        return Rejected(task.error);
      }
      dagTasks := dagTasks + [task.value];
    }
    return Compiled(dagTasks);
  }

  lemma CompileOneMore(steps: seq<Step>, n: nat)
    requires n < |steps| && CompileUpTo(steps, n).Compiled?
    ensures steps[n].name in Index(steps)
    ensures var task := CompileStep(steps[n], n, Index(steps));
      CompileUpTo(steps, n + 1) ==
        if task.Rejected? then Rejected(task.error) else Compiled(CompileUpTo(steps, n).value + [task.value])
  {
    IndexLookup(steps);
    assert steps[n] in steps;
  }

  lemma {:induction false} RejectedStays(steps: seq<Step>, m: nat, n: nat)
    requires m <= n <= |steps| && CompileUpTo(steps, m).Rejected?
    ensures CompileUpTo(steps, n) == CompileUpTo(steps, m)
    decreases n
  {
    if m < n { RejectedStays(steps, m, n - 1); }
  }

  lemma {:induction false} OneTaskEach(steps: seq<Step>, n: nat)
    requires n <= |steps| && CompileUpTo(steps, n).Compiled?
    ensures |CompileUpTo(steps, n).value| == n
  {
    if n > 0 { OneTaskEach(steps, n - 1); }
  }

  lemma {:induction false} TaskAt(steps: seq<Step>, n: nat, i: nat)
    requires i < n <= |steps| && CompileUpTo(steps, n).Compiled?
    ensures steps[i].name in Index(steps) && i < |CompileUpTo(steps, n).value|
    ensures CompileStep(steps[i], i, Index(steps)) == Compiled(CompileUpTo(steps, n).value[i])
  {
    OneTaskEach(steps, n);
    OneTaskEach(steps, n - 1);
    if i < n - 1 { TaskAt(steps, n - 1, i); } else { CompileOneMore(steps, i); }
  }

  lemma TaskOfStep(steps: seq<Step>, n: nat)
    requires n <= |steps| && CompileUpTo(steps, n).Compiled?
    ensures |CompileUpTo(steps, n).value| == n
    ensures forall s <- steps :: s.name in Index(steps)
    ensures forall i | 0 <= i < n :: CompileStep(steps[i], i, Index(steps)) == Compiled(CompileUpTo(steps, n).value[i])
  {
    IndexLookup(steps);
    OneTaskEach(steps, n);
    forall i | 0 <= i < n ensures CompileStep(steps[i], i, Index(steps)) == Compiled(CompileUpTo(steps, n).value[i]) {
      TaskAt(steps, n, i);
    }
  }

  // ------------------------------------------------------------------ template names

  /** The names of the inline templates, in step order. */
  function InlineNames(steps: seq<Step>, n: nat): seq<string>
    requires n <= |steps|
  {
    if n == 0 then []
    else
      InlineNames(steps, n - 1)
      + if NeedsInline(steps[n - 1]) then [InlineName(BaseTemplate(steps[n - 1]), n - 1)] else []
  }

  /** All templates of the generated workflow. */
  function TemplateNames(steps: seq<Step>): seq<string> { ["main"] + InlineNames(steps, |steps|) }

  predicate IsInlineNameOf(steps: seq<Step>, i: int, name: string) {
    0 <= i < |steps| && NeedsInline(steps[i]) && name == InlineName(BaseTemplate(steps[i]), i)
  }

  lemma InlineNameDecides(s: Step, i: nat, t: Step, j: nat)
    requires Builds(s) && Builds(t) && InlineName(BaseTemplate(s), i) == InlineName(BaseTemplate(t), j)
    ensures i == j && BaseTemplate(s) == BaseTemplate(t)
  {
    var a, b := InlineName(BaseTemplate(s), i), InlineName(BaseTemplate(t), j);
    DecimalIsDigits(i);
    DecimalIsDigits(j);
    var n := |BUILD_TEST|;
    assert s.DockerBuildTest? ==> a[n] == Decimal(i)[0];
    assert s.DockerBuildTestPublish? ==> a[n] == '-';
    assert t.DockerBuildTest? ==> b[n] == Decimal(j)[0];
    assert t.DockerBuildTestPublish? ==> b[n] == '-';
    assert IsDigit(Decimal(i)[0]) && IsDigit(Decimal(j)[0]);
    assert a[|BaseTemplate(s)|..] == Decimal(i) && b[|BaseTemplate(t)|..] == Decimal(j);
    DecimalIsInjective(i, j);
  }

  lemma {:induction false} InlineNamesAre(steps: seq<Step>, n: nat)
    requires n <= |steps|
    ensures forall name :: name in InlineNames(steps, n) <==> exists i :: i < n && IsInlineNameOf(steps, i, name)
  {
    if n > 0 {
      InlineNamesAre(steps, n - 1);
      forall name ensures name in InlineNames(steps, n) <==> exists i :: i < n && IsInlineNameOf(steps, i, name) {
        if i :| i < n && IsInlineNameOf(steps, i, name) {
          assert i < n - 1 ==> name in InlineNames(steps, n - 1);
        }
        if NeedsInline(steps[n - 1]) {
          assert IsInlineNameOf(steps, n - 1, InlineName(BaseTemplate(steps[n - 1]), n - 1));
        }
      }
    }
  }

  lemma {:induction false} InlineNamesDiffer(steps: seq<Step>, n: nat, j: nat, k: nat)
    requires n <= |steps| && j < k < |InlineNames(steps, n)|
    ensures InlineNames(steps, n)[j] != InlineNames(steps, n)[k]
  {
    var front := InlineNames(steps, n - 1);
    if k < |front| {
      InlineNamesDiffer(steps, n - 1, j, k);
    } else {
      InlineNamesAre(steps, n - 1);
      assert front[j] in front;
      var i :| i < n - 1 && IsInlineNameOf(steps, i, front[j]);
      if front[j] == InlineNames(steps, n)[k] { InlineNameDecides(steps[i], i, steps[n - 1], n - 1); }
    }
  }

  /** For any number of steps, all template names of the generated workflow are distinct, "main" included. */
  lemma TemplateNamesAreDistinct(steps: seq<Step>, j: nat, k: nat)
    requires j < k < |TemplateNames(steps)|
    ensures TemplateNames(steps)[j] != TemplateNames(steps)[k]
  {
    if j > 0 {
      InlineNamesDiffer(steps, |steps|, j - 1, k - 1);
    } else {
      InlineNamesAre(steps, |steps|);
      var name := InlineNames(steps, |steps|)[k - 1];
      assert name in InlineNames(steps, |steps|);
      var i :| i < |steps| && IsInlineNameOf(steps, i, name);
      assert name[0] == BaseTemplate(steps[i])[0] == 'd';
    }
  }

  lemma InlineTasksAreNamed(steps: seq<Step>, i: nat)
    requires Compile(steps).Compiled? && i < |Compile(steps).value|
    requires Compile(steps).value[i].template.Inline?
    ensures IsInlineNameOf(steps, i, Compile(steps).value[i].template.name)
  {
    TaskOfStep(steps, |steps|);
  }

  /** Every task that uses an inline template finds exactly one of its name. */
  lemma InlineTemplatesResolve(steps: seq<Step>, i: nat) returns (j: nat)
    requires Compile(steps).Compiled? && i < |Compile(steps).value|
    requires Compile(steps).value[i].template.Inline?
    ensures j < |TemplateNames(steps)| && TemplateNames(steps)[j] == Compile(steps).value[i].template.name
    ensures forall k | 0 <= k < |TemplateNames(steps)| && k != j :: TemplateNames(steps)[k] != TemplateNames(steps)[j]
  {
    InlineTasksAreNamed(steps, i);
    j := NameIsFound(steps, i, Compile(steps).value[i].template.name);
    forall k | 0 <= k < |TemplateNames(steps)| && k != j ensures TemplateNames(steps)[k] != TemplateNames(steps)[j] {
      if k < j { TemplateNamesAreDistinct(steps, k, j); } else { TemplateNamesAreDistinct(steps, j, k); }
    }
  }

  lemma NameIsFound(steps: seq<Step>, i: nat, name: string) returns (j: nat)
    requires IsInlineNameOf(steps, i, name)
    ensures j < |TemplateNames(steps)| && TemplateNames(steps)[j] == name
  {
    var names := InlineNames(steps, |steps|);
    assert name in names by { InlineNamesAre(steps, |steps|); }
    var at :| 0 <= at < |names| && names[at] == name;
    j := at + 1;
  }

  // ------------------------------------------------------------------ ArgoCD tasks and applications

  /** The application that an ArgoCD task syncs is among those built. */
  predicate TaskIsLinked(task: Task, apps: seq<AppBuilder.Application>) {
    && "argocd-app-namespace" in task.parameters && "argocd-app-name" in task.parameters
    && exists a <- apps ::
         a.namespace == task.parameters["argocd-app-namespace"] && a.name == task.parameters["argocd-app-name"]
  }

  lemma ArgoTaskSyncs(s: Step, i: nat, index: StepIndex)
    requires s.ArgoCD? && s.name in index && CompileStep(s, i, index).Compiled?
    ensures AppBuilder.Parses(s)
    ensures var p := CompileStep(s, i, index).value.parameters;
      && "argocd-app-namespace" in p && p["argocd-app-namespace"] == AppBuilder.Org(s)
      && "argocd-app-name" in p && p["argocd-app-name"] == AppBuilder.AppName(s)
  {
  }

  lemma ArgoTaskOfStep(steps: seq<Step>, i: nat, apps: seq<AppBuilder.Application>)
    requires Compile(steps).Compiled? && i < |steps| && steps[i].ArgoCD?
    ensures |Compile(steps).value| == |steps| && AppBuilder.Parses(steps[i])
    ensures TaskIsLinked(Compile(steps).value[i], apps) <==> AppBuilder.Linked(steps[i], apps)
  {
    TaskOfStep(steps, |steps|);
    assert steps[i] in steps;
    ArgoTaskSyncs(steps[i], i, Index(steps));
  }

  predicate AllLinked(tasks: seq<Task>, steps: seq<Step>, apps: seq<AppBuilder.Application>)
    requires |tasks| == |steps|
  {
    forall i | 0 <= i < |steps| && steps[i].ArgoCD? :: TaskIsLinked(tasks[i], apps)
  }

  // Tasks are linked one by one exactly when their steps are.
  lemma LinkedTasksAreLinkedSteps(tasks: seq<Task>, steps: seq<Step>, apps: seq<AppBuilder.Application>)
    requires |tasks| == |steps|
    requires forall i | 0 <= i < |steps| && steps[i].ArgoCD? ::
      AppBuilder.Parses(steps[i]) && (TaskIsLinked(tasks[i], apps) <==> AppBuilder.Linked(steps[i], apps))
    ensures AllLinked(tasks, steps, apps) <==> forall s <- steps | AppBuilder.Parses(s) :: AppBuilder.Linked(s, apps)
  {
    if AllLinked(tasks, steps, apps) {
      forall s | s in steps && AppBuilder.Parses(s) ensures AppBuilder.Linked(s, apps) {
        var i :| 0 <= i < |steps| && steps[i] == s;
        assert TaskIsLinked(tasks[i], apps);
      }
    }
  }

  /** Every ArgoCD task of a workflow syncs a built application exactly when application names decide organisations. */
  lemma ArgoTasksAreLinkedExactly(steps: seq<Step>, tasks: seq<Task>, apps: seq<AppBuilder.Application>)
    requires Compile(steps) == Compiled(tasks) && |tasks| == |steps| && AppBuilder.ApplicationsBuilt(steps, apps)
    ensures AllLinked(tasks, steps, apps) <==> AppBuilder.SameNameSameOrg(steps)
  {
    forall i | 0 <= i < |steps| && steps[i].ArgoCD?
      ensures AppBuilder.Parses(steps[i]) && (TaskIsLinked(tasks[i], apps) <==> AppBuilder.Linked(steps[i], apps))
    {
      ArgoTaskOfStep(steps, i, apps);
    }
    LinkedTasksAreLinkedSteps(tasks, steps, apps);
    AppBuilder.LinkedExactlyWhenNamesDecideOrgs(steps, apps);
  }

  // ------------------------------------------------------------------ tasks without their application

  /** One build that two deploy steps depend on. */
  predicate IsFork(build: Step, left: Step, right: Step) {
    && build.DockerBuildTestPublish? && build.dependsOn == [] && build.dockerfilePath != ""
    && left.ArgoCD? && right.ArgoCD? && left.dependsOn == right.dependsOn == [build.name]
    && build.name != left.name && build.name != right.name && left.name != right.name
  }

  lemma ForkFinds(build: Step, left: Step, right: Step, deploy: Step)
    requires IsFork(build, left, right) && deploy in [left, right]
    ensures var index := map[build.name := build, left.name := left, right.name := right];
      DockerfileSearch.SearchFrom(index, deploy.name) == DockerfileSearch.Found(build.dockerfilePath)
  {
    var index := map[build.name := build, left.name := left, right.name := right];
    assert [build.name][1..] + build.dependsOn == [];
    assert DockerfileSearch.Search(index, [], {} + {build.name}, build.dockerfilePath)
        == DockerfileSearch.Found(build.dockerfilePath);
  }

  lemma ForkIndex(build: Step, left: Step, right: Step)
    ensures Index([build, left, right]) == map[build.name := build][left.name := left][right.name := right]
  {
    assert [build, left, right][..2] == [build, left] && [build, left][..1] == [build] && [build][..0] == [];
    assert Index([build]) == map[build.name := build];
    assert Index([build, left]) == map[build.name := build][left.name := left];
  }

  lemma ForkCompiles(build: Step, left: Step, right: Step)
    requires IsFork(build, left, right) && AppBuilder.Parses(left) && AppBuilder.Parses(right)
    ensures Compile([build, left, right]).Compiled? && |Compile([build, left, right]).value| == 3
  {
    var steps, index := [build, left, right], map[build.name := build, left.name := left, right.name := right];
    ForkIndex(build, left, right);
    assert Index(steps) == index;
    assert CompileUpTo(steps, 0) == Compiled([]);
    CompileOneMore(steps, 0);
    assert CompileStep(build, 0, index).Compiled?;
    ForkFinds(build, left, right, left);
    assert CompileStep(left, 1, index).Compiled?;
    CompileOneMore(steps, 1);
    ForkFinds(build, left, right, right);
    assert CompileStep(right, 2, index).Compiled?;
    CompileOneMore(steps, 2);
    OneTaskEach(steps, 3);
  }

  lemma SomeTaskIsUnlinked(steps: seq<Step>, left: Step, right: Step)
    requires Compile(steps).Compiled? && |Compile(steps).value| == |steps|
    requires left in steps && right in steps && AppBuilder.Parses(left) && AppBuilder.Parses(right)
    requires AppBuilder.AppName(left) == AppBuilder.AppName(right) && AppBuilder.Org(left) != AppBuilder.Org(right)
    ensures !AllLinked(Compile(steps).value, steps, AppBuilder.BuiltApplications(steps))
  {
    AppBuilder.BuiltAsItShould(steps);
    ArgoTasksAreLinkedExactly(steps, Compile(steps).value, AppBuilder.BuiltApplications(steps));
  }

  /**
   Steps that compile, all of whose repositories parse, and that still have an ArgoCD task without its application: for
   any two organisations, repositories of one name deployed from one path.
   */
  lemma TasksCanMissTheirApplication(org: string, other: string, name: string, path: string)
    returns (steps: seq<Step>)
    requires '/' !in org && '/' !in other && '/' !in name && org != other
    ensures Compile(steps).Compiled? && |Compile(steps).value| == |steps| && AppBuilder.AllParse(steps)
    ensures !AllLinked(Compile(steps).value, steps, AppBuilder.BuiltApplications(steps))
  {
    var left := GitUrl.GIT_PREFIX + org + "/" + name + ".git";
    var right := GitUrl.GIT_PREFIX + other + "/" + name + ".git";
    GitUrl.ParseInvertsPrint(org, name);
    GitUrl.ParseInvertsPrint(other, name);
    steps := ForkOf(left, right, path);
    ForkOfUrls(steps, left, right, org, other, name);
    ForkCompiles(steps[0], steps[1], steps[2]);
    assert steps == [steps[0], steps[1], steps[2]];
    SomeTaskIsUnlinked(steps, steps[1], steps[2]);
  }

  lemma ForkOfUrls(steps: seq<Step>, left: string, right: string, org: string, other: string, name: string)
    requires |steps| == 3 && IsFork(steps[0], steps[1], steps[2])
    requires steps[1].repoUrl == left && steps[2].repoUrl == right && steps[1].repoPath == steps[2].repoPath
    requires GitUrl.GetRepoOrgName(left) == GitUrl.Repo(org, name)
    requires GitUrl.GetRepoOrgName(right) == GitUrl.Repo(other, name)
    ensures AppBuilder.Parses(steps[1]) && AppBuilder.Parses(steps[2])
    ensures AppBuilder.Org(steps[1]) == org && AppBuilder.Org(steps[2]) == other
    ensures AppBuilder.AppName(steps[1]) == AppBuilder.AppName(steps[2])
  {
  }

  function ForkOf(left: string, right: string, path: string): (steps: seq<Step>)
    ensures |steps| == 3 && IsFork(steps[0], steps[1], steps[2])
    ensures steps[1].repoUrl == left && steps[2].repoUrl == right && steps[1].repoPath == steps[2].repoPath == path
  {
    [DockerBuildTestPublish("build", [], "Dockerfile", ".", Extras([], [], [])),
     ArgoCD("left", ["build"], left, path, "main", None),
     ArgoCD("right", ["build"], right, path, "main", None)]
  }
}

/** What the tasks of a compiled workflow say: which template each one uses, and with which parameters. */
module TaskParameters {
  import opened Text
  import opened Steps
  import opened WorkflowCompiler
  import AppBuilder
  import Applications
  import DockerfileDir
  import DockerfileSearch
  import GitUrl

  predicate Says(t: Task, parameter: string, value: string) {
    parameter in t.parameters && t.parameters[parameter] == value
  }

  /** A build task builds the step's Dockerfile in the step's context, of the revision that the workflow is for. */
  predicate BuildsStep(t: Task, s: Step)
    requires Builds(s)
  {
    && t.name == s.name
    && Says(t, "dockerfile-path", s.dockerfilePath) && Says(t, "docker-context-dir", s.contextDir)
    && Says(t, "num-artifacts", Decimal(|s.extras.artifacts|))
    && Says(t, "repo", "{{inputs.parameters.repo}}") && Says(t, "revision", "{{inputs.parameters.revision}}")
    && Says(t, "revision-ref", "{{inputs.parameters.revision-ref}}")
  }

  /** A test is compared with the base; what is published is named after repository and Dockerfile. */
  predicate TestsOrPublishes(t: Task, s: Step)
    requires Builds(s)
  {
    if s.DockerBuildTest? then
      && Says(t, "base-revision", "{{inputs.parameters.base-revision}}")
      && Says(t, "base-revision-ref", "{{inputs.parameters.base-revision-ref}}")
    else
      && Says(t, "image-repo", "{{inputs.parameters.repo-short}}")
      && Says(t, "dockerfile-dir", DockerfileDir.GetDockerfileDir(s.dockerfilePath))
  }

  /** The shared template of its kind, or a template of its own when the step adds something to the container. */
  predicate UsesBuildTemplate(t: Task, s: Step, i: nat)
    requires Builds(s)
  {
    var base := if s.DockerBuildTest? then "docker-build-test" else "docker-build-test-publish";
    t.template ==
      if |s.extras.volumes| == 0 && |s.extras.mounts| == 0 && |s.extras.artifacts| == 0 then Shared(base)
      else Inline(base + Decimal(i))
  }

  lemma BuildTaskSays(s: Step, i: nat, index: StepIndex)
    requires Builds(s) && s.name in index
    ensures CompileStep(s, i, index).Compiled? && BuildsStep(CompileStep(s, i, index).value, s)
  {
  }

  lemma BuildTaskIsOfItsKind(s: Step, i: nat, index: StepIndex)
    requires Builds(s) && s.name in index
    ensures CompileStep(s, i, index).Compiled?
    ensures TestsOrPublishes(CompileStep(s, i, index).value, s)
  {
    if s.DockerBuildTest? { TestTaskSays(s, i, index); } else { PublishTaskSays(s, i, index); }
  }

  lemma TestTaskSays(s: Step, i: nat, index: StepIndex)
    requires s.DockerBuildTest? && s.name in index
    ensures CompileStep(s, i, index).Compiled? && TestsOrPublishes(CompileStep(s, i, index).value, s)
  {
  }

  lemma PublishTaskSays(s: Step, i: nat, index: StepIndex)
    requires s.DockerBuildTestPublish? && s.name in index
    ensures CompileStep(s, i, index).Compiled? && TestsOrPublishes(CompileStep(s, i, index).value, s)
  {
  }

  lemma BuildTaskTemplate(s: Step, i: nat, index: StepIndex)
    requires Builds(s) && s.name in index
    ensures CompileStep(s, i, index).Compiled? && UsesBuildTemplate(CompileStep(s, i, index).value, s, i)
  {
  }

  /** Every build step's task builds what the step says, with a template of the step's kind. */
  lemma BuildTasksSay(steps: seq<Step>, tasks: seq<Task>, i: nat)
    requires Compile(steps) == Compiled(tasks) && i < |steps| && Builds(steps[i])
    ensures |tasks| == |steps| && BuildsStep(tasks[i], steps[i]) && TestsOrPublishes(tasks[i], steps[i])
    ensures UsesBuildTemplate(tasks[i], steps[i], i)
  {
    OneTaskEach(steps, |steps|);
    TaskAt(steps, |steps|, i);
    BuildTaskSays(steps[i], i, Index(steps));
    BuildTaskIsOfItsKind(steps[i], i, Index(steps));
    BuildTaskTemplate(steps[i], i, Index(steps));
  }

  // ------------------------------------------------------------------ deploying

  /** An ArgoCD task edits the step's path of the step's branch and syncs the step's application. */
  predicate SyncsStep(t: Task, s: Step)
    requires AppBuilder.Parses(s)
  {
    && t.name == s.name && t.template == Shared("deploy-step-argocd")
    && Says(t, "deploy-repo", s.repoUrl) && Says(t, "deploy-revision", s.baseRef)
    && Says(t, "resource-path", s.repoPath)
    && Says(t, "argocd-app-namespace", AppBuilder.Org(s)) && Says(t, "argocd-app-name", AppBuilder.AppName(s))
  }

  /** A create-PR task edits the step's files on the step's branch. */
  predicate RequestsStep(t: Task, s: Step)
    requires s.GitHubCreatePr?
  {
    && t.name == s.name && t.template == Shared("deploy-step-create-pr")
    && Says(t, "target-repo", s.repoUrl) && Says(t, "target-branch", s.baseRef)
    && Says(t, "file-paths", Join(s.filePaths, " "))
  }

  predicate NamesRepository(t: Task, s: Step)
    requires s.GitHubCreatePr?
  {
    var parsed := GitUrl.GetRepoOrgName(s.repoUrl);
    parsed.Repo? && Says(t, "target-repo-short-name", parsed.org + "/" + parsed.name)
  }

  /** Both deploy the image that the workflow's revision is built into. */
  predicate DeploysTheBuild(t: Task) {
    && Says(t, "image-repo", "{{inputs.parameters.repo-short}}")
    && Says(t, "build-revision", "{{inputs.parameters.revision}}")
  }

  lemma ArgoTaskSays(s: Step, i: nat, index: StepIndex)
    requires s.ArgoCD? && s.name in index && CompileStep(s, i, index).Compiled?
    ensures AppBuilder.Parses(s) && SyncsStep(CompileStep(s, i, index).value, s)
    ensures DeploysTheBuild(CompileStep(s, i, index).value)
  {
  }

  lemma PrTaskSays(s: Step, i: nat, index: StepIndex)
    requires s.GitHubCreatePr? && s.name in index && CompileStep(s, i, index).Compiled?
    ensures RequestsStep(CompileStep(s, i, index).value, s)
  {
    var task, parsed := CompileStep(s, i, index).value, GitUrl.GetRepoOrgName(s.repoUrl);
    var found := DockerfileSearch.SearchFrom(index, s.name);
    PrParameters(s, parsed.org, parsed.name, DockerfileDir.GetDockerfileDir(found.path));
  }

  lemma PrParameters(s: Step, org: string, repo: string, dockerfileDir: string)
    requires s.GitHubCreatePr?
    ensures var p := DeployParameters(s, org, repo, dockerfileDir);
      && "target-repo" in p && p["target-repo"] == s.repoUrl
      && "target-branch" in p && p["target-branch"] == s.baseRef
      && "file-paths" in p && p["file-paths"] == Join(s.filePaths, " ")
  {
    PrTarget(s, org, repo, dockerfileDir);
    PrBranch(s, org, repo, dockerfileDir);
    PrFiles(s, org, repo, dockerfileDir);
  }

  lemma PrTarget(s: Step, org: string, repo: string, dockerfileDir: string)
    requires s.GitHubCreatePr?
    ensures var p := DeployParameters(s, org, repo, dockerfileDir);
      "target-repo" in p && p["target-repo"] == s.repoUrl
  {
  }

  lemma PrBranch(s: Step, org: string, repo: string, dockerfileDir: string)
    requires s.GitHubCreatePr?
    ensures var p := DeployParameters(s, org, repo, dockerfileDir);
      "target-branch" in p && p["target-branch"] == s.baseRef
  {
  }

  lemma PrFiles(s: Step, org: string, repo: string, dockerfileDir: string)
    requires s.GitHubCreatePr?
    ensures var p := DeployParameters(s, org, repo, dockerfileDir);
      "file-paths" in p && p["file-paths"] == Join(s.filePaths, " ")
  {
  }

  lemma PrTaskSaysMore(s: Step, i: nat, index: StepIndex)
    requires s.GitHubCreatePr? && s.name in index && CompileStep(s, i, index).Compiled?
    ensures NamesRepository(CompileStep(s, i, index).value, s) && DeploysTheBuild(CompileStep(s, i, index).value)
  {
  }

  /** Every deploy step's task deploys what and where the step says, with the template of the step's kind. */
  lemma DeployTasksSay(steps: seq<Step>, tasks: seq<Task>, i: nat)
    requires Compile(steps) == Compiled(tasks) && i < |steps| && Deploys(steps[i])
    ensures |tasks| == |steps| && DeploysTheBuild(tasks[i])
    ensures steps[i].ArgoCD? ==> AppBuilder.Parses(steps[i]) && SyncsStep(tasks[i], steps[i])
    ensures steps[i].GitHubCreatePr? ==> RequestsStep(tasks[i], steps[i]) && NamesRepository(tasks[i], steps[i])
  {
    OneTaskEach(steps, |steps|);
    TaskAt(steps, |steps|, i);
    if steps[i].ArgoCD? {
      ArgoTaskSays(steps[i], i, Index(steps));
    } else {
      PrTaskSays(steps[i], i, Index(steps));
      PrTaskSaysMore(steps[i], i, Index(steps));
    }
  }

  lemma {:induction false} SplitsAtBlanks(parts: seq<string>)
    requires parts != [] && forall p <- parts :: ' ' !in p
    ensures Split(Join(parts, " "), " ") == parts
    decreases |parts|
  {
    if |parts| == 1 {
      SplitNothing(parts[0], " ", 0);
    } else {
      var first, rest := parts[0], Join(parts[1..], " ");
      assert parts[0] in parts && forall p <- parts[1..] :: p in parts;
      SplitsAtBlanks(parts[1..]);
      forall j | 0 <= j < |first| ensures !StartsWith((first + " " + rest)[j..], " ") {
        assert (first + " " + rest)[j..][0] == first[j] != ' ';
      }
      SplitOffFirst(first, " ", rest);
    }
  }

  /** The files of a create-PR step can be read back from its task, unless one of them has a blank in its path. */
  lemma FilesAreReadBack(steps: seq<Step>, tasks: seq<Task>, i: nat)
    requires Compile(steps) == Compiled(tasks) && i < |steps| && steps[i].GitHubCreatePr?
    requires steps[i].filePaths != [] && forall p <- steps[i].filePaths :: ' ' !in p
    ensures |tasks| == |steps| && "file-paths" in tasks[i].parameters
    ensures Split(tasks[i].parameters["file-paths"], " ") == steps[i].filePaths
  {
    DeployTasksSay(steps, tasks, i);
    SplitsAtBlanks(steps[i].filePaths);
  }

  // ------------------------------------------------------------------ the application that a task names

  predicate Names(t: Task, a: AppBuilder.Application) {
    Says(t, "argocd-app-namespace", a.namespace) && Says(t, "argocd-app-name", a.name)
  }

  /** The application watches the very files that the task edits. */
  predicate WatchesItsEdits(t: Task, a: AppBuilder.Application) {
    Says(t, "deploy-repo", a.repoUrl) && Says(t, "resource-path", a.path)
  }

  /**
   The application that an ArgoCD task names watches the files that the task edits exactly when the first step of its
   name edits the same files.
   */
  lemma NamedApplicationsWatchExactly(
    steps: seq<Step>, tasks: seq<Task>, i: nat, first: nat, a: AppBuilder.Application)
    requires Compile(steps) == Compiled(tasks) && |tasks| == |steps| && i < |steps| && steps[i].ArgoCD?
    requires a in AppBuilder.BuiltApplications(steps) && Names(tasks[i], a)
    requires AppBuilder.FirstOfName(steps, first) && AppBuilder.Parses(steps[i])
    requires AppBuilder.AppName(steps[first]) == AppBuilder.AppName(steps[i])
    ensures WatchesItsEdits(tasks[i], a) <==>
      steps[i].repoUrl == steps[first].repoUrl && steps[i].repoPath == steps[first].repoPath
  {
    ArgoTaskSyncsItsStep(steps, tasks, i);
    NamedByItsName(tasks[i], steps[i], a);
    ItIsTheFirsts(steps, first, a);
    WatchesExactly(tasks[i], steps[i], steps[first], a);
  }

  lemma ArgoTaskSyncsItsStep(steps: seq<Step>, tasks: seq<Task>, i: nat)
    requires Compile(steps) == Compiled(tasks) && i < |steps| && steps[i].ArgoCD?
    ensures |tasks| == |steps| && AppBuilder.Parses(steps[i]) && SyncsStep(tasks[i], steps[i])
  {
    DeployTasksSay(steps, tasks, i);
  }

  lemma ItIsTheFirsts(steps: seq<Step>, first: nat, a: AppBuilder.Application)
    requires a in AppBuilder.BuiltApplications(steps)
    requires AppBuilder.FirstOfName(steps, first) && AppBuilder.AppName(steps[first]) == a.name
    ensures Applications.Deploys(a, steps[first])
  {
    var j := Applications.ApplicationsSay(steps, a);
    Applications.FirstIsUnique(steps, first, j);
  }

  lemma NamedByItsName(t: Task, s: Step, a: AppBuilder.Application)
    requires AppBuilder.Parses(s) && SyncsStep(t, s) && Names(t, a)
    ensures a.name == AppBuilder.AppName(s)
  {
  }

  lemma WatchesExactly(t: Task, s: Step, first: Step, a: AppBuilder.Application)
    requires AppBuilder.Parses(s) && SyncsStep(t, s) && Applications.Deploys(a, first)
    ensures WatchesItsEdits(t, a) <==> s.repoUrl == first.repoUrl && s.repoPath == first.repoPath
  {
  }
}

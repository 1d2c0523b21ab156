/** What is in the cluster and on GitHub while all that a Flow asks for is there, object by object. */
module DeployedObjects {
  import opened Options
  import opened Cluster
  import opened FlowProcessor
  import opened FlowWants
  import opened ReconcilerModel
  import opened ReconcilerResults
  import opened WorkflowCompiler
  import AppBuilder
  import Applications
  import EventSourceMerge
  import GitHubServer
  import GitHubSettings
  import GitUrl

  /** An object of this key exists, and has every field that is set in `spec`. */
  predicate Stands(w: World, key: Key, spec: Fields) {
    var o := Now(w.run.objects, key);
    o.Some? && forall f <- spec :: spec[f] != "" ==> f in o.value.spec && o.value.spec[f] == spec[f]
  }

  lemma WantStands(k: Constants, w: World, job: Job, v: Want)
    requires Desired(k, w, job) && v in Wants(k, job) && !v.key.kind.ServiceAccount?
    ensures Stands(w, v.key, v.form.spec)
    ensures v.key.kind.RoleBinding? ==> Now(w.run.objects, v.key).value.roleRef == v.form.roleRef
  {
    assert Holds(w.run.objects, v);
  }

  /** The Flow's namespace has an event bus, a cache volume, and an account bound to a role. */
  lemma NamespaceIsSetUp(k: Constants, w: World, job: Job)
    requires Desired(k, w, job)
    ensures Stands(w, Key(EventBus, job.namespace, k.eventBus.name), k.eventBus.form.spec)
    ensures Stands(w, Key(VolumeClaim, job.namespace, k.claim.name), k.claim.form.spec)
    ensures Now(w.run.objects, Key(Kind.ServiceAccount, job.namespace, k.account.name)).Some?
    ensures Stands(w, Key(Role, job.namespace, k.role.name), k.role.form.spec)
    ensures var binding := Key(RoleBinding, job.namespace, k.binding.name);
      && Stands(w, binding, k.binding.form.spec)
      && Now(w.run.objects, binding).value.roleRef == k.binding.form.roleRef
  {
    WantsInclude(k, job);
    var wants := NamespaceWants(k, job.namespace);
    assert wants[0] in wants && wants[1] in wants && wants[2] in wants && wants[3] in wants && wants[4] in wants;
    assert Holds(w.run.objects, wants[2]);
    WantStands(k, w, job, wants[0]);
    WantStands(k, w, job, wants[1]);
    WantStands(k, w, job, wants[3]);
    WantStands(k, w, job, wants[4]);
  }

  predicate IsProcessed(flow: Flow, p: Processed) { ProcessedOf(flow) == Some(p) }

  /** Every organisation that the Flow deploys for has its project. */
  lemma ProjectStands(k: Constants, w: World, flow: Flow, p: Processed, project: AppBuilder.Project)
    requires Desired(k, w, JobOf(k, flow)) && IsProcessed(flow, p) && project in AppBuilder.BuiltProjects(p.steps)
    ensures Stands(w, Key(Kind.Project, "argocd", project.name), k.projectSpec(project))
  {
    var projects := AppBuilder.BuiltProjects(p.steps);
    var n :| 0 <= n < |projects| && projects[n] == project;
    assert Names(projects)[n] in Names(projects);
    var i := Applications.ProjectsSay(p.steps, project);
    assert project == AppBuilder.ProjectFor(project.name) by { AppBuilder.BuiltAsItShould(p.steps); }
    WantsInclude(k, JobOf(k, flow));
    WantStands(k, w, JobOf(k, flow), OrgWant(k, project.name));
  }

  lemma ApplicationStands(k: Constants, w: World, flow: Flow, p: Processed, a: AppBuilder.Application)
    requires Desired(k, w, JobOf(k, flow)) && IsProcessed(flow, p) && a in AppBuilder.BuiltApplications(p.steps)
    ensures Stands(w, Key(Kind.Application, a.namespace, a.name), k.applicationSpec(a))
  {
    var apps := AppBuilder.BuiltApplications(p.steps);
    var n :| 0 <= n < |apps| && apps[n] == a;
    assert ApplicationWants(k, apps)[n] in ApplicationWants(k, apps);
    WantsInclude(k, JobOf(k, flow));
    WantStands(k, w, JobOf(k, flow), ApplicationWant(k, a));
  }

  /**
   Every ArgoCD step of a Flow whose application names decide what is deployed has its application in the Flow's
   namespace, deploying the repository and the path of the step.
   */
  lemma EveryDeployStepHasItsApplication(k: Constants, w: World, flow: Flow, p: Processed, i: nat)
    returns (a: AppBuilder.Application)
    requires Buildable(JobOf(k, flow)) && Desired(k, w, JobOf(k, flow)) && IsProcessed(flow, p)
    requires Applications.NamesDecideDeployments(p.steps) && i < |p.steps| && p.steps[i].ArgoCD?
    ensures a.repoUrl == p.steps[i].repoUrl && a.path == p.steps[i].repoPath
    ensures AppBuilder.Parses(p.steps[i]) && a.name == AppBuilder.AppName(p.steps[i])
    ensures Stands(w, Key(Kind.Application, flow.namespace, a.name), k.applicationSpec(a))
  {
    BuildableFlows(k, flow);
    assert p.steps[i] in p.steps && AppBuilder.Parses(p.steps[i]);
    Applications.AllHaveTheirOwnExactly(p.steps);
    a :| a in AppBuilder.BuiltApplications(p.steps) && Applications.Deploys(a, p.steps[i]);
    var first := Applications.ApplicationsSay(p.steps, a);
    ApplicationStands(k, w, flow, p, a);
    Applications.DeployedHasItsName(p.steps, a, p.steps[i]);
  }

  /** The Flow has its sensor, built for its triggers; what the sensor starts is in `Deployments`. */
  lemma SensorStands(k: Constants, w: World, flow: Flow, p: Processed)
    requires Buildable(JobOf(k, flow)) && Desired(k, w, JobOf(k, flow)) && IsProcessed(flow, p)
    ensures Stands(w, Key(Kind.Sensor, flow.namespace, flow.name), k.sensorRest(p.triggers) - {WORKFLOW})
  {
    BuildableFlows(k, flow);
    WantsInclude(k, JobOf(k, flow));
    WantStands(k, w, JobOf(k, flow), SensorWant(flow.namespace, flow.name, SensorSpec(k, flow.name, p)));
    SensorSpecCovers(k, flow.name, p);
  }

  lemma SensorSpecCovers(k: Constants, name: string, p: Processed)
    requires Compile(p.steps).Compiled?
    ensures forall f <- k.sensorRest(p.triggers) - {WORKFLOW} ::
      f in SensorSpec(k, name, p) && SensorSpec(k, name, p)[f] == k.sensorRest(p.triggers)[f]
  {
  }

  /** The repository that the Flow is triggered by is listed in the EventSource, under the webhook. */
  lemma RepositoryIsListed(k: Constants, w: World, flow: Flow, p: Processed) returns (org: string, name: string)
    requires Desired(k, w, JobOf(k, flow)) && IsProcessed(flow, p) && flow.triggers != []
    ensures GitUrl.GetRepoOrgName(flow.triggers[0].repoUrl) == GitUrl.Repo(org, name)
    ensures w.source != []
    ensures var github := w.source[|w.source| - 1].github;
      && github.Some? && "ghwebhook" in github.value
      && EventSourceMerge.Owns(github.value["ghwebhook"].repositories, org, name)
  {
    ProcessedSaysWhatIsGiven(flow.deadline, flow.triggers, flow.steps);
    var job := JobOf(k, flow);
    org, name := job.repo.org, job.repo.name;
    var source := Latest(w.source).value;
    EventSourceMerge.FoundIsListed(EventSourceMerge.SectionOf(source).repositories, org, name);
  }

  // The merge settings of a repository in the hands of the sync.
  predicate SquashesOnly(s: GitHubSettings.Settings) {
    && s.squashMerge == Some(true) && s.mergeCommit == Some(false) && s.rebaseMerge == Some(false)
    && s.autoMerge == Some(true) && s.updateBranch == Some(true) && s.deleteBranchOnMerge == Some(true)
  }

  // Its default ruleset: the default branch takes squashed pull requests that passed the Flow, and nothing else.
  predicate ProtectsTheBranch(r: GitHubSettings.Ruleset) {
    && r.name == "default" && r.target == Some("branch") && r.sourceType == Some("Repository")
    && r.enforcement == "active"
    && r.conditions.Some? && r.conditions.value.refName.Some?
    && r.conditions.value.refName.value.included == ["~DEFAULT_BRANCH"]
    && r.conditions.value.refName.value.excluded == Some([])
    && r.rules.Some? && r.rules.value.linearHistory && r.rules.value.deletion && r.rules.value.nonFastForward
    && r.rules.value.pullRequest.Some? && TakesPullRequests(r.rules.value.pullRequest.value)
    && r.rules.value.statusChecks.Some? && ChecksTheFlow(r.rules.value.statusChecks.value)
  }

  predicate TakesPullRequests(p: GitHubSettings.PullRequest) {
    && p.mergeMethods == ["squash"] && p.dismissStale && p.threads && p.approvals == 0 && !p.codeOwner && !p.lastPush
  }

  predicate ChecksTheFlow(c: GitHubSettings.StatusChecks) {
    && c.checks == [GitHubSettings.Check("Jettison PR Flow", Some(1682308))]
    && c.strict && c.doNotEnforceOnCreate == Some(false)
  }

  lemma ConformingIsProtected(r: GitHubSettings.Repository) returns (i: nat)
    requires GitHubSettings.Conforms(r)
    ensures SquashesOnly(r.settings) && i < |r.rulesets| && ProtectsTheBranch(r.rulesets[i].1)
    ensures forall j | 0 <= j < i :: r.rulesets[j].1.name != "default"
  {
    i := GitHubSettings.FirstDefault(r.rulesets);
  }

  /** The repository that the Flow is triggered by takes squashed, checked pull requests only. */
  lemma RepositoryIsProtected(k: Constants, w: World, flow: Flow, p: Processed)
    returns (r: GitHubSettings.Repository, i: nat)
    requires Desired(k, w, JobOf(k, flow)) && IsProcessed(flow, p) && flow.triggers != []
    ensures var parsed := GitUrl.GetRepoOrgName(flow.triggers[0].repoUrl);
      && parsed.Repo? && GitHubServer.RepoName(parsed.org, parsed.name) in w.repos
      && r == w.repos[GitHubServer.RepoName(parsed.org, parsed.name)]
    ensures SquashesOnly(r.settings) && i < |r.rulesets| && ProtectsTheBranch(r.rulesets[i].1)
    ensures forall j | 0 <= j < i :: r.rulesets[j].1.name != "default"
  {
    ProcessedSaysWhatIsGiven(flow.deadline, flow.triggers, flow.steps);
    var job := JobOf(k, flow);
    r := w.repos[GitHubServer.RepoName(job.repo.org, job.repo.name)];
    i := ConformingIsProtected(r);
  }
}

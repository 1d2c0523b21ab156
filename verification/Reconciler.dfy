/** FlowReconciler.Reconcile: one long read, compare and write sequence with three caches. */
module Reconciler {
  import opened Options
  import opened Faults
  import opened Cluster
  import opened FlowWants
  import opened EventSourceMerge
  import opened FlowDefaulter
  import opened FlowProcessor
  import AppBuilder
  import G = GitHubServer
  import M = ReconcilerModel
  import R = ReconcilerRuns
  import Rejects = ReconcilerRejects
  import Results = ReconcilerResults
  import S = GitHubSync
  import WorkflowCompiler

  method PreProcess(flow: Flow) returns (r: Option<Processed>)
    ensures r == ProcessedOf(flow)
  {
    if !flow.decodes {
      return None;
    }
    r := PreProcessFlow(flow.deadline, flow.triggers, flow.steps);
  }

  /** The check of getInitialDAGTasks; all triggers are of one kind. */
  method CheckTriggers(triggers: seq<Trigger>) returns (r: bool)
    ensures r <==> OneKind(triggers)
  {
    for i := 0 to |triggers|
      invariant forall j :: 0 <= j < i ==> triggers[j].kind == triggers[0].kind
    {
      if triggers[i].kind != triggers[0].kind {
        assert triggers[i] in triggers && triggers[0] in triggers;
        return false;
      }
    }
    r := true;
  }

  /** BuildSensor. */
  method BuildSensor(k: Constants, name: string, p: Processed) returns (r: SensorBuild, spec: Fields)
    ensures r == SensorOf(p)
    ensures r.Builds? ==> spec == SensorSpec(k, name, p)
  {
    spec := map[];
    var oneKind := CheckTriggers(p.triggers);
    if !oneKind {
      return Errs, spec;
    }
    var compiled := WorkflowCompiler.GetWorkflowTemplateDAGTasks(p.steps);
    if compiled.Compiled? {
      spec := k.sensorRest(p.triggers)[WORKFLOW := k.workflowText(WorkflowOf(k, name, p))];
      return Builds, spec;
    }
    r := if compiled.error.NoDockerfile? && compiled.error.outcome.NilDereference? then Crashes else Errs;
  }

  predicate OneForEachOrg(projects: seq<AppBuilder.Project>) {
    forall p <- projects :: p == AppBuilder.ProjectFor(p.name)
  }

  lemma SyncListStep(run: Run, w: Want, rest: seq<Want>)
    ensures var first := SyncOne(run, w);
      SyncList(run, [w] + rest) == if first.ok then SyncList(first.state, rest) else first
  {
    assert ([w] + rest)[1..] == rest;
  }

  /**
   What the controller sees of the outside, in its fields `run` to `held`, and its own state. Every method has
   the effect that the model's function gives it, on all of them.
   */
  class FlowReconciler {
    const k: Constants
    const shared: S.Shared

    var run: Run
    var source: seq<Source>
    var repos: G.Repositories
    var githubWrites: nat
    var conditions: map<M.FlowName, seq<M.Condition>>
    var held: nat    // the version of the Flow that is being reconciled

    // Multiple Flows can share a namespace, a project and a repository.
    var syncedNamespaces: set<string>
    var syncedProjects: set<string>
    var syncedRepos: map<string, set<string>>

    constructor (k: Constants, shared: S.Shared, outside: M.World)
      ensures this.k == k && this.shared == shared && View() == outside.(caches := M.NO_CACHES)
    {
      this.k, this.shared := k, shared;
      run, source, repos := outside.run, outside.source, outside.repos;
      githubWrites, conditions, held := outside.githubWrites, outside.conditions, outside.held;
      syncedNamespaces, syncedProjects, syncedRepos := {}, {}, map[];
    }

    function View(): M.World
      reads this
    {
      M.World(run, source, repos, githubWrites, conditions, held,
              M.Caches(syncedNamespaces, syncedProjects, syncedRepos))
    }

    // ---------------------------------------------------------------- one object

    method Fetch(key: Key) returns (got: Got)
      modifies `run
      ensures (run, got) == Get(old(run), key)
    {
      var (fetched, g) := Get(run, key);
      run, got := fetched, g;
    }

    /** One object, just fetched; `drift` says whether a write was sent. */
    method Correct(w: Want, got: Got) returns (ok: bool, drift: bool)
      requires got.Read?
      modifies `run
      ensures Done(run, ok) == Apply(old(run), w, got)
      ensures run.writes >= old(run.writes) && (drift <==> run.writes > old(run.writes))
    {
      var called;
      if got.object_.None? {
        called := Create(run, w.key, w.form);
      } else if w.key.kind.RoleBinding? && got.object_.value.roleRef != w.form.roleRef {
        called := Delete(run, w.key);
        if called.ok {
          called := Create(called.state, w.key, w.form);
        }
      } else if !w.key.kind.ServiceAccount? && !Derives(w.form.spec, got.object_.value.spec) {
        called := Update(run, w.key, got.version, got.object_.value.(spec := w.form.spec));
      } else {
        return true, false;
      }
      run := called.state;
      return called.ok, true;
    }

    method Sync(w: Want) returns (ok: bool, drift: bool)
      modifies `run
      ensures Done(run, ok) == SyncOne(old(run), w)
      ensures run.writes >= old(run.writes) && (drift <==> run.writes > old(run.writes))
    {
      var got := Fetch(w.key);
      if got.Error? {
        return false, false;
      }
      ok, drift := Correct(w, got);
    }

    // ---------------------------------------------------------------- namespace, projects, applications

    method SyncFive(a: Want, b: Want, c: Want, d: Want, e: Want) returns (ok: bool, drift: bool)
      modifies `run
      ensures Done(run, ok) == SyncList(old(run), [a, b, c, d, e])
      ensures run.writes >= old(run.writes) && (drift <==> run.writes > old(run.writes))
    {
      var more;
      SyncListStep(run, a, [b, c, d, e]);
      assert [a] + [b, c, d, e] == [a, b, c, d, e];
      ok, drift := Sync(a);
      if !ok {
        return;
      }
      SyncListStep(run, b, [c, d, e]);
      assert [b] + [c, d, e] == [b, c, d, e];
      ok, more := Sync(b);
      drift := drift || more;
      if !ok {
        return;
      }
      SyncListStep(run, c, [d, e]);
      assert [c] + [d, e] == [c, d, e];
      ok, more := Sync(c);
      drift := drift || more;
      if !ok {
        return;
      }
      SyncListStep(run, d, [e]);
      assert [d] + [e] == [d, e];
      ok, more := Sync(d);
      drift := drift || more;
      if !ok {
        return;
      }
      SyncListStep(run, e, []);
      assert [e] + [] == [e];
      ok, more := Sync(e);
      drift := drift || more;
    }

    method ReconcileNamespace(ns: string) returns (ok: bool, drift: bool)
      modifies `run, `syncedNamespaces
      ensures Done(View(), ok) == M.SyncNamespace(k, old(View()), ns)
      ensures run.writes >= old(run.writes) && (drift <==> run.writes > old(run.writes))
    {
      if ns in syncedNamespaces {
        return true, false;
      }
      ok, drift := SyncFive(
        EventBusWant(k, ns), VolumeClaimWant(k, ns), ServiceAccountWant(k, ns), RoleWant(k, ns),
        RoleBindingWant(k, ns));
      if ok {
        syncedNamespaces := syncedNamespaces + {ns};
      }
    }

    method ReconcileProjects(projects: seq<AppBuilder.Project>) returns (ok: bool, drift: bool)
      requires OneForEachOrg(projects)
      modifies `run, `syncedProjects
      ensures Done(View(), ok) == M.SyncProjects(k, old(View()), Names(projects))
      ensures run.writes >= old(run.writes) && (drift <==> run.writes > old(run.writes))
    {
      ok, drift := true, false;
      ghost var names := Names(projects);
      for i := 0 to |projects|
        invariant M.SyncProjects(k, View(), names[i..]) == M.SyncProjects(k, old(View()), names)
        invariant run.writes >= old(run.writes) && (drift <==> run.writes > old(run.writes))
      {
        var projectName := projects[i].name;
        assert names[i..][0] == projectName && names[i..][1..] == names[i + 1..];
        if projectName in syncedProjects {
          continue;
        }
        var more;
        assert projects[i] in projects;
        ok, more := Sync(ProjectWant(k, projects[i]));
        drift := drift || more;
        if !ok {
          return;
        }
        syncedProjects := syncedProjects + {projectName};
      }
    }

    method ReconcileApplications(applications: seq<AppBuilder.Application>, namespace: string)
      returns (ok: bool, drift: bool)
      modifies `run
      ensures Done(run, ok) == SyncOwned(old(run), ApplicationWants(k, applications), namespace)
      ensures run.writes >= old(run.writes) && (drift <==> run.writes > old(run.writes))
    {
      ok, drift := true, false;
      ghost var wants := ApplicationWants(k, applications);
      for i := 0 to |applications|
        invariant SyncOwned(run, wants[i..], namespace) == SyncOwned(old(run), wants, namespace)
        invariant run.writes >= old(run.writes) && (drift <==> run.writes > old(run.writes))
      {
        var w := ApplicationWant(k, applications[i]);
        assert wants[i..][0] == w && wants[i..][1..] == wants[i + 1..];
        var got := Fetch(w.key);
        // SetControllerReference: the owner and the owned object share a namespace.
        if got.Error? || applications[i].namespace != namespace {
          return false, drift;
        }
        var more;
        ok, more := Correct(w, got);
        drift := drift || more;
        if !ok {
          return;
        }
      }
    }

    // ---------------------------------------------------------------- condition

    method Refetch() returns (ok: bool)
      modifies `run
      ensures Done(View(), ok) == M.Forward(old(View()))
      ensures run.writes == old(run.writes)
    {
      ok := Answers(Next(run.plan));
      run := run.(plan := Rest(run.plan));
    }

    method SetCondition(flow: M.FlowName, condition: M.Condition) returns (ok: bool)
      modifies `run, `conditions
      ensures Done(View(), ok) == M.SetCondition(old(View()), flow, condition)
      ensures run.writes == old(run.writes)
    {
      var versions := M.ConditionsOf(View(), flow);
      if 0 < held <= |versions| && versions[held - 1] == condition {
        return true;
      }
      var accepted := held == |versions|;
      if accepted && Lands(Next(run.plan)) {
        conditions := conditions[flow := versions + [condition]];
      }
      ok := Refetch();
      if !accepted || !ok {
        return false;
      }
      ok := Refetch();
    }

    method Reject(ghost job: Job, flow: M.FlowName, reason: string) returns (r: M.Outcome)
      requires flow == M.FlowName(job.namespace, job.name)
      modifies `run, `conditions
      ensures M.Result(View(), r) == M.Reject(old(View()), job, reason)
      ensures run.writes == old(run.writes) && !r.Synced?
    {
      var ok := SetCondition(flow, M.Condition(false, reason));
      r := if ok then M.Rejected else M.Failed;
    }

    // ---------------------------------------------------------------- sensor

    method ReconcileSensor(flow: M.FlowName, p: Processed, ghost job: Job) returns (r: M.Outcome, drift: bool)
      requires job.namespace == flow.namespace && job.name == flow.name && job.sensor == SensorOf(p)
      requires job.sensorWant == SensorWant(flow.namespace, flow.name, SensorSpec(k, flow.name, p))
      modifies `run, `conditions
      ensures M.Result(View(), r) == M.SyncSensor(old(View()), job)
      ensures run.writes >= old(run.writes) && (drift <==> run.writes > old(run.writes))
    {
      var got := Fetch(Key(Kind.Sensor, flow.namespace, flow.name));
      if got.Error? {
        return M.Failed, false;
      }
      var built, spec := BuildSensor(k, flow.name, p);
      if built.Crashes? {
        return M.Failed, false;
      }
      if built.Errs? {
        r := Reject(job, flow, "SensorBuildFailed");
        return r, false;
      }
      var ok;
      ok, drift := Correct(SensorWant(flow.namespace, flow.name, spec), got);
      r := if ok then M.Synced else M.Failed;
    }

    // ---------------------------------------------------------------- EventSource and GitHub

    method FetchSource() returns (ok: bool, existing: Option<Source>, version: nat)
      modifies `run
      ensures run == old(run).(plan := Rest(old(run).plan)) && ok == Answers(Next(old(run).plan))
      ensures version == VersionRead(Next(old(run).plan), |source| + 1)
      ensures version <= |source| && existing == M.SourceRead(source, version)
    {
      ok := Answers(Next(run.plan));
      version := VersionRead(Next(run.plan), |source| + 1);
      existing := M.SourceRead(source, version);
      run := run.(plan := Rest(run.plan));
    }

    method SendSource(s: Source, accepted: bool) returns (ok: bool)
      modifies `run, `source
      ensures Done(View(), ok) == M.WriteSource(old(View()), s, accepted)
      ensures run.writes == old(run.writes) + 1
    {
      ok := accepted && Answers(Next(run.plan));
      if accepted && Lands(Next(run.plan)) {
        source := source + [s];
      }
      run := run.(writes := run.writes + 1, plan := Rest(run.plan));
    }

    /** The EventSource that all Flows share. */
    method ReconcileEventSource(org: string, name: string) returns (ok: bool, drift: bool)
      modifies `run, `source
      ensures Done(View(), ok) == M.SyncSource(old(View()), org, name)
      ensures run.writes >= old(run.writes) && (drift <==> run.writes > old(run.writes))
    {
      drift := false;
      var existing, version;
      ok, existing, version := FetchSource();
      if !ok {
        return;
      }
      if existing.None? {
        drift := true;
        ok := SendSource(BuildEventSource(org, name), source == []);
        return;
      }
      var fetched := new EventSource(existing.value);
      var merged := MergeOwnedRepos(fetched, org, name);
      if merged.NilMap? {
        return false, false;
      }
      if merged.Needed? {
        drift := true;
        ok := SendSource(fetched.View(), version == |source|);
      }
    }

    method ReconcileGitHub(org: string, name: string) returns (ok: bool)
      requires shared.Valid() && G.WellKept(repos)
      modifies `run, `repos, `githubWrites
      ensures shared.Valid() && G.WellKept(repos) && run.writes == old(run.writes)
      ensures Done(View(), ok) == M.SyncGitHub(old(View()), G.RepoName(org, name))
    {
      var gh := G.GitHub(repos, githubWrites, run.plan);
      G.SyncRepositoryIs(gh, G.RepoName(org, name));
      G.SyncKeepsWellKept(repos, G.SyncRepository(gh, G.RepoName(org, name)).state.repos, G.RepoName(org, name));
      var synced := G.SyncGitHubSettingsForRepo(gh, shared, G.RepoName(org, name));
      repos, githubWrites := synced.state.repos, synced.state.writes;
      run := run.(plan := synced.state.plan);
      ok := synced.ok;
    }

    method ReconcileRepo(org: string, name: string) returns (ok: bool, drift: bool)
      requires shared.Valid() && G.WellKept(repos)
      modifies `run, `source, `repos, `githubWrites, `syncedRepos
      ensures shared.Valid() && G.WellKept(repos)
      ensures Done(View(), ok) == M.SyncRepo(old(View()), org, name)
      ensures run.writes >= old(run.writes) && (drift <==> run.writes > old(run.writes))
    {
      if org in syncedRepos && name in syncedRepos[org] {
        return true, false;
      }
      ok, drift := ReconcileEventSource(org, name);
      if !ok {
        return;
      }
      ok := ReconcileGitHub(org, name);
      if ok {
        syncedRepos := syncedRepos[org := (if org in syncedRepos then syncedRepos[org] else {}) + {name}];
      }
    }

    // ---------------------------------------------------------------- the whole

    method ReconcileAppsAndSensor(flow: M.FlowName, p: Processed, built: AppBuilder.Apps, ghost job: Job)
      returns (r: M.Outcome, drift: bool)
      requires built.Apps? && OneForEachOrg(built.projects)
      requires job.namespace == flow.namespace && job.name == flow.name && job.sensor == SensorOf(p)
      requires job.sensorWant == SensorWant(flow.namespace, flow.name, SensorSpec(k, flow.name, p))
      requires job.orgs == Names(built.projects) && job.applications == ApplicationWants(k, built.applications)
      modifies `run, `syncedProjects, `conditions
      ensures M.Result(View(), r) == M.SyncAppsAndSensor(k, old(View()), job)
      ensures run.writes >= old(run.writes) && (drift <==> run.writes > old(run.writes))
    {
      var ok, more;
      ok, drift := ReconcileProjects(built.projects);
      if !ok {
        return M.Failed, drift;
      }
      ok, more := ReconcileApplications(built.applications, flow.namespace);
      drift := drift || more;
      if !ok {
        return M.Failed, drift;
      }
      r, more := ReconcileSensor(flow, p, job);
      drift := drift || more;
    }

    /** What is in the cluster, except for the EventSource. */
    method ReconcileObjects(flow: M.FlowName, p: Processed, ghost job: Job) returns (r: M.Outcome, drift: bool)
      requires job == JobOfProcessed(k, flow.namespace, flow.name, p)
      modifies `run, `syncedNamespaces, `syncedProjects, `conditions
      ensures M.Result(View(), r) == M.SyncObjects(k, old(View()), job)
      ensures run.writes >= old(run.writes) && (drift <==> run.writes > old(run.writes))
    {
      var ok, more;
      ok, drift := ReconcileNamespace(flow.namespace);
      if !ok {
        return M.Failed, drift;
      }
      var built := AppBuilder.BuildArgoApps(p.steps);
      if built.BadUrl? {
        r := Reject(job, flow, "AppBuildFailed");
        return r, drift;
      }
      r, more := ReconcileAppsAndSensor(flow, p, built, job);
      drift := drift || more;
    }

    /** The EventSource, the repository and the condition. */
    method ReconcileRest(
        flow: M.FlowName, p: Processed, detectedDrift: bool, ghost before: M.World, ghost job: Job)
      returns (r: M.Outcome)
      requires shared.Valid() && G.WellKept(repos)
      requires job.namespace == flow.namespace && job.name == flow.name && job.repo == TriggerRepo(p.triggers)
      requires run.writes >= before.run.writes && (detectedDrift <==> run.writes > before.run.writes)
      modifies `run, `source, `repos, `githubWrites, `conditions, `syncedRepos
      ensures shared.Valid() && G.WellKept(repos)
      ensures M.Result(View(), r) == M.SyncRest(old(View()), before, job)
    {
      var repo := TriggerRepo(p.triggers);
      if !repo.Repo? {
        r := Reject(job, flow, "EventSourceFailed");
        return;
      }
      var ok, drift := ReconcileRepo(repo.org, repo.name);
      if !ok {
        return M.Failed;
      }
      if detectedDrift || drift {
        ok := SetCondition(flow, M.READY);
      }
      r := if ok then M.Synced else M.Failed;
    }

    method FetchFlow(flow: M.FlowName) returns (ok: bool)
      modifies `run, `held
      ensures Done(View(), ok) == M.FetchFlow(old(View()), flow)
      ensures run.writes == old(run.writes)
    {
      held := VersionRead(Next(run.plan), |M.ConditionsOf(View(), flow)| + 1);
      ok := Refetch();
    }

    /** Reconcile; the first read may find no Flow of that name, which is then ignored. */
    method Reconcile(req: M.FlowName, found: Option<Flow>) returns (r: Option<M.Outcome>)
      requires shared.Valid() && G.WellKept(repos)
      requires found.Some? ==> req == M.FlowName(found.value.namespace, found.value.name)
      modifies this
      ensures shared.Valid() && G.WellKept(repos)
      ensures found.Some? ==>
        r.Some? && M.Result(View(), r.value) == M.Reconcile(k, old(View()), JobOf(k, found.value))
      ensures found.None? ==>
        var fetched := M.FetchFlow(old(View()), req);
        View() == fetched.state && r == if fetched.ok then None else Some(M.Failed)
    {
      var ok := FetchFlow(req);
      if !ok {
        return Some(M.Failed);
      }
      if found.None? {
        return None;
      }
      var processed := PreProcess(found.value);
      var outcome := ReconcileFound(req, processed, old(View()), JobOf(k, found.value));
      r := Some(outcome);
    }

    method ReconcileFound(flow: M.FlowName, processed: Option<Processed>, ghost before: M.World, ghost job: Job)
      returns (r: M.Outcome)
      requires shared.Valid() && G.WellKept(repos)
      requires job.namespace == flow.namespace && job.name == flow.name && (job.parses <==> processed.Some?)
      requires processed.Some? ==> job == JobOfProcessed(k, flow.namespace, flow.name, processed.value)
      requires M.FetchFlow(before, M.FlowName(job.namespace, job.name)) == Done(View(), true)
      modifies this
      ensures shared.Valid() && G.WellKept(repos)
      ensures M.Result(View(), r) == M.Reconcile(k, before, job)
    {
      if processed.None? {
        r := Reject(job, flow, "PreProcessFailed");
        return;
      }
      var drift;
      r, drift := ReconcileObjects(flow, processed.value, job);
      if r.Synced? {
        r := ReconcileRest(flow, processed.value, drift, before, job);
      }
    }
  }

  // ------------------------------------------------------------------ one reconcile after the other

  // A Flow as it is read, and what the calls come to while it is reconciled.
  datatype Work = Work(flow: Flow, plan: Plan)

  function EventOf(k: Constants, work: Work): R.Event { R.Reconciling(JobOf(k, work.flow), work.plan) }

  function EventsOf(k: Constants, work: seq<Work>): seq<R.Event> {
    seq(|work|, i requires 0 <= i < |work| => EventOf(k, work[i]))
  }

  lemma EventsAreJobs(k: Constants, work: seq<Work>)
    ensures R.AllJobs(EventsOf(k, work))
  {
    forall e | e in EventsOf(k, work) ensures IsJob(e.job) {
      var i :| 0 <= i < |work| && EventsOf(k, work)[i] == e;
      ApplicationKeysDiffer(k, work[i].flow);
    }
  }

  method ReconcileNext(reconciler: FlowReconciler, work: Work)
    requires reconciler.shared.Valid() && G.WellKept(reconciler.repos)
    modifies reconciler
    ensures reconciler.shared.Valid() && G.WellKept(reconciler.repos)
    ensures reconciler.View() == R.Step(reconciler.k, old(reconciler.View()), EventOf(reconciler.k, work))
  {
    reconciler.run := reconciler.run.(plan := work.plan);
    var _ := reconciler.Reconcile(M.FlowName(work.flow.namespace, work.flow.name), Some(work.flow));
  }

  lemma PlayNext(k: Constants, w: M.World, events: seq<R.Event>, i: nat)
    requires i < |events|
    ensures R.Play(k, w, events[..i + 1]) == R.Step(k, R.Play(k, w, events[..i]), events[i])
  {
    assert events[..i + 1][..i] == events[..i];
  }

  /** The worker. What it does is a run of the model. */
  method ReconcileAll(reconciler: FlowReconciler, work: seq<Work>)
    requires reconciler.shared.Valid() && G.WellKept(reconciler.repos)
    modifies reconciler
    ensures reconciler.shared.Valid() && G.WellKept(reconciler.repos)
    ensures R.AllJobs(EventsOf(reconciler.k, work))
    ensures reconciler.View() == R.Play(reconciler.k, old(reconciler.View()), EventsOf(reconciler.k, work))
  {
    ghost var events := EventsOf(reconciler.k, work);
    EventsAreJobs(reconciler.k, work);
    for i := 0 to |work|
      invariant reconciler.shared.Valid() && G.WellKept(reconciler.repos)
      invariant reconciler.View() == R.Play(reconciler.k, old(reconciler.View()), events[..i])
    {
      PlayNext(reconciler.k, old(reconciler.View()), events, i);
      ReconcileNext(reconciler, work[i]);
    }
    assert events[..|work|] == events;
  }

  /**
   Whatever earlier reconciles and crashes left behind, a new controller brings about all that the Flow asks for if
   its calls do not fail, exactly for Flows that can be built and served; and it writes nothing if all is there. A Flow
   that is rejected is not Ready afterwards, and says why.
   */
  method ReconcileAfterRestart(k: Constants, shared: S.Shared, outside: M.World, flow: Flow)
    returns (r: M.Outcome, reconciler: FlowReconciler)
    requires shared.Valid() && G.WellKept(outside.repos) && outside.run.plan == []
    ensures var job := JobOf(k, flow);
      && (r.Synced? <==> Buildable(job) && Results.Serviceable(outside, job))
      && (r.Synced? ==> Results.Desired(k, reconciler.View(), job))
      && (r.Synced? && Results.Desired(k, outside, job) ==>
            Results.Untouched(outside, reconciler.View()) && Results.NothingWritten(outside, reconciler.View()))
      && (r.Rejected? <==> Rejects.GetsRejected(job))
      && (r.Rejected? ==>
            Rejects.Newest(reconciler.View(), Rejects.NameOf(job), false, Rejects.Verdict(job).reason))
  {
    reconciler := new FlowReconciler(k, shared, outside);
    var outcome := reconciler.Reconcile(M.FlowName(flow.namespace, flow.name), Some(flow));
    r := outcome.value;
    ApplicationKeysDiffer(k, flow);
    RestartIs(k, outside, JobOf(k, flow));
    RejectedAfterRestart(k, outside, JobOf(k, flow));
  }

  lemma RestartIs(k: Constants, outside: M.World, job: Job)
    requires outside.run.plan == [] && IsJob(job)
    ensures var w := outside.(caches := M.NO_CACHES);
      var r := M.Reconcile(k, w, job);
      && (r.outcome.Synced? <==> Buildable(job) && Results.Serviceable(outside, job))
      && (r.outcome.Synced? ==> Results.Desired(k, r.world, job))
      && (r.outcome.Synced? && Results.Desired(k, outside, job) ==>
            Results.Untouched(outside, r.world) && Results.NothingWritten(outside, r.world))
  {
    var w := outside.(caches := M.NO_CACHES);
    Results.UndisturbedSucceeds(k, w, job);
    if M.Reconcile(k, w, job).outcome.Synced? {
      Results.SyncedMeansDesired(k, w, job);
      if Results.Desired(k, outside, job) { Results.NothingToDo(k, w, job); }
    }
  }

  lemma RejectedAfterRestart(k: Constants, outside: M.World, job: Job)
    requires outside.run.plan == []
    ensures var r := M.Reconcile(k, outside.(caches := M.NO_CACHES), job);
      && (r.outcome.Rejected? <==> Rejects.GetsRejected(job))
      && (r.outcome.Rejected? ==> Rejects.Newest(r.world, Rejects.NameOf(job), false, Rejects.Verdict(job).reason))
  {
    Rejects.ReconcileSpeaks(k, outside.(caches := M.NO_CACHES), job);
  }
}

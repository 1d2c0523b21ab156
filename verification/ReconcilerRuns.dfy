/**
 Whole runs of the reconciler: reconciles of any Flows, each with any calls of it failing and any reads stale, and
 restarts of the controller. Nobody else writes.
 */
module ReconcilerRuns {
  import opened Faults
  import opened Cluster
  import opened FlowWants
  import opened GitHubServer
  import opened ReconcilerModel
  import opened ReconcilerLaws
  import GitUrl

  // ------------------------------------------------------------------ one reconcile, as a whole

  // What the objects' part leaves alone, and what it counts.
  predicate ObjectsOnly(b: World, a: World) {
    && a.source == b.source && a.repos == b.repos && a.githubWrites == b.githubWrites
    && a.caches.repos == b.caches.repos && a.held == b.held
  }

  ghost predicate FreshStays(b: World, a: World) { Fresh(b.run.plan) ==> Fresh(a.run.plan) }

  lemma SyncOneFrame(run: Run, w: Want)
    ensures Fresh(run.plan) ==> Fresh(SyncOne(run, w).state.plan)
  {
  }

  lemma {:induction false} SyncListFrame(run: Run, wants: seq<Want>)
    ensures Fresh(run.plan) ==> Fresh(SyncList(run, wants).state.plan)
    decreases |wants|
  {
    if wants != [] {
      SyncOneFrame(run, wants[0]);
      SyncListFrame(SyncOne(run, wants[0]).state, wants[1..]);
    }
  }

  lemma {:induction false} SyncOwnedFrame(run: Run, wants: seq<Want>, namespace: string)
    ensures Fresh(run.plan) ==> Fresh(SyncOwned(run, wants, namespace).state.plan)
    decreases |wants|
  {
    if wants != [] {
      SyncOneFrame(run, wants[0]);
      SyncOwnedFrame(SyncOne(run, wants[0]).state, wants[1..], namespace);
    }
  }

  lemma {:induction false} ProjectsFrame(k: Constants, w: World, orgs: seq<string>)
    ensures var a := SyncProjects(k, w, orgs).state;
      ObjectsOnly(w, a) && FreshStays(w, a) && Counted(w.run, a.run) && a.conditions == w.conditions
    ensures w.run.plan == [] ==> SyncProjects(k, w, orgs).ok && SyncProjects(k, w, orgs).state.run.plan == []
    decreases |orgs|
  {
    if orgs != [] {
      if orgs[0] in w.caches.projects {
        ProjectsFrame(k, w, orgs[1..]);
      } else {
        var synced := SyncOne(w.run, OrgWant(k, orgs[0]));
        SyncOneFrame(w.run, OrgWant(k, orgs[0]));
        SyncOneCounts(w.run, OrgWant(k, orgs[0]));
        var caches := w.caches.(projects := w.caches.projects + {orgs[0]});
        ProjectsFrame(k, w.(run := synced.state, caches := caches), orgs[1..]);
      }
    }
  }

  lemma SensorFrame(w: World, job: Job)
    ensures var r := SyncSensor(w, job);
      && ObjectsOnly(w, r.world) && FreshStays(w, r.world) && Counted(w.run, r.world.run)
      && (r.outcome.Synced? ==> job.sensor.Builds?)
      && (job.sensor.Builds? ==> !r.outcome.Rejected? && r.world.conditions == w.conditions)
      && (w.run.plan == [] ==> r.world.run.plan == [] && (r.outcome.Synced? <==> job.sensor.Builds?))
  {
    SyncOneFrame(w.run, job.sensorWant);
    SyncOneCounts(w.run, job.sensorWant);
    var (fetched, got) := Get(w.run, job.sensorWant.key);
    if job.sensor.Errs? {
      SetConditionIs(w.(run := fetched), FlowName(job.namespace, job.name), Condition(false, "SensorBuildFailed"));
    }
  }

  lemma AppsAndSensorFrame(k: Constants, w: World, job: Job)
    ensures var r := SyncAppsAndSensor(k, w, job);
      && ObjectsOnly(w, r.world) && FreshStays(w, r.world) && Counted(w.run, r.world.run)
      && (r.outcome.Synced? ==> job.sensor.Builds? && AllIn(job.applications, job.namespace))
      && (job.sensor.Builds? ==> !r.outcome.Rejected? && r.world.conditions == w.conditions)
      && (w.run.plan == [] ==>
            && r.world.run.plan == []
            && (r.outcome.Synced? <==> job.sensor.Builds? && AllIn(job.applications, job.namespace)))
  {
    var projects := SyncProjects(k, w, job.orgs);
    ProjectsFrame(k, w, job.orgs);
    if projects.ok {
      var apps := SyncOwned(projects.state.run, job.applications, job.namespace);
      SyncOwnedFrame(projects.state.run, job.applications, job.namespace);
      SyncOwnedCounts(projects.state.run, job.applications, job.namespace);
      if apps.ok { SensorFrame(projects.state.(run := apps.state), job); }
    }
  }

  // The parts of `Buildable` that the objects decide.
  predicate ObjectsBuild(job: Job) { job.appsBuild && AllIn(job.applications, job.namespace) && job.sensor.Builds? }

  lemma ObjectsFrame(k: Constants, w: World, job: Job)
    ensures var r := SyncObjects(k, w, job);
      && ObjectsOnly(w, r.world) && FreshStays(w, r.world) && Counted(w.run, r.world.run)
      && (r.outcome.Synced? ==> ObjectsBuild(job))
      && (job.appsBuild && job.sensor.Builds? ==> !r.outcome.Rejected? && r.world.conditions == w.conditions)
      && (w.run.plan == [] ==> r.world.run.plan == [] && (r.outcome.Synced? <==> ObjectsBuild(job)))
  {
    var ns := SyncNamespace(k, w, job.namespace);
    SyncListFrame(w.run, NamespaceWants(k, job.namespace));
    SyncListCounts(w.run, NamespaceWants(k, job.namespace));
    if ns.ok {
      if job.appsBuild {
        AppsAndSensorFrame(k, ns.state, job);
      } else {
        SetConditionIs(ns.state, FlowName(job.namespace, job.name), Condition(false, "AppBuildFailed"));
      }
    }
  }

  lemma ReconcileStaysSure(k: Constants, w: World, job: Job, v: Want)
    requires Sure(k, w, v) && FitsIn(Wants(k, job), v)
    ensures var r := Reconcile(k, w, job);
      StaysSure(k, w, r.world, v) && (r.outcome.Synced? && v in Wants(k, job) ==> Holds(r.world.run.objects, v))
  {
    var fetched := FetchFlow(w, FlowName(job.namespace, job.name));
    SameObjectsStaySure(k, w, fetched.state, v);
    if fetched.ok && job.parses {
      ObjectsStaySure(k, fetched.state, job, v);
      var objects := SyncObjects(k, fetched.state, job);
      ThenStaysSure(k, w, fetched.state, objects.world, v);
      if objects.outcome.Synced? { AfterObjects(k, objects.world, w, job, v); }
    } else {
      SetConditionIs(fetched.state, FlowName(job.namespace, job.name), Condition(false, "PreProcessFailed"));
    }
  }

  // Steps in the EventSource and on GitHub.
  ghost predicate BesidesObjects(w: World, a: World) {
    && SameObjects(w, a) && FreshStays(w, a) && w.run.writes <= a.run.writes
    && a.conditions == w.conditions && a.held == w.held
    && (a.run.writes == w.run.writes ==> a.source == w.source)
  }

  lemma SourceFrame(w: World, org: string, name: string)
    ensures BesidesObjects(w, SyncSource(w, org, name).state)
    ensures SyncSource(w, org, name).state.repos == w.repos && SyncSource(w, org, name).state.caches == w.caches
  {
  }

  lemma GitHubFrame(w: World, repo: RepoName)
    ensures var a := SyncGitHub(w, repo).state;
      BesidesObjects(w, a) && a.source == w.source && a.run.writes == w.run.writes && a.caches == w.caches
  {
    SyncRepositoryIs(GitHub(w.repos, w.githubWrites, w.run.plan), repo);
  }

  lemma RepoFrame(w: World, org: string, name: string)
    ensures BesidesObjects(w, SyncRepo(w, org, name).state)
  {
    if !Remembers(w.caches, org, name) {
      SourceFrame(w, org, name);
      var source := SyncSource(w, org, name);
      if source.ok { GitHubFrame(source.state, RepoName(org, name)); }
    }
  }

  lemma RestFrame(w: World, before: World, job: Job)
    ensures SameObjects(w, SyncRest(w, before, job).world) && FreshStays(w, SyncRest(w, before, job).world)
  {
    if job.repo.Repo? {
      RepoFrame(w, job.repo.org, job.repo.name);
      var repo := SyncRepo(w, job.repo.org, job.repo.name);
      SetConditionIs(repo.state, FlowName(job.namespace, job.name), READY);
    } else {
      SetConditionIs(w, FlowName(job.namespace, job.name), Condition(false, "EventSourceFailed"));
    }
  }

  lemma AfterObjects(k: Constants, w: World, before: World, job: Job, v: Want)
    requires Sure(k, w, v)
    ensures StaysSure(k, w, SyncRest(w, before, job).world, v)
    ensures SameObjects(w, SyncRest(w, before, job).world)
  {
    RestFrame(w, before, job);
    SameObjectsStaySure(k, w, SyncRest(w, before, job).world, v);
  }

  lemma SameRepoStaysSure(b: World, a: World, org: string, name: string)
    requires SureOfRepo(b, org, name) && FreshStays(b, a)
    requires a.source == b.source && a.repos == b.repos && a.caches.repos == b.caches.repos
    ensures StaysSureOfRepo(b, a, org, name)
  {
  }

  lemma ReconcileStaysSureOfRepo(k: Constants, w: World, job: Job, org: string, name: string)
    requires SureOfRepo(w, org, name)
    ensures var r := Reconcile(k, w, job);
      && StaysSureOfRepo(w, r.world, org, name)
      && (r.outcome.Synced? && job.repo == GitUrl.Repo(org, name) ==> SeenTo(r.world, org, name))
  {
    var fetched := FetchFlow(w, FlowName(job.namespace, job.name));
    SameRepoStaysSure(w, fetched.state, org, name);
    if fetched.ok && job.parses {
      var objects := SyncObjects(k, fetched.state, job);
      ObjectsFrame(k, fetched.state, job);
      SameRepoStaysSure(w, objects.world, org, name);
      if objects.outcome.Synced? {
        RestStaysSureOfRepo(objects.world, w, job, org, name);
        ThenStaysSureOfRepo(w, objects.world, SyncRest(objects.world, w, job).world, org, name);
      }
    } else {
      SetConditionIs(fetched.state, FlowName(job.namespace, job.name), Condition(false, "PreProcessFailed"));
      SameRepoStaysSure(w, Reconcile(k, w, job).world, org, name);
    }
  }

  lemma RestStaysSureOfRepo(w: World, before: World, job: Job, org: string, name: string)
    requires SureOfRepo(w, org, name)
    ensures var r := SyncRest(w, before, job);
      && StaysSureOfRepo(w, r.world, org, name)
      && (r.outcome.Synced? && job.repo == GitUrl.Repo(org, name) ==> SeenTo(r.world, org, name))
  {
    if job.repo.Repo? {
      RepoStaysSure(w, job.repo.org, job.repo.name, org, name);
      var repo := SyncRepo(w, job.repo.org, job.repo.name);
      SetConditionIs(repo.state, FlowName(job.namespace, job.name), READY);
      SameRepoStaysSure(repo.state, SyncRest(w, before, job).world, org, name);
      ThenStaysSureOfRepo(w, repo.state, SyncRest(w, before, job).world, org, name);
    } else {
      SetConditionIs(w, FlowName(job.namespace, job.name), Condition(false, "EventSourceFailed"));
      SameRepoStaysSure(w, SyncRest(w, before, job).world, org, name);
    }
  }

  // ------------------------------------------------------------------ runs

  datatype Event = Reconciling(job: Job, plan: Plan) | Restart

  function Step(k: Constants, w: World, e: Event): World {
    match e
    case Reconciling(job, plan) => Reconcile(k, w.(run := w.run.(plan := plan)), job).world
    case Restart => w.(caches := NO_CACHES)
  }

  function Play(k: Constants, w: World, events: seq<Event>): World {
    if events == [] then w else Step(k, Play(k, w, events[..|events| - 1]), events[|events| - 1])
  }

  predicate AllJobs(events: seq<Event>) { forall e <- events :: e.Reconciling? ==> IsJob(e.job) }

  predicate NoStaleReads(events: seq<Event>) { forall e <- events :: e.Reconciling? ==> Fresh(e.plan) }

  predicate AllFitIn(k: Constants, events: seq<Event>, v: Want) {
    forall e <- events :: e.Reconciling? ==> FitsIn(Wants(k, e.job), v)
  }

  /** Along a run, caches stay right about `v`, if old versions of it do not mislead or no read is stale. */
  lemma {:induction false} PlayStaysSure(k: Constants, w: World, events: seq<Event>, v: Want)
    requires Steady(w.run.objects, v) || NoStaleReads(events)
    requires SoundAbout(k, w, v) && AllFitIn(k, events, v)
    ensures var a := Play(k, w, events);
      && SoundAbout(k, a, v) && (Steady(w.run.objects, v) ==> Steady(a.run.objects, v))
      && (Holds(w.run.objects, v) ==> SameAt(w.run.objects, a.run.objects, v.key))
  {
    if events != [] {
      var front, last := events[..|events| - 1], events[|events| - 1];
      assert forall e <- front :: e in events;
      PlayStaysSure(k, w, front, v);
      if last.Reconciling? {
        assert last in events;
        var m := Play(k, w, front);
        ReconcileStaysSure(k, m.(run := m.run.(plan := last.plan)), last.job, v);
      }
    }
  }

  lemma {:induction false} PlayStaysSureOfRepo(k: Constants, w: World, events: seq<Event>, org: string, name: string)
    requires SourceSteady(w.source, org, name) || NoStaleReads(events)
    requires Remembers(w.caches, org, name) ==> SeenTo(w, org, name)
    ensures var a := Play(k, w, events);
      && (Remembers(a.caches, org, name) ==> SeenTo(a, org, name))
      && (SourceSteady(w.source, org, name) ==> SourceSteady(a.source, org, name))
      && (SeenTo(w, org, name) ==> SeenTo(a, org, name))
  {
    if events != [] {
      var front, last := events[..|events| - 1], events[|events| - 1];
      assert forall e <- front :: e in events;
      PlayStaysSureOfRepo(k, w, front, org, name);
      if last.Reconciling? {
        assert last in events;
        var m := Play(k, w, front);
        ReconcileStaysSureOfRepo(k, m.(run := m.run.(plan := last.plan)), last.job, org, name);
      }
    }
  }

  // ------------------------------------------------------------------ the caches

  /** A controller starts on a cluster of which there are no older versions to read. */
  ghost predicate Starts(w: World) {
    w.caches == NO_CACHES && |w.source| <= 1 && forall key :: |HistoryOf(w.run.objects, key)| == 1
  }

  /** The role binding of the namespace is absent, or refers to the role it should. */
  predicate BindingIsGood(k: Constants, w: World, ns: string) {
    var binding := Now(w.run.objects, RoleBindingWant(k, ns).key);
    binding.Some? ==> binding.value.roleRef == RoleBindingWant(k, ns).form.roleRef
  }

  predicate NamespaceSound(k: Constants, w: World, ns: string) {
    ns in w.caches.namespaces ==> forall v <- NamespaceWants(k, ns) :: Holds(w.run.objects, v)
  }

  predicate ProjectSound(k: Constants, w: World, org: string) {
    org in w.caches.projects ==> Holds(w.run.objects, OrgWant(k, org))
  }

  predicate RepoSound(w: World, org: string, name: string) { Remembers(w.caches, org, name) ==> SeenTo(w, org, name) }

  lemma SharedFitsIn(k: Constants, events: seq<Event>, v: Want)
    requires AllJobs(events) && IsShared(k, v)
    ensures AllFitIn(k, events, v)
  {
    forall e, u | e in events && e.Reconciling? && u in Wants(k, e.job) && u.key == v.key ensures u == v {
      WantsAreCoherent(k, e.job, u, v);
    }
  }

  lemma StartsSteady(k: Constants, w: World, v: Want)
    requires Starts(w)
    requires v.key.kind.RoleBinding? ==>
      Now(w.run.objects, v.key).Some? ==> Now(w.run.objects, v.key).value.roleRef == v.form.roleRef
    ensures Steady(w.run.objects, v)
  {
    assert |HistoryOf(w.run.objects, v.key)| == 1;
  }

  lemma ClaimSettled(k: Constants, w: World, events: seq<Event>, v: Want)
    requires w.caches == NO_CACHES && AllJobs(events) && IsShared(k, v)
    requires Steady(w.run.objects, v) || NoStaleReads(events)
    ensures SoundAbout(k, Play(k, w, events), v)
  {
    SharedFitsIn(k, events, v);
    PlayStaysSure(k, w, events, v);
  }

  lemma NamespaceIsSound(k: Constants, w: World, events: seq<Event>, ns: string)
    requires w.caches == NO_CACHES && AllJobs(events)
    requires (Starts(w) && BindingIsGood(k, w, ns)) || NoStaleReads(events)
    ensures NamespaceSound(k, Play(k, w, events), ns)
  {
    forall v | v in NamespaceWants(k, ns) ensures SoundAbout(k, Play(k, w, events), v) {
      if Starts(w) && BindingIsGood(k, w, ns) { StartsSteady(k, w, v); }
      ClaimSettled(k, w, events, v);
    }
  }

  /**
   Whichever calls fail and whichever reads are stale: a remembered project or repository always is there as wanted,
   and so is a remembered namespace whose role binding was absent or had the right role at the start.
   */
  lemma CachesNeverLie(k: Constants, w: World, events: seq<Event>, ns: string, org: string, name: string)
    requires Starts(w) && AllJobs(events)
    ensures ProjectSound(k, Play(k, w, events), org) && RepoSound(Play(k, w, events), org, name)
    ensures BindingIsGood(k, w, ns) ==> NamespaceSound(k, Play(k, w, events), ns)
  {
    StartsSteady(k, w, OrgWant(k, org));
    ClaimSettled(k, w, events, OrgWant(k, org));
    PlayStaysSureOfRepo(k, w, events, org, name);
    if BindingIsGood(k, w, ns) { NamespaceIsSound(k, w, events, ns); }
  }

  /** With fresh reads all three caches are right from any state of the cluster whatsoever. */
  lemma FreshCachesNeverLie(k: Constants, w: World, events: seq<Event>, ns: string, org: string, name: string)
    requires w.caches == NO_CACHES && AllJobs(events) && NoStaleReads(events)
    ensures var a := Play(k, w, events); NamespaceSound(k, a, ns) && ProjectSound(k, a, org) && RepoSound(a, org, name)
  {
    ClaimSettled(k, w, events, OrgWant(k, org));
    PlayStaysSureOfRepo(k, w, events, org, name);
    NamespaceIsSound(k, w, events, ns);
  }
}

/** What a successful reconcile means, and what later ones do. */
module ReconcilerResults {
  import opened Options
  import opened Faults
  import opened Cluster
  import opened FlowWants
  import opened EventSourceMerge
  import opened GitHubServer
  import opened ReconcilerModel
  import opened ReconcilerLaws
  import opened ReconcilerRuns
  import GitHubSettings

  /** Everything the job asks for is there, and a fresh look at it finds no drift. */
  predicate Desired(k: Constants, w: World, job: Job) {
    && (forall v <- Wants(k, job) :: Holds(w.run.objects, v))
    && job.repo.Repo? && SeenTo(w, job.repo.org, job.repo.name)
  }

  function Fetched(w: World, job: Job): World { FetchFlow(w, FlowName(job.namespace, job.name)).state }

  // All reads about the job can be relied on, and the caches are right about it.
  ghost predicate SureOfJob(k: Constants, w: World, job: Job) {
    && (forall v <- Wants(k, job) :: Sure(k, w, v))
    && (job.repo.Repo? ==> SureOfRepo(w, job.repo.org, job.repo.name))
  }

  // Older versions of what the job asks for do not mislead, and the caches are right about it.
  ghost predicate SteadyFor(k: Constants, w: World, job: Job) {
    && (forall v <- Wants(k, job) :: Steady(w.run.objects, v) && SoundAbout(k, w, v))
    && (job.repo.Repo? ==>
          SourceSteady(w.source, job.repo.org, job.repo.name) && RepoSound(w, job.repo.org, job.repo.name))
  }

  lemma JobFitsIn(k: Constants, job: Job, v: Want)
    requires IsJob(job) && v in Wants(k, job)
    ensures FitsIn(Wants(k, job), v)
  {
    forall w | w in Wants(k, job) && w.key == v.key ensures w == v { WantsAreCoherent(k, job, v, w); }
  }

  /** A success, whatever the caches let it skip, means that all the job asks for is there. */
  lemma SyncedMeansDesired(k: Constants, w: World, job: Job)
    requires IsJob(job) && SureOfJob(k, w, job) && Reconcile(k, w, job).outcome.Synced?
    ensures Desired(k, Reconcile(k, w, job).world, job) && Buildable(job)
  {
    forall v | v in Wants(k, job) ensures Holds(Reconcile(k, w, job).world.run.objects, v) {
      JobFitsIn(k, job, v);
      ReconcileStaysSure(k, w, job, v);
    }
    ObjectsFrame(k, Fetched(w, job), job);
    ReconcileStaysSureOfRepo(k, w, job, job.repo.org, job.repo.name);
  }

  // ------------------------------------------------------------------ nothing to do

  // What nobody but this reconcile could see: its calls.
  predicate Untouched(b: World, a: World) {
    && a.run.objects == b.run.objects && a.source == b.source && a.repos == b.repos && a.conditions == b.conditions
  }

  predicate NothingWritten(b: World, a: World) { a.run.writes == b.run.writes && a.githubWrites <= b.githubWrites }

  // A part of a reconcile that finds nothing to do, on the way to success or giving up.
  ghost predicate Idle(b: World, a: World, ok: bool) {
    Untouched(b, a) && (Fresh(b.run.plan) || ok ==> NothingWritten(b, a))
  }

  lemma StillSure(k: Constants, b: World, a: World, job: Job)
    requires IsJob(job) && SureOfJob(k, b, job) && Desired(k, b, job)
    requires Untouched(b, a) && FreshStays(b, a)
    ensures (forall v <- Wants(k, job) :: Trusted(a.run, v) && Holds(a.run.objects, v))
  {
    forall v | v in Wants(k, job) ensures Trusted(a.run, v) && Holds(a.run.objects, v) {
      assert Sure(k, b, v);
    }
  }

  lemma {:induction false} ProjectsAreQuiet(k: Constants, w: World, orgs: seq<string>)
    requires forall org <- orgs :: Trusted(w.run, OrgWant(k, org)) && Holds(w.run.objects, OrgWant(k, org))
    ensures var d := SyncProjects(k, w, orgs); Idle(w, d.state, d.ok)
    decreases |orgs|
  {
    if orgs != [] {
      forall org | org in orgs[1..] ensures org in orgs {}
      if orgs[0] in w.caches.projects {
        ProjectsAreQuiet(k, w, orgs[1..]);
      } else {
        var v := OrgWant(k, orgs[0]);
        var synced := SyncOne(w.run, v);
        SyncOneOwn(w.run, v);
        SyncOneCounts(w.run, v);
        SyncOneFrame(w.run, v);
        if synced.ok {
          var w' := w.(run := synced.state, caches := w.caches.(projects := w.caches.projects + {orgs[0]}));
          forall org | org in orgs[1..]
            ensures Trusted(w'.run, OrgWant(k, org)) && Holds(w'.run.objects, OrgWant(k, org))
          {
            assert org in orgs;
          }
          ProjectsAreQuiet(k, w', orgs[1..]);
        }
      }
    }
  }

  lemma WantsInclude(k: Constants, job: Job)
    ensures forall v <- NamespaceWants(k, job.namespace) :: v in Wants(k, job)
    ensures forall org <- job.orgs :: OrgWant(k, org) in Wants(k, job)
    ensures forall v <- job.applications :: v in Wants(k, job)
    ensures job.sensorWant in Wants(k, job)
  {
    forall org | org in job.orgs ensures OrgWant(k, org) in Wants(k, job) {
      var i :| 0 <= i < |job.orgs| && job.orgs[i] == org;
      assert OrgWants(k, job.orgs)[i] in OrgWants(k, job.orgs);
    }
  }

  ghost predicate AllThere(k: Constants, w: World, job: Job) {
    forall v <- Wants(k, job) :: Trusted(w.run, v) && Holds(w.run.objects, v)
  }

  lemma AllThereStays(k: Constants, b: World, a: World, job: Job)
    requires AllThere(k, b, job) && a.run.objects == b.run.objects && FreshStays(b, a)
    ensures AllThere(k, a, job)
  {
  }

  lemma AppsAndSensorAreQuiet(k: Constants, w: World, job: Job)
    requires AllThere(k, w, job) && job.sensor.Builds?
    ensures var r := SyncAppsAndSensor(k, w, job); Idle(w, r.world, r.outcome.Synced?)
  {
    WantsInclude(k, job);
    var projects := SyncProjects(k, w, job.orgs);
    ProjectsAreQuiet(k, w, job.orgs);
    ProjectsFrame(k, w, job.orgs);
    if projects.ok {
      AllThereStays(k, w, projects.state, job);
      var apps := SyncOwned(projects.state.run, job.applications, job.namespace);
      SyncOwnedIsQuiet(projects.state.run, job.applications, job.namespace);
      SyncOwnedFrame(projects.state.run, job.applications, job.namespace);
      if apps.ok {
        var w' := projects.state.(run := apps.state);
        AllThereStays(k, projects.state, w', job);
        SyncOneOwn(w'.run, job.sensorWant);
        SyncOneCounts(w'.run, job.sensorWant);
      }
    }
  }

  lemma ObjectsAreQuiet(k: Constants, w: World, job: Job)
    requires AllThere(k, w, job) && job.appsBuild && job.sensor.Builds?
    ensures var r := SyncObjects(k, w, job); Idle(w, r.world, r.outcome.Synced?)
  {
    WantsInclude(k, job);
    var ns := SyncNamespace(k, w, job.namespace);
    SyncListIsQuiet(w.run, NamespaceWants(k, job.namespace));
    SyncListFrame(w.run, NamespaceWants(k, job.namespace));
    if ns.ok {
      AllThereStays(k, w, ns.state, job);
      AppsAndSensorAreQuiet(k, ns.state, job);
    }
  }

  lemma SourceIsQuiet(w: World, org: string, name: string)
    requires SureOfRepo(w, org, name) && Listed(Latest(w.source), org, name)
    ensures var d := SyncSource(w, org, name); Idle(w, d.state, d.ok)
  {
    var v := VersionRead(Next(w.run.plan), |w.source| + 1);
    if v == |w.source| { assert SourceRead(w.source, v) == Latest(w.source); }
  }

  lemma RepoIsQuiet(w: World, org: string, name: string)
    requires SureOfRepo(w, org, name) && SeenTo(w, org, name)
    ensures var d := SyncRepo(w, org, name); Idle(w, d.state, d.ok)
  {
    if !Remembers(w.caches, org, name) {
      var source := SyncSource(w, org, name);
      SourceIsQuiet(w, org, name);
      SourceFrame(w, org, name);
      if source.ok {
        SyncRepositoryIs(
          GitHub(source.state.repos, source.state.githubWrites, source.state.run.plan), RepoName(org, name));
      }
    }
  }

  /**
   When everything is there, a reconcile changes nothing, whichever of its calls fail and whichever of its reads are
   stale; and if no read is stale, or it succeeds, it does not even attempt a write.
   */
  lemma NothingToDo(k: Constants, w: World, job: Job)
    requires IsJob(job) && Buildable(job) && SureOfJob(k, w, job) && Desired(k, w, job)
    ensures var r := Reconcile(k, w, job);
      Untouched(w, r.world) && (Fresh(w.run.plan) || r.outcome.Synced? ==> NothingWritten(w, r.world))
  {
    var fetched := FetchFlow(w, FlowName(job.namespace, job.name));
    if fetched.ok {
      StillSure(k, w, fetched.state, job);
      ObjectsAreQuiet(k, fetched.state, job);
      ObjectsFrame(k, fetched.state, job);
      var objects := SyncObjects(k, fetched.state, job);
      if objects.outcome.Synced? {
        SameRepoStaysSure(w, objects.world, job.repo.org, job.repo.name);
        RepoIsQuiet(objects.world, job.repo.org, job.repo.name);
        RepoFrame(objects.world, job.repo.org, job.repo.name);
      }
    }
  }

  // ------------------------------------------------------------------ success is enough

  predicate AllAgree(k: Constants, events: seq<Event>, job: Job) {
    forall e <- events :: e.Reconciling? ==> IsJob(e.job) && Agree(k, e.job, job)
  }

  lemma AgreeingFitIn(k: Constants, events: seq<Event>, job: Job, v: Want)
    requires AllAgree(k, events, job) && v in Wants(k, job)
    ensures AllFitIn(k, events, v)
  {
  }

  // Runs in which what is read about the job can be relied on.
  ghost predicate Reliable(k: Constants, w: World, events: seq<Event>, job: Job) {
    NoStaleReads(events) || SteadyFor(k, w, job)
  }

  lemma SureAfter(k: Constants, w: World, events: seq<Event>, job: Job, plan: Plan)
    requires IsJob(job) && AllAgree(k, events, job) && Reliable(k, w, events + [Reconciling(job, plan)], job)
    requires forall v <- Wants(k, job) :: SoundAbout(k, w, v)
    requires job.repo.Repo? ==> RepoSound(w, job.repo.org, job.repo.name)
    ensures var m := Play(k, w, events); SureOfJob(k, m.(run := m.run.(plan := plan)), job)
  {
    var all := events + [Reconciling(job, plan)];
    if NoStaleReads(all) {
      assert all[|events|] == Reconciling(job, plan);
      forall e | e in events ensures e in all {}
    }
    var m := Play(k, w, events);
    forall v | v in Wants(k, job) ensures Sure(k, m.(run := m.run.(plan := plan)), v) {
      AgreeingFitIn(k, events, job, v);
      PlayStaysSure(k, w, events, v);
    }
    if job.repo.Repo? { PlayStaysSureOfRepo(k, w, events, job.repo.org, job.repo.name); }
  }

  lemma DesiredStays(k: Constants, w: World, events: seq<Event>, job: Job)
    requires IsJob(job) && AllAgree(k, events, job) && Reliable(k, w, events, job) && Desired(k, w, job)
    requires forall v <- Wants(k, job) :: SoundAbout(k, w, v)
    ensures Desired(k, Play(k, w, events), job)
  {
    forall v | v in Wants(k, job) ensures Holds(Play(k, w, events).run.objects, v) {
      AgreeingFitIn(k, events, job, v);
      PlayStaysSure(k, w, events, v);
    }
    PlayStaysSureOfRepo(k, w, events, job.repo.org, job.repo.name);
  }

  lemma AgreeWith(k: Constants, events: seq<Event>, job: Job, plan: Plan)
    requires IsJob(job) && AllAgree(k, events, job)
    ensures AllAgree(k, events + [Reconciling(job, plan)], job)
  {
    forall v, u | v in Wants(k, job) && u in Wants(k, job) && v.key == u.key ensures v == u {
      WantsAreCoherent(k, job, v, u);
    }
    assert Agree(k, job, job);
  }

  // What is known of the job at some point of a run.
  ghost predicate InHand(k: Constants, w: World, job: Job) {
    && Desired(k, w, job) && Buildable(job) && RepoSound(w, job.repo.org, job.repo.name)
    && forall v <- Wants(k, job) :: SoundAbout(k, w, v)
  }

  lemma SuccessTakesInHand(k: Constants, w: World, first: seq<Event>, job: Job, plan: Plan)
    requires IsJob(job) && AllAgree(k, first, job) && w.caches == NO_CACHES
    requires Reliable(k, w, first + [Reconciling(job, plan)], job)
    requires var m := Play(k, w, first); Reconcile(k, m.(run := m.run.(plan := plan)), job).outcome.Synced?
    ensures var a := Play(k, w, first + [Reconciling(job, plan)]);
      InHand(k, a, job) && (SteadyFor(k, w, job) ==> SteadyFor(k, a, job))
  {
    var one, m := first + [Reconciling(job, plan)], Play(k, w, first);
    SureAfter(k, w, first, job, plan);
    SyncedMeansDesired(k, m.(run := m.run.(plan := plan)), job);
    assert one[..|one| - 1] == first;
    AgreeWith(k, first, job, plan);
    forall v | v in Wants(k, job)
      ensures SoundAbout(k, Play(k, w, one), v)
      ensures SteadyFor(k, w, job) ==> Steady(Play(k, w, one).run.objects, v)
    {
      AgreeingFitIn(k, one, job, v);
      PlayStaysSure(k, w, one, v);
    }
    PlayStaysSureOfRepo(k, w, one, job.repo.org, job.repo.name);
  }

  lemma InHandIsQuiet(k: Constants, w: World, between: seq<Event>, job: Job, last: Plan)
    requires IsJob(job) && AllAgree(k, between, job) && InHand(k, w, job)
    requires Reliable(k, w, between + [Reconciling(job, last)], job)
    ensures var later := Play(k, w, between);
      var b := later.(run := later.run.(plan := last));
      var r := Reconcile(k, b, job);
      && Desired(k, later, job) && Untouched(b, r.world)
      && (Fresh(last) || r.outcome.Synced? ==> NothingWritten(b, r.world))
  {
    if NoStaleReads(between + [Reconciling(job, last)]) {
      forall e | e in between ensures e in between + [Reconciling(job, last)] {}
    }
    DesiredStays(k, w, between, job);
    SureAfter(k, w, between, job, last);
    var later := Play(k, w, between);
    NothingToDo(k, later.(run := later.run.(plan := last)), job);
  }

  /**
   One success is enough: from then on everything the job asks for stays there, and its later reconciles change
   nothing, through reconciles of agreeing Flows, failures, restarts and, if older versions do not mislead, stale
   reads. A later reconcile that succeeds, or reads nothing stale, does not even attempt a write.
   */
  lemma OneSuccessIsEnough(
    k: Constants, w: World, first: seq<Event>, job: Job, plan: Plan, between: seq<Event>, last: Plan)
    requires IsJob(job) && AllAgree(k, first, job) && AllAgree(k, between, job) && w.caches == NO_CACHES
    requires SteadyFor(k, w, job)
          || (NoStaleReads(first + [Reconciling(job, plan)]) && NoStaleReads(between + [Reconciling(job, last)]))
    requires var m := Play(k, w, first); Reconcile(k, m.(run := m.run.(plan := plan)), job).outcome.Synced?
    ensures var later := Play(k, Play(k, w, first + [Reconciling(job, plan)]), between);
      var b := later.(run := later.run.(plan := last));
      var r := Reconcile(k, b, job);
      && Desired(k, later, job) && Untouched(b, r.world)
      && (Fresh(last) || r.outcome.Synced? ==> NothingWritten(b, r.world))
  {
    SuccessTakesInHand(k, w, first, job, plan);
    InHandIsQuiet(k, Play(k, w, first + [Reconciling(job, plan)]), between, job, last);
  }

  /** At the start of a controller, with a good role binding, older versions mislead about nothing. */
  lemma StartIsSteady(k: Constants, w: World, job: Job)
    requires IsJob(job) && Starts(w) && BindingIsGood(k, w, job.namespace)
    ensures SteadyFor(k, w, job)
  {
    forall v | v in Wants(k, job) ensures Steady(w.run.objects, v) {
      WantsAreOfKind(k, job, v);
      if v.key.kind.RoleBinding? {
        SharedWantsAreDetermined(k, v);
        BindingOfJob(k, job, v);
      }
      StartsSteady(k, w, v);
    }
  }

  lemma BindingOfJob(k: Constants, job: Job, v: Want)
    requires IsJob(job) && v in Wants(k, job) && v.key.kind.RoleBinding?
    ensures v == RoleBindingWant(k, job.namespace)
  {
    assert forall u <- OrgWants(k, job.orgs) :: u.key.kind.Project?;
  }

  // ------------------------------------------------------------------ success without failures

  /** What a job needs from outside: a mergeable EventSource, and the app installed for its repository. */
  predicate Serviceable(w: World, job: Job) {
    && job.repo.Repo?
    && (w.source != [] ==> Latest(w.source).value.github.Some?)
    && RepoName(job.repo.org, job.repo.name) in w.repos
  }

  lemma RepoSucceeds(w: World, org: string, name: string)
    requires w.run.plan == [] && RepoSound(w, org, name)
    ensures var d := SyncRepo(w, org, name);
      && d.state.run.plan == []
      && (d.ok <==> (w.source != [] ==> Latest(w.source).value.github.Some?) && RepoName(org, name) in w.repos)
  {
    if !Remembers(w.caches, org, name) {
      var source := SyncSource(w, org, name);
      SourceSucceeds(w, org, name);
      if source.ok {
        SyncRepositoryIs(
          GitHub(source.state.repos, source.state.githubWrites, source.state.run.plan), RepoName(org, name));
      }
    }
  }

  lemma SourceSucceeds(w: World, org: string, name: string)
    requires w.run.plan == []
    ensures var d := SyncSource(w, org, name);
      && d.state.run.plan == [] && d.state.repos == w.repos
      && (d.ok <==> (w.source != [] ==> Latest(w.source).value.github.Some?))
  {
  }

  lemma RestSucceeds(w: World, before: World, job: Job)
    requires w.run.plan == [] && w.held == |ConditionsOf(w, FlowName(job.namespace, job.name))|
    requires job.repo.Repo? ==> RepoSound(w, job.repo.org, job.repo.name)
    ensures SyncRest(w, before, job).outcome.Synced? <==> Serviceable(w, job)
  {
    if job.repo.Repo? {
      RepoSucceeds(w, job.repo.org, job.repo.name);
      RepoFrame(w, job.repo.org, job.repo.name);
      var repo := SyncRepo(w, job.repo.org, job.repo.name);
      SetConditionIs(repo.state, FlowName(job.namespace, job.name), READY);
    }
  }

  /** From any state that interrupted reconciles leave, an undisturbed one succeeds exactly for buildable jobs. */
  lemma UndisturbedSucceeds(k: Constants, w: World, job: Job)
    requires w.run.plan == [] && (job.repo.Repo? ==> RepoSound(w, job.repo.org, job.repo.name))
    ensures Reconcile(k, w, job).outcome.Synced? <==> Buildable(job) && Serviceable(w, job)
  {
    var fetched := Fetched(w, job);
    if job.parses {
      ObjectsFrame(k, fetched, job);
      var objects := SyncObjects(k, fetched, job);
      if objects.outcome.Synced? { RestSucceeds(objects.world, w, job); }
    }
  }

  /** No version of the EventSource that a read may show lists the repository. */
  predicate NeverListed(source: seq<Source>, org: string, name: string) {
    forall s <- source :: !Listed(Some(s), org, name)
  }

  lemma NilMapStopsRepo(w: World, org: string, name: string)
    requires w.source != [] && Latest(w.source).value.github.None?
    requires Fresh(w.run.plan) || NeverListed(w.source, org, name)
    requires !Remembers(w.caches, org, name)
    ensures !SyncRepo(w, org, name).ok
  {
    var v := VersionRead(Next(w.run.plan), |w.source| + 1);
    if v < |w.source| && v > 0 { assert w.source[v - 1] in w.source; }
  }

  /**
   With an EventSource that has no map to write to, no job whose repository is new ever succeeds, whichever calls fail
   and whatever is read, unless a stale read shows a version that lists the repository.
   */
  lemma NilMapBlocksEveryJob(k: Constants, w: World, job: Job)
    requires w.source != [] && Latest(w.source).value.github.None?
    requires job.repo.Repo? ==>
      && !Remembers(w.caches, job.repo.org, job.repo.name)
      && (Fresh(w.run.plan) || NeverListed(w.source, job.repo.org, job.repo.name))
    ensures !Reconcile(k, w, job).outcome.Synced?
  {
    var fetched := Fetched(w, job);
    ObjectsFrame(k, fetched, job);
    var objects := SyncObjects(k, fetched, job).world;
    if job.repo.Repo? { NilMapStopsRepo(objects, job.repo.org, job.repo.name); }
  }

  /** An EventSource whose map is missing blocks a job that would succeed if the map were there, even empty. */
  lemma OnlyTheMapIsMissing(k: Constants, w: World, job: Job, other: string)
    requires Buildable(job) && w.run.plan == [] && w.caches == NO_CACHES
    requires RepoName(job.repo.org, job.repo.name) in w.repos
    ensures !Reconcile(k, w.(source := [Source(None, other)]), job).outcome.Synced?
    ensures Reconcile(k, w.(source := [Source(Some(map[]), other)]), job).outcome.Synced?
  {
    UndisturbedSucceeds(k, w.(source := [Source(None, other)]), job);
    UndisturbedSucceeds(k, w.(source := [Source(Some(map[]), other)]), job);
  }

  // ------------------------------------------------------------------ Ready

  predicate IsReady(w: World, job: Job) {
    HasCondition(w, FlowName(job.namespace, job.name), Condition(true, "FlowSynced"))
  }

  /** The copy of the Flow that the reconcile will fetch says Ready. */
  predicate FindsReady(w: World, job: Job) {
    var versions := ConditionsOf(w, FlowName(job.namespace, job.name));
    Shows(versions, VersionRead(Next(w.run.plan), |versions| + 1), Condition(true, "FlowSynced"))
  }

  /** The cluster has all that the job asks for; the settings on GitHub do not matter here. */
  predicate InCluster(k: Constants, w: World, job: Job) {
    && (forall v <- Wants(k, job) :: Holds(w.run.objects, v))
    && job.repo.Repo? && Listed(Latest(w.source), job.repo.org, job.repo.name)
  }

  lemma SuccessReports(k: Constants, w: World, job: Job)
    requires Reconcile(k, w, job).outcome.Synced?
    ensures var a := Reconcile(k, w, job).world;
      && (IsReady(a, job) <==> IsReady(w, job) || (a.run.writes != w.run.writes && !FindsReady(w, job)))
      && a.run.writes >= w.run.writes
      && (a.run.writes == w.run.writes ==> a.run.objects == w.run.objects && a.source == w.source)
  {
    var fetched := Fetched(w, job);
    ObjectsFrame(k, fetched, job);
    var objects := SyncObjects(k, fetched, job).world;
    RepoFrame(objects, job.repo.org, job.repo.name);
    var repo := SyncRepo(objects, job.repo.org, job.repo.name).state;
    SetConditionIs(repo, FlowName(job.namespace, job.name), READY);
  }

  lemma SuccessInClusterWritesNothing(k: Constants, w: World, job: Job)
    requires IsJob(job) && SureOfJob(k, w, job) && Reconcile(k, w, job).outcome.Synced? && InCluster(k, w, job)
    ensures Reconcile(k, w, job).world.run.writes == w.run.writes
  {
    var fetched := Fetched(w, job);
    assert AllThere(k, fetched, job) by {
      forall v | v in Wants(k, job) ensures Trusted(fetched.run, v) { assert Sure(k, w, v); }
    }
    ObjectsFrame(k, fetched, job);
    ObjectsAreQuiet(k, fetched, job);
    var objects := SyncObjects(k, fetched, job).world;
    SameRepoStaysSure(w, objects, job.repo.org, job.repo.name);
    RepoInClusterWritesNothing(objects, job.repo.org, job.repo.name);
    var repo := SyncRepo(objects, job.repo.org, job.repo.name).state;
    SetConditionIs(repo, FlowName(job.namespace, job.name), READY);
  }

  lemma RepoInClusterWritesNothing(w: World, org: string, name: string)
    requires SureOfRepo(w, org, name) && Listed(Latest(w.source), org, name) && SyncRepo(w, org, name).ok
    ensures SyncRepo(w, org, name).state.run.writes == w.run.writes
  {
    if !Remembers(w.caches, org, name) {
      SourceIsQuiet(w, org, name);
      GitHubFrame(SyncSource(w, org, name).state, RepoName(org, name));
    }
  }

  /**
   After a success the Flow is Ready exactly when it was before, or when before the reconcile the cluster lacked
   something of what the Flow asks for and the fetched copy of the Flow did not say Ready; with a fresh copy, that is
   when it was before or the cluster lacked something.
   */
  lemma ReadyAfterSuccess(k: Constants, w: World, job: Job)
    requires IsJob(job) && SureOfJob(k, w, job) && Reconcile(k, w, job).outcome.Synced?
    ensures IsReady(Reconcile(k, w, job).world, job) <==>
      IsReady(w, job) || (!InCluster(k, w, job) && !FindsReady(w, job))
    ensures Fresh(w.run.plan) ==>
      (IsReady(Reconcile(k, w, job).world, job) <==> IsReady(w, job) || !InCluster(k, w, job))
  {
    SuccessReports(k, w, job);
    SyncedMeansDesired(k, w, job);
    if InCluster(k, w, job) { SuccessInClusterWritesNothing(k, w, job); }
  }

  // An undisturbed first reconcile gets as far as the EventSource.
  lemma ObjectsGetThere(k: Constants, w: World, job: Job, v: Want)
    requires IsJob(job) && Buildable(job) && w.run.plan == [] && w.caches == NO_CACHES && v in Wants(k, job)
    ensures var r := SyncObjects(k, w, job); Sure(k, r.world, v) && Holds(r.world.run.objects, v)
  {
    ObjectsFrame(k, w, job);
    JobFitsIn(k, job, v);
    ObjectsStaySure(k, w, job, v);
  }

  // And from there as far as GitHub.
  lemma SourceGetsThere(w: World, org: string, name: string)
    requires w.run.plan == [] && !Remembers(w.caches, org, name)
    requires w.source != [] ==> Latest(w.source).value.github.Some?
    requires RepoName(org, name) !in w.repos
    ensures var d := SyncRepo(w, org, name);
      && !d.ok && Listed(Latest(d.state.source), org, name) && SureOfRepo(d.state, org, name)
      && d.state.run.plan == [] && d.state.caches == w.caches
  {
    var source := SyncSource(w, org, name);
    SourceStaysSure(w, org, name, org, name);
    SourceFrame(w, org, name);
    GitHubStaysSure(source.state, org, name, org, name);
    GitHubFrame(source.state, RepoName(org, name));
    SyncRepositoryIs(
      GitHub(source.state.repos, source.state.githubWrites, source.state.run.plan), RepoName(org, name));
  }

  lemma FirstTryStopsAtGitHub(k: Constants, w: World, job: Job) returns (a: World)
    requires IsJob(job) && Buildable(job) && w.run.plan == [] && w.caches == NO_CACHES
    requires w.source != [] ==> Latest(w.source).value.github.Some?
    requires RepoName(job.repo.org, job.repo.name) !in w.repos
    ensures a == Reconcile(k, w, job).world && Reconcile(k, w, job).outcome.Failed?
    ensures InCluster(k, a, job) && a.conditions == w.conditions && a.run.plan == []
    ensures SureOfJob(k, a, job) && !Remembers(a.caches, job.repo.org, job.repo.name)
  {
    a := Reconcile(k, w, job).world;
    var fetched := Fetched(w, job);
    ObjectsFrame(k, fetched, job);
    var objects := SyncObjects(k, fetched, job).world;
    SourceGetsThere(objects, job.repo.org, job.repo.name);
    RepoFrame(objects, job.repo.org, job.repo.name);
    assert a == SyncRepo(objects, job.repo.org, job.repo.name).state;
    forall v | v in Wants(k, job) ensures Sure(k, a, v) && Holds(a.run.objects, v) {
      ObjectsGetThere(k, fetched, job, v);
      SameObjectsStaySure(k, objects, a, v);
    }
  }

  /**
   Success without Ready, for every buildable Flow that is not Ready: the app is not yet installed for its repository,
   so the first reconcile fails after it wrote to the cluster; once the app is installed, the retry succeeds, finds
   nothing to write, and does not report Ready.
   */
  lemma ASuccessThatIsNotReady(k: Constants, w: World, job: Job, repo: GitHubSettings.Repository) returns (a: World)
    requires IsJob(job) && Buildable(job) && w.run.plan == [] && w.caches == NO_CACHES && !IsReady(w, job)
    requires w.source != [] ==> Latest(w.source).value.github.Some?
    requires RepoName(job.repo.org, job.repo.name) !in w.repos
    ensures a.repos == Reconcile(k, w, job).world.repos[RepoName(job.repo.org, job.repo.name) := repo]
    ensures a == Reconcile(k, w, job).world.(repos := a.repos)
    ensures Reconcile(k, a, job).outcome.Synced? && !IsReady(Reconcile(k, a, job).world, job)
  {
    var first := FirstTryStopsAtGitHub(k, w, job);
    a := first.(repos := first.repos[RepoName(job.repo.org, job.repo.name) := repo]);
    assert SureOfJob(k, a, job) by { forall v | v in Wants(k, job) ensures Sure(k, a, v) { assert Sure(k, first, v); } }
    UndisturbedSucceeds(k, a, job);
    ReadyAfterSuccess(k, a, job);
  }
}

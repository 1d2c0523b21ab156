/** What the status of a Flow says after a reconcile, above all when the Flow cannot be built. */
module ReconcilerRejects {
  import opened Options
  import opened Faults
  import opened Cluster
  import opened FlowWants
  import opened ReconcilerModel
  import opened ReconcilerLaws
  import opened ReconcilerRuns
  import opened ReconcilerResults
  import FlowDefaulter
  import FlowProcessor
  import GitUrl
  import Steps
  import WorkflowCompiler

  /** What there is to say of a Flow; the first thing that fails decides. */
  function Verdict(job: Job): Condition {
    if !job.parses then Condition(false, "PreProcessFailed")
    else if !job.appsBuild then Condition(false, "AppBuildFailed")
    else if !job.sensor.Builds? then Condition(false, "SensorBuildFailed")
    else if !job.repo.Repo? then Condition(false, "EventSourceFailed")
    else Condition(true, "FlowSynced")
  }

  /**
   Nothing is said of a Flow with an application for another organisation, or with a dependency that crashes the
   compiler: its reconcile fails, and is tried again.
   */
  predicate GetsSaid(job: Job) {
    !job.parses || !job.appsBuild || (AllIn(job.applications, job.namespace) && !job.sensor.Crashes?)
  }

  predicate GetsRejected(job: Job) { GetsSaid(job) && !Verdict(job).status }

  function NameOf(job: Job): FlowName { FlowName(job.namespace, job.name) }

  predicate SameStatus(b: World, a: World) { a.conditions == b.conditions && a.held == b.held }

  /** No Flow's conditions changed, except that `c` may have been added to those of `name`. */
  ghost predicate SaysAtMost(b: World, a: World, name: FlowName, c: Condition) {
    && ConditionsOf(a, name) in {ConditionsOf(b, name), ConditionsOf(b, name) + [c]}
    && forall other | other != name :: ConditionsOf(a, other) == ConditionsOf(b, other)
  }

  /** Afterwards `c` is the newest condition, unless the fetched copy of the Flow was old and had it already. */
  predicate Recorded(b: World, a: World, name: FlowName, c: Condition) {
    HasCondition(a, name, c) <==> HasCondition(b, name, c) || !Shows(ConditionsOf(b, name), b.held, c)
  }

  // The current Flow has been fetched, and no call to come fails.
  predicate Undisturbed(b: World, name: FlowName) { b.run.plan == [] && b.held == |ConditionsOf(b, name)| }

  // A reconcile, or a last part of one that starts with the Flow fetched.
  ghost predicate Speaks(b: World, r: Result, job: Job) {
    && SaysAtMost(b, r.world, NameOf(job), Verdict(job))
    && (!GetsSaid(job) || Shows(ConditionsOf(b, NameOf(job)), b.held, Verdict(job)) ==>
          r.world.conditions == b.conditions)
    && (r.outcome.Rejected? ==> GetsRejected(job) && Recorded(b, r.world, NameOf(job), Verdict(job)))
    && (Undisturbed(b, NameOf(job)) ==> (r.outcome.Rejected? <==> GetsRejected(job)))
  }

  lemma RejectSpeaks(w: World, job: Job, reason: string)
    requires GetsSaid(job) && Verdict(job) == Condition(false, reason)
    ensures Speaks(w, Reject(w, job, reason), job) && !Reject(w, job, reason).outcome.Synced?
  {
    SetConditionIs(w, NameOf(job), Condition(false, reason));
  }

  lemma QuietSpeaks(b: World, r: Result, job: Job)
    requires SameStatus(b, r.world) && !r.outcome.Rejected?
    requires Undisturbed(b, NameOf(job)) ==> !GetsRejected(job)
    ensures Speaks(b, r, job)
  {
  }

  lemma SpeaksLater(b: World, m: World, r: Result, job: Job)
    requires SameStatus(b, m) && Speaks(m, r, job)
    requires (b.run.plan == [] ==> m.run.plan == []) || !GetsRejected(job)
    ensures Speaks(b, r, job)
  {
  }

  lemma SensorSpeaks(w: World, job: Job)
    requires job.parses && job.appsBuild && AllIn(job.applications, job.namespace) && !job.sensor.Builds?
    ensures Speaks(w, SyncSensor(w, job), job)
  {
    var (fetched, got) := Get(w.run, job.sensorWant.key);
    var w' := w.(run := fetched);
    if job.sensor.Errs? && !got.Error? {
      RejectSpeaks(w', job, "SensorBuildFailed");
      SpeaksLater(w, w', SyncSensor(w, job), job);
    } else {
      QuietSpeaks(w, SyncSensor(w, job), job);
    }
  }

  lemma AppsAndSensorSpeak(k: Constants, w: World, job: Job)
    requires job.parses && job.appsBuild && !ObjectsBuild(job)
    ensures Speaks(w, SyncAppsAndSensor(k, w, job), job)
  {
    var r, projects := SyncAppsAndSensor(k, w, job), SyncProjects(k, w, job.orgs);
    ProjectsFrame(k, w, job.orgs);
    var apps := SyncOwned(projects.state.run, job.applications, job.namespace);
    SyncOwnedCounts(projects.state.run, job.applications, job.namespace);
    if projects.ok && apps.ok {
      SensorSpeaks(projects.state.(run := apps.state), job);
      SpeaksLater(w, projects.state.(run := apps.state), r, job);
    } else {
      QuietSpeaks(w, r, job);
    }
  }

  lemma ObjectsSpeak(k: Constants, w: World, job: Job)
    requires job.parses && !ObjectsBuild(job)
    ensures Speaks(w, SyncObjects(k, w, job), job)
  {
    var r, ns := SyncObjects(k, w, job), SyncNamespace(k, w, job.namespace);
    SyncListCounts(w.run, NamespaceWants(k, job.namespace));
    if !ns.ok {
      QuietSpeaks(w, r, job);
    } else {
      if job.appsBuild {
        AppsAndSensorSpeak(k, ns.state, job);
      } else {
        RejectSpeaks(ns.state, job, "AppBuildFailed");
      }
      SpeaksLater(w, ns.state, r, job);
    }
  }

  lemma ReportSpeaks(w: World, job: Job, drift: bool)
    requires GetsSaid(job) && Verdict(job) == Condition(true, "FlowSynced")
    ensures Speaks(w, Report(w, job, drift), job)
  {
    if drift { SetConditionIs(w, NameOf(job), READY); }
  }

  lemma RestSpeaks(w: World, before: World, job: Job)
    requires job.parses && ObjectsBuild(job)
    ensures Speaks(w, SyncRest(w, before, job), job)
  {
    if job.repo.Repo? {
      var repo, r := SyncRepo(w, job.repo.org, job.repo.name), SyncRest(w, before, job);
      RepoFrame(w, job.repo.org, job.repo.name);
      if repo.ok {
        ReportSpeaks(repo.state, job, repo.state.run.writes > before.run.writes);
        SpeaksLater(w, repo.state, r, job);
      } else {
        QuietSpeaks(w, r, job);
      }
    } else {
      RejectSpeaks(w, job, "EventSourceFailed");
    }
  }

  /**
   Whichever calls fail and whichever reads are stale, a reconcile adds at most the verdict on its Flow to the status
   of that Flow, and touches no other. A Flow is rejected only for its verdict, which then is in the status; and it is
   rejected exactly for that if no call fails.
   */
  lemma ReconcileSpeaks(k: Constants, w: World, job: Job)
    ensures FetchFlow(w, NameOf(job)).ok ==> Speaks(Fetched(w, job), Reconcile(k, w, job), job)
    ensures !FetchFlow(w, NameOf(job)).ok ==>
      Reconcile(k, w, job).outcome.Failed? && Reconcile(k, w, job).world.conditions == w.conditions
  {
    var fetched, r := FetchFlow(w, NameOf(job)), Reconcile(k, w, job);
    if fetched.ok {
      var objects := SyncObjects(k, fetched.state, job);
      if !job.parses {
        RejectSpeaks(fetched.state, job, "PreProcessFailed");
      } else if ObjectsBuild(job) {
        ObjectsFrame(k, fetched.state, job);
        if objects.outcome.Synced? {
          RestSpeaks(objects.world, w, job);
          SpeaksLater(fetched.state, objects.world, r, job);
        } else {
          QuietSpeaks(fetched.state, r, job);
        }
      } else {
        ObjectsFrame(k, fetched.state, job);
        ObjectsSpeak(k, fetched.state, job);
      }
    }
  }

  // ------------------------------------------------------------------ what that means for the Flow

  /** The newest condition of a Flow. */
  predicate Newest(w: World, name: FlowName, status: bool, reason: string) {
    ConditionsOf(w, name) != [] && ConditionsOf(w, name)[|ConditionsOf(w, name)| - 1] == Condition(status, reason)
  }

  /** A Flow that cannot be built is never made Ready, and no other Flow's status is touched. */
  lemma UnbuildableIsNotMadeReady(k: Constants, w: World, job: Job)
    ensures var a := Reconcile(k, w, job).world;
      && (!Buildable(job) && Newest(a, NameOf(job), true, "FlowSynced") ==>
            Newest(w, NameOf(job), true, "FlowSynced"))
      && forall name | name != NameOf(job) :: ConditionsOf(a, name) == ConditionsOf(w, name)
  {
    ReconcileSpeaks(k, w, job);
  }

  /**
   A rejection that reads nothing stale leaves the Flow not Ready, for the first of the four reasons that applies; and
   without failing calls a Flow is rejected exactly when one applies.
   */
  lemma RejectionsSayWhy(k: Constants, w: World, job: Job) returns (reason: string)
    ensures var r := Reconcile(k, w, job);
      r.outcome.Rejected? && Fresh(w.run.plan) ==> Newest(r.world, NameOf(job), false, reason)
    ensures reason == "PreProcessFailed" <==> !job.parses
    ensures reason == "AppBuildFailed" <==> job.parses && !job.appsBuild
    ensures reason == "SensorBuildFailed" <==> job.parses && job.appsBuild && !job.sensor.Builds?
    ensures reason == "EventSourceFailed" <==>
      job.parses && job.appsBuild && job.sensor.Builds? && !job.repo.Repo?
    ensures w.run.plan == [] ==>
      (Reconcile(k, w, job).outcome.Rejected? <==>
         || !job.parses || !job.appsBuild
         || (AllIn(job.applications, job.namespace)
             && (job.sensor.Errs? || (job.sensor.Builds? && !job.repo.Repo?))))
  {
    reason := Verdict(job).reason;
    ReconcileSpeaks(k, w, job);
  }

  lemma StepMakesReady(k: Constants, w: World, e: Event, name: FlowName)
    requires Newest(Step(k, w, e), name, true, "FlowSynced")
    ensures || Newest(w, name, true, "FlowSynced")
            || (e.Reconciling? && NameOf(e.job) == name && Buildable(e.job))
  {
    if e.Reconciling? { UnbuildableIsNotMadeReady(k, w.(run := w.run.(plan := e.plan)), e.job); }
  }

  /** What the newest condition says already is not said again, unless the copy of the Flow that is read is old. */
  lemma NothingIsSaidTwice(k: Constants, w: World, job: Job, reason: string)
    requires Fresh(w.run.plan) && Newest(w, NameOf(job), false, reason)
    requires Reconcile(k, w, job).outcome.Rejected? && Newest(Reconcile(k, w, job).world, NameOf(job), false, reason)
    ensures Reconcile(k, w, job).world.conditions == w.conditions
  {
    ReconcileSpeaks(k, w, job);
  }

  lemma NewRejectTakesTwoCalls(w: World, job: Job, reason: string, b: Fault, c: Fault, rest: Plan)
    requires w.run.plan == [b, c] + rest && !b.Stale? && !c.Stale?
    requires w.held == |ConditionsOf(w, NameOf(job))| && !Newest(w, NameOf(job), false, reason)
    ensures var r := Reject(w, job, reason);
      && r.outcome == (if b.NoFault? && c.NoFault? then Rejected else Failed)
      && (Newest(r.world, NameOf(job), false, reason) <==> !b.FailBefore?)
  {
    assert w.run.plan[0] == b && w.run.plan[1..] == [c] + rest;
    assert ([c] + rest)[0] == c;
  }

  /**
   A rejection that is new takes three calls, of which none may fail: it fetches the Flow, updates its status and
   fetches it again. If one fails the Flow is retried, and its status has the rejection if the update took effect.
   */
  lemma NewRejectionsTakeThreeCalls(k: Constants, w: World, job: Job, a: Fault, b: Fault, c: Fault, rest: Plan)
    requires !job.parses && w.run.plan == [a, b, c] + rest && !a.Stale? && !b.Stale? && !c.Stale?
    requires !Newest(w, NameOf(job), false, "PreProcessFailed")
    ensures var r := Reconcile(k, w, job);
      && r.outcome == (if a.NoFault? && b.NoFault? && c.NoFault? then Rejected else Failed)
      && (Newest(r.world, NameOf(job), false, "PreProcessFailed") <==> a.NoFault? && !b.FailBefore?)
  {
    assert w.run.plan[0] == a && w.run.plan[1..] == [b, c] + rest;
    if a.NoFault? { NewRejectTakesTwoCalls(Fetched(w, job), job, "PreProcessFailed", b, c, rest); }
  }

  /** A Flow that preprocesses: triggers and steps of known kinds, and no pull request trigger without any event. */
  predicate IsWellFormed(flow: Flow) {
    && flow.decodes && flow.triggers != [] && flow.steps != []
    && (forall t <- flow.triggers :: t.kind.Push? || (t.kind.PullRequest? && t.events != Some([])))
    && (forall s <- flow.steps :: !s.kind.UnknownStep?)
  }

  // An ArgoCD step whose repository url does not parse.
  predicate SomeBadUrl(steps: seq<Steps.Step>) {
    exists s <- steps :: s.ArgoCD? && !GitUrl.GetRepoOrgName(s.repoUrl).Repo?
  }

  predicate MixedTriggers(triggers: seq<FlowDefaulter.Trigger>) {
    exists i, j :: 0 <= i < j < |triggers| && triggers[i].kind != triggers[j].kind
  }

  lemma OneKindIsNotMixed(triggers: seq<FlowDefaulter.Trigger>, given: seq<FlowDefaulter.Trigger>)
    requires |triggers| == |given| && forall i | 0 <= i < |given| :: triggers[i].kind == given[i].kind
    ensures OneKind(triggers) <==> !MixedTriggers(given)
  {
    if i, j :| 0 <= i < j < |given| && given[i].kind != given[j].kind {
      assert triggers[i] in triggers && triggers[j] in triggers;
    }
    if !MixedTriggers(given) {
      forall t, u | t in triggers && u in triggers ensures t.kind == u.kind {
        var i :| 0 <= i < |triggers| && triggers[i] == t;
        var j :| 0 <= j < |triggers| && triggers[j] == u;
        assert given[i].kind == given[j].kind;
      }
    }
  }

  /** The four reasons in terms of the Flow: each is given exactly when it is the first that applies. */
  lemma FlowsAreRejectedFor(k: Constants, flow: Flow)
    ensures ProcessedOf(flow).Some? <==> IsWellFormed(flow)
    ensures var reason := Verdict(JobOf(k, flow)).reason;
      && (reason == "PreProcessFailed" <==> !IsWellFormed(flow))
      && (IsWellFormed(flow) ==>
            var steps := ProcessedOf(flow).value.steps;
            && (reason == "AppBuildFailed" <==> SomeBadUrl(steps))
            && (reason == "SensorBuildFailed" <==>
                  !SomeBadUrl(steps) && (MixedTriggers(flow.triggers) || WorkflowCompiler.Compile(steps).Rejected?))
            && (reason == "EventSourceFailed" <==>
                  && !SomeBadUrl(steps) && !MixedTriggers(flow.triggers) && WorkflowCompiler.Compile(steps).Compiled?
                  && !GitUrl.GetRepoOrgName(flow.triggers[0].repoUrl).Repo?))
  {
    FlowProcessor.PreprocessesExactly(flow.deadline, flow.triggers, flow.steps);
    if IsWellFormed(flow) {
      FlowProcessor.ProcessedSaysWhatIsGiven(flow.deadline, flow.triggers, flow.steps);
      OneKindIsNotMixed(ProcessedOf(flow).value.triggers, flow.triggers);
    }
  }

  /** Whatever a run does, and whatever fails in it, a Flow is Ready at its end only if it was or could be built. */
  lemma {:induction false} ReadyFlowsWereBuilt(k: Constants, w: World, events: seq<Event>, name: FlowName)
    requires Newest(Play(k, w, events), name, true, "FlowSynced")
    ensures || Newest(w, name, true, "FlowSynced")
            || exists e <- events :: e.Reconciling? && NameOf(e.job) == name && Buildable(e.job)
  {
    if events != [] {
      var front, last := events[..|events| - 1], events[|events| - 1];
      StepMakesReady(k, Play(k, w, front), last, name);
      if Newest(Play(k, w, front), name, true, "FlowSynced") {
        ReadyFlowsWereBuilt(k, w, front, name);
        assert forall e <- front :: e in events;
      } else {
        assert last in events;
      }
    }
  }

  // ------------------------------------------------------------------ what is there nevertheless

  lemma RejectedAppsAndSensor(k: Constants, w: World, job: Job, v: Want)
    requires Sure(k, w, v) && FitsIn(OrgWants(k, job.orgs), v) && FitsIn(job.applications, v)
    requires SyncAppsAndSensor(k, w, job).outcome.Rejected?
    ensures var a := SyncAppsAndSensor(k, w, job).world;
      && (Holds(w.run.objects, v) ==> Holds(a.run.objects, v))
      && (v in OrgWants(k, job.orgs) || v in job.applications ==> Holds(a.run.objects, v))
  {
    var projects := SyncProjects(k, w, job.orgs);
    ProjectsStaySure(k, w, job.orgs, v);
    var apps := SyncOwned(projects.state.run, job.applications, job.namespace);
    SyncOwnedKeeps(projects.state.run, job.applications, job.namespace, v);
    var w' := projects.state.(run := apps.state);
    assert SyncAppsAndSensor(k, w, job) == SyncSensor(w', job);
    SensorEndsQuietly(w', job);
  }

  lemma SensorEndsQuietly(w: World, job: Job)
    requires SyncSensor(w, job).outcome.Rejected?
    ensures SyncSensor(w, job).world.run.objects == w.run.objects
  {
    SetConditionIs(
      w.(run := Get(w.run, job.sensorWant.key).0), NameOf(job), Condition(false, "SensorBuildFailed"));
  }

  lemma RejectedObjects(k: Constants, w: World, job: Job, v: Want)
    requires Sure(k, w, v) && FitsIn(Wants(k, job), v) && SyncObjects(k, w, job).outcome.Rejected?
    ensures var a := SyncObjects(k, w, job).world;
      && (v in NamespaceWants(k, job.namespace) ==> Holds(a.run.objects, v))
      && (job.appsBuild && (v in OrgWants(k, job.orgs) || v in job.applications) ==> Holds(a.run.objects, v))
  {
    FitsInParts(k, job, v);
    var ns := SyncNamespace(k, w, job.namespace);
    NamespaceStaysSure(k, w, job.namespace, v);
    if job.appsBuild {
      RejectedAppsAndSensor(k, ns.state, job, v);
    } else {
      SetConditionIs(ns.state, NameOf(job), Condition(false, "AppBuildFailed"));
    }
  }

  // What the job shares with the other Flows of its namespace and organisations, and its applications.
  function BesidesSensor(k: Constants, job: Job): seq<Want> {
    NamespaceWants(k, job.namespace) + OrgWants(k, job.orgs) + job.applications
  }

  /**
   How far a rejected Flow gets: a Flow that does not preprocess touches no object; one whose applications do not build
   has its namespace set up; one whose sensor does not build has its projects and applications as well; and one
   without a repository has its sensor too. Neither the EventSource nor GitHub is touched.
   */
  lemma RejectedFlowsGetThisFar(k: Constants, w: World, job: Job, v: Want)
    requires IsJob(job) && Reconcile(k, w, job).outcome.Rejected?
    requires v in Wants(k, job) && Sure(k, w, v)
    ensures var a := Reconcile(k, w, job).world;
      && a.source == w.source && a.repos == w.repos && a.githubWrites == w.githubWrites
      && (!job.parses ==> a.run.objects == w.run.objects && a.run.writes == w.run.writes)
      && (job.parses && v in NamespaceWants(k, job.namespace) ==> Holds(a.run.objects, v))
      && (job.parses && job.appsBuild && v in BesidesSensor(k, job) ==> Holds(a.run.objects, v))
      && (job.parses && ObjectsBuild(job) ==> Holds(a.run.objects, v))
  {
    var fetched := Fetched(w, job);
    JobFitsIn(k, job, v);
    SameObjectsStaySure(k, w, fetched, v);
    if !job.parses {
      SetConditionIs(fetched, NameOf(job), Condition(false, "PreProcessFailed"));
    } else {
      ObjectsFrame(k, fetched, job);
      var objects := SyncObjects(k, fetched, job);
      if objects.outcome.Synced? {
        ObjectsStaySure(k, fetched, job, v);
        RestIsRejected(objects.world, w, job);
      } else {
        RejectedObjects(k, fetched, job, v);
        ReconcileSpeaks(k, w, job);
      }
    }
  }

  lemma RestIsRejected(w: World, before: World, job: Job)
    requires SyncRest(w, before, job).outcome.Rejected?
    ensures var a := SyncRest(w, before, job).world;
      a.source == w.source && a.repos == w.repos && a.githubWrites == w.githubWrites && a.run.objects == w.run.objects
  {
    SetConditionIs(w, NameOf(job), Condition(false, "EventSourceFailed"));
  }
}

/** What the caches are for: what a reconcile has seen to once costs the later ones of the same controller no call. */
module CachedCalls {
  import opened Faults
  import opened Cluster
  import opened FlowWants
  import opened ReconcilerModel
  import opened ReconcilerLaws
  import opened ReconcilerRuns
  import opened GitHubServer
  import opened StaleBinding

  /** All that the job shares with others has been seen to. */
  predicate Remembered(c: Caches, job: Job) {
    && job.namespace in c.namespaces && (forall org <- job.orgs :: org in c.projects)
    && job.repo.Repo? && Remembers(c, job.repo.org, job.repo.name)
  }

  // Nothing is forgotten.
  ghost predicate Grow(b: Caches, a: Caches) {
    && b.namespaces <= a.namespaces && b.projects <= a.projects
    && forall org, name | Remembers(b, org, name) :: Remembers(a, org, name)
  }

  lemma {:induction false} ProjectsAreRemembered(k: Constants, w: World, orgs: seq<string>)
    ensures var d := SyncProjects(k, w, orgs);
      && Grow(w.caches, d.state.caches) && d.state.caches.namespaces == w.caches.namespaces
      && (d.ok ==> forall org <- orgs :: org in d.state.caches.projects)
    decreases |orgs|
  {
    if orgs != [] {
      assert orgs == [orgs[0]] + orgs[1..];
      if orgs[0] in w.caches.projects {
        ProjectsAreRemembered(k, w, orgs[1..]);
      } else {
        var synced := SyncOne(w.run, OrgWant(k, orgs[0]));
        if synced.ok {
          var caches := w.caches.(projects := w.caches.projects + {orgs[0]});
          ProjectsAreRemembered(k, w.(run := synced.state, caches := caches), orgs[1..]);
        }
      }
    }
  }

  lemma SensorRemembersNothing(w: World, job: Job)
    ensures SyncSensor(w, job).world.caches == w.caches
  {
    var fetched := Get(w.run, job.sensorWant.key).0;
    SetConditionIs(
      w.(run := fetched), FlowName(job.namespace, job.name), Condition(false, "SensorBuildFailed"));
  }

  lemma AppsAndSensorAreRemembered(k: Constants, w: World, job: Job)
    ensures var r := SyncAppsAndSensor(k, w, job);
      && Grow(w.caches, r.world.caches)
      && (r.outcome.Synced? ==> forall org <- job.orgs :: org in r.world.caches.projects)
  {
    ProjectsAreRemembered(k, w, job.orgs);
    var projects := SyncProjects(k, w, job.orgs);
    if projects.ok {
      var apps := SyncOwned(projects.state.run, job.applications, job.namespace);
      if apps.ok { SensorRemembersNothing(projects.state.(run := apps.state), job); }
    }
  }

  lemma ObjectsAreRemembered(k: Constants, w: World, job: Job)
    ensures var r := SyncObjects(k, w, job);
      && Grow(w.caches, r.world.caches)
      && (r.outcome.Synced? ==>
            job.namespace in r.world.caches.namespaces && forall org <- job.orgs :: org in r.world.caches.projects)
  {
    var ns := SyncNamespace(k, w, job.namespace);
    if ns.ok {
      assert job.namespace in ns.state.caches.namespaces;
      if job.appsBuild {
        AppsAndSensorAreRemembered(k, ns.state, job);
      } else {
        SetConditionIs(ns.state, FlowName(job.namespace, job.name), Condition(false, "AppBuildFailed"));
      }
    }
  }

  lemma RepoIsRemembered(w: World, org: string, name: string)
    ensures var d := SyncRepo(w, org, name);
      Grow(w.caches, d.state.caches) && (d.ok ==> Remembers(d.state.caches, org, name))
  {
    if !Remembers(w.caches, org, name) {
      SourceFrame(w, org, name);
      var source := SyncSource(w, org, name);
      if source.ok { GitHubFrame(source.state, RepoName(org, name)); }
    }
  }

  lemma RestIsRemembered(w: World, before: World, job: Job)
    ensures var r := SyncRest(w, before, job);
      && Grow(w.caches, r.world.caches)
      && (r.outcome.Synced? ==> job.repo.Repo? && Remembers(r.world.caches, job.repo.org, job.repo.name))
  {
    if job.repo.Repo? {
      RepoIsRemembered(w, job.repo.org, job.repo.name);
      var repo := SyncRepo(w, job.repo.org, job.repo.name).state;
      SetConditionIs(repo, FlowName(job.namespace, job.name), READY);
    } else {
      SetConditionIs(w, FlowName(job.namespace, job.name), Condition(false, "EventSourceFailed"));
    }
  }

  /** A success is remembered, and no reconcile forgets anything. */
  lemma SuccessIsRemembered(k: Constants, w: World, job: Job)
    ensures var r := Reconcile(k, w, job);
      Grow(w.caches, r.world.caches) && (r.outcome.Synced? ==> Remembered(r.world.caches, job))
  {
    var fetched := FetchFlow(w, FlowName(job.namespace, job.name));
    if fetched.ok {
      if job.parses {
        ObjectsAreRemembered(k, fetched.state, job);
        var objects := SyncObjects(k, fetched.state, job);
        if objects.outcome.Synced? { RestIsRemembered(objects.world, w, job); }
      } else {
        SetConditionIs(fetched.state, FlowName(job.namespace, job.name), Condition(false, "PreProcessFailed"));
      }
    }
  }

  /** What has been seen to stays remembered until the controller restarts. */
  lemma {:induction false} OnlyRestartsForget(k: Constants, w: World, events: seq<Event>, job: Job)
    requires Remembered(w.caches, job) && forall e <- events :: e.Reconciling?
    ensures Remembered(Play(k, w, events).caches, job)
    decreases |events|
  {
    if events != [] {
      var front, last := events[..|events| - 1], events[|events| - 1];
      assert last in events && forall e <- front :: e in events;
      OnlyRestartsForget(k, w, front, job);
      var m := Play(k, w, front);
      SuccessIsRemembered(k, m.(run := m.run.(plan := last.plan)), last.job);
    }
  }

  // ------------------------------------------------------------------ what a reconcile then costs

  lemma {:induction false} RememberedProjectsAreSkipped(k: Constants, w: World, orgs: seq<string>)
    requires forall org <- orgs :: org in w.caches.projects
    ensures SyncProjects(k, w, orgs) == Done(w, true)
    decreases |orgs|
  {
    if orgs != [] {
      assert orgs[0] in orgs && forall org <- orgs[1..] :: org in orgs;
      RememberedProjectsAreSkipped(k, w, orgs[1..]);
    }
  }

  lemma {:induction false} HoldingOwnedTakeOneCallEach(run: Run, wants: seq<Want>, namespace: string, rest: Plan)
    requires run.plan == NoFaults(|wants|) + rest && AllIn(wants, namespace)
    requires forall w <- wants :: Holds(run.objects, w)
    ensures SyncOwned(run, wants, namespace) == Done(run.(plan := rest), true)
    decreases |wants|
  {
    if wants == [] {
      assert NoFaults(0) + rest == rest;
    } else {
      TakeOne(|wants|, rest);
      var next := run.(plan := NoFaults(|wants| - 1) + rest);
      assert wants[0] in wants && Holds(run.objects, wants[0]);
      HoldingTakesOneRead(run, wants[0]);
      forall w | w in wants[1..] ensures Holds(next.objects, w) && w.key.namespace == namespace { assert w in wants; }
      HoldingOwnedTakeOneCallEach(next, wants[1..], namespace, rest);
    }
  }

  // The applications and the sensor, which no cache remembers.
  predicate OwnHold(w: World, job: Job) {
    (forall v <- job.applications :: Holds(w.run.objects, v)) && Holds(w.run.objects, job.sensorWant)
  }

  lemma RememberedObjectsAreSkipped(k: Constants, w: World, job: Job, rest: Plan)
    requires ObjectsBuild(job) && job.namespace in w.caches.namespaces
    requires (forall org <- job.orgs :: org in w.caches.projects) && OwnHold(w, job)
    requires w.run.plan == NoFaults(|job.applications| + 1) + rest
    ensures SyncObjects(k, w, job) == Result(w.(run := w.run.(plan := rest)), Synced)
  {
    var more := NoFaults(1) + rest;
    assert NoFaults(|job.applications| + 1) + rest == NoFaults(|job.applications|) + more;
    RememberedProjectsAreSkipped(k, w, job.orgs);
    HoldingOwnedTakeOneCallEach(w.run, job.applications, job.namespace, more);
    TakeOne(1, rest);
    assert NoFaults(0) + rest == rest;
    HoldingTakesOneRead(w.run.(plan := more), job.sensorWant);
  }

  /**
   A reconcile of a remembered Flow that finds its applications and its sensor as they should be makes one call for
   the Flow, one for each application and one for the sensor. It looks at nothing else.
   */
  lemma RememberedFlowsCostLittle(k: Constants, w: World, job: Job, rest: Plan)
    requires Buildable(job) && Remembered(w.caches, job) && OwnHold(w, job)
    requires w.run.plan == NoFaults(2 + |job.applications|) + rest
    ensures var r := Reconcile(k, w, job);
      r == Result(w.(run := w.run.(plan := rest), held := r.world.held), Synced)
  {
    TakeOne(2 + |job.applications|, rest);
    var fetched := FetchFlow(w, FlowName(job.namespace, job.name)).state;
    RememberedObjectsAreSkipped(k, fetched, job, rest);
  }
}

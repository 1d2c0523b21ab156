/** What a reconcile keeps and what it brings about, one want and one repository at a time. */
module ReconcilerLaws {
  import opened Options
  import opened Faults
  import opened Cluster
  import opened FlowWants
  import opened EventSourceMerge
  import opened GitHubServer
  import opened ReconcilerModel
  import GitHubSettings

  // ------------------------------------------------------------------ one want

  /** A cache claims that `v` is as wanted. */
  ghost predicate Claimed(k: Constants, c: Caches, v: Want) {
    (exists ns <- c.namespaces :: v in NamespaceWants(k, ns)) || (exists org <- c.projects :: v == OrgWant(k, org))
  }

  /** What the caches claim of `v` is true. */
  ghost predicate SoundAbout(k: Constants, w: World, v: Want) {
    Claimed(k, w.caches, v) ==> Holds(w.run.objects, v)
  }

  /** What can be relied on about `v`: its reads, and what the caches say. */
  ghost predicate Sure(k: Constants, w: World, v: Want) { Trusted(w.run, v) && SoundAbout(k, w, v) }

  ghost predicate StaysSure(k: Constants, b: World, a: World, v: Want) { Keeps(b.run, a.run, v) && Sure(k, a, v) }

  lemma NamespaceStaysSure(k: Constants, w: World, ns: string, v: Want)
    requires Sure(k, w, v) && FitsIn(NamespaceWants(k, ns), v)
    ensures var d := SyncNamespace(k, w, ns);
      StaysSure(k, w, d.state, v) && (d.ok && v in NamespaceWants(k, ns) ==> Holds(d.state.run.objects, v))
  {
    if ns !in w.caches.namespaces { SyncListKeeps(w.run, NamespaceWants(k, ns), v); }
  }

  lemma {:induction false} ProjectsStaySure(k: Constants, w: World, orgs: seq<string>, v: Want)
    requires Sure(k, w, v) && FitsIn(OrgWants(k, orgs), v)
    ensures var d := SyncProjects(k, w, orgs);
      StaysSure(k, w, d.state, v) && (d.ok && v in OrgWants(k, orgs) ==> Holds(d.state.run.objects, v))
    decreases |orgs|
  {
    if orgs != [] {
      assert OrgWants(k, orgs) == [OrgWant(k, orgs[0])] + OrgWants(k, orgs[1..]);
      assert FitsIn(OrgWants(k, orgs[1..]), v) && (OrgWant(k, orgs[0]).key == v.key ==> OrgWant(k, orgs[0]) == v) by {
        assert forall u <- OrgWants(k, orgs[1..]) :: u in OrgWants(k, orgs);
        assert OrgWant(k, orgs[0]) in OrgWants(k, orgs);
      }
      if orgs[0] in w.caches.projects {
        ProjectsStaySure(k, w, orgs[1..], v);
      } else {
        var synced := SyncOne(w.run, OrgWant(k, orgs[0]));
        SyncOneKeeps(w.run, OrgWant(k, orgs[0]), v);
        if synced.ok {
          var w' := w.(run := synced.state, caches := w.caches.(projects := w.caches.projects + {orgs[0]}));
          ProjectsStaySure(k, w', orgs[1..], v);
          KeepsThen(w.run, synced.state, SyncProjects(k, w', orgs[1..]).state.run, v);
        }
      }
    }
  }

  // Steps that touch no object.
  predicate SameObjects(b: World, a: World) {
    && a.run.objects == b.run.objects
    && a.caches.namespaces == b.caches.namespaces && a.caches.projects == b.caches.projects
  }

  lemma SameObjectsStaySure(k: Constants, b: World, a: World, v: Want)
    requires Sure(k, b, v) && SameObjects(b, a) && (Fresh(b.run.plan) ==> Fresh(a.run.plan))
    ensures StaysSure(k, b, a, v)
  {
  }

  lemma ThenStaysSure(k: Constants, b: World, m: World, a: World, v: Want)
    requires Sure(k, b, v) && StaysSure(k, b, m, v) && StaysSure(k, m, a, v)
    ensures StaysSure(k, b, a, v)
  {
  }

  // The newest condition of a Flow.
  predicate HasCondition(w: World, name: FlowName, c: Condition) {
    Shows(ConditionsOf(w, name), |ConditionsOf(w, name)|, c)
  }

  lemma SetConditionIs(w: World, name: FlowName, c: Condition)
    ensures var d := SetCondition(w, name, c).state;
      && d == w.(run := w.run.(plan := d.run.plan), conditions := d.conditions)
      && (Fresh(w.run.plan) ==> Fresh(d.run.plan)) && (w.run.plan == [] ==> d.run.plan == [])
    ensures var d := SetCondition(w, name, c);
      d.ok ==>
        (HasCondition(d.state, name, c) <==> HasCondition(w, name, c) || !Shows(ConditionsOf(w, name), w.held, c))
    ensures w.run.plan == [] && w.held == |ConditionsOf(w, name)| ==> SetCondition(w, name, c).ok
  {
  }

  lemma SensorStaysSure(k: Constants, w: World, job: Job, v: Want)
    requires Sure(k, w, v) && (job.sensorWant.key == v.key ==> job.sensorWant == v)
    ensures var r := SyncSensor(w, job);
      StaysSure(k, w, r.world, v) && (r.outcome.Synced? && v == job.sensorWant ==> Holds(r.world.run.objects, v))
  {
    var (fetched, got) := Get(w.run, job.sensorWant.key);
    if job.sensor.Builds? {
      SyncOneKeeps(w.run, job.sensorWant, v);
    } else {
      SetConditionIs(w.(run := fetched), FlowName(job.namespace, job.name), Condition(false, "SensorBuildFailed"));
      SameObjectsStaySure(k, w, SyncSensor(w, job).world, v);
    }
  }

  lemma ObjectsStaySure(k: Constants, w: World, job: Job, v: Want)
    requires Sure(k, w, v) && FitsIn(Wants(k, job), v)
    ensures var r := SyncObjects(k, w, job);
      StaysSure(k, w, r.world, v) && (r.outcome.Synced? && v in Wants(k, job) ==> Holds(r.world.run.objects, v))
  {
    FitsInParts(k, job, v);
    var ns := SyncNamespace(k, w, job.namespace);
    NamespaceStaysSure(k, w, job.namespace, v);
    if ns.ok {
      if !job.appsBuild {
        SetConditionIs(ns.state, FlowName(job.namespace, job.name), Condition(false, "AppBuildFailed"));
      } else {
        AppsAndSensorStaySure(k, ns.state, job, v);
        var r := SyncObjects(k, w, job);
        ThenStaysSure(k, w, ns.state, r.world, v);
      }
    }
  }

  lemma AppsAndSensorStaySure(k: Constants, w: World, job: Job, v: Want)
    requires Sure(k, w, v) && FitsIn(OrgWants(k, job.orgs), v) && FitsIn(job.applications, v)
    requires job.sensorWant.key == v.key ==> job.sensorWant == v
    ensures var r := SyncAppsAndSensor(k, w, job);
      && StaysSure(k, w, r.world, v)
      && (r.outcome.Synced? && (v in OrgWants(k, job.orgs) || v in job.applications || v == job.sensorWant) ==>
            Holds(r.world.run.objects, v))
  {
    var projects := SyncProjects(k, w, job.orgs);
    ProjectsStaySure(k, w, job.orgs, v);
    if projects.ok {
      var apps := SyncOwned(projects.state.run, job.applications, job.namespace);
      SyncOwnedKeeps(projects.state.run, job.applications, job.namespace, v);
      var w' := projects.state.(run := apps.state);
      assert StaysSure(k, projects.state, w', v);
      ThenStaysSure(k, w, projects.state, w', v);
      if apps.ok {
        SensorStaysSure(k, w', job, v);
        ThenStaysSure(k, w, w', SyncSensor(w', job).world, v);
      }
    }
  }

  lemma FitsInParts(k: Constants, job: Job, v: Want)
    requires FitsIn(Wants(k, job), v)
    ensures FitsIn(NamespaceWants(k, job.namespace), v)
    ensures FitsIn(OrgWants(k, job.orgs), v) && FitsIn(job.applications, v)
    ensures job.sensorWant.key == v.key ==> job.sensorWant == v
  {
    var all := Wants(k, job);
    assert forall w <- NamespaceWants(k, job.namespace) :: w in all;
    assert forall w <- OrgWants(k, job.orgs) :: w in all;
    assert forall w <- job.applications :: w in all;
    assert job.sensorWant in all;
  }

  // ------------------------------------------------------------------ one repository

  /** A merge would find nothing to do. */
  predicate Listed(source: Option<Source>, org: string, name: string) {
    source.Some? && MergeOutcome(source.value, org, name).Unneeded?
  }

  predicate RepoConforms(repos: Repositories, org: string, name: string) {
    RepoName(org, name) in repos && GitHubSettings.Conforms(repos[RepoName(org, name)])
  }

  /** Every version since the first that lists the repository lists it. */
  ghost predicate SourceSteady(source: seq<Source>, org: string, name: string) {
    forall i, j | 0 <= i <= j < |source| :: Listed(Some(source[i]), org, name) ==> Listed(Some(source[j]), org, name)
  }

  predicate SeenTo(w: World, org: string, name: string) {
    Listed(Latest(w.source), org, name) && RepoConforms(w.repos, org, name)
  }

  ghost predicate SureOfRepo(w: World, org: string, name: string) {
    && (Fresh(w.run.plan) || SourceSteady(w.source, org, name))
    && (Remembers(w.caches, org, name) ==> SeenTo(w, org, name))
  }

  ghost predicate StaysSureOfRepo(b: World, a: World, org: string, name: string) {
    && (Fresh(b.run.plan) ==> Fresh(a.run.plan))
    && (SourceSteady(b.source, org, name) ==> SourceSteady(a.source, org, name))
    && (Listed(Latest(b.source), org, name) ==> Listed(Latest(a.source), org, name))
    && (RepoConforms(b.repos, org, name) ==> RepoConforms(a.repos, org, name))
    && SureOfRepo(a, org, name)
  }

  lemma ThenStaysSureOfRepo(b: World, m: World, a: World, org: string, name: string)
    requires StaysSureOfRepo(b, m, org, name) && StaysSureOfRepo(m, a, org, name)
    ensures StaysSureOfRepo(b, a, org, name)
  {
  }

  lemma FirstOfIs(repos: seq<OwnedRepos>, org: string, i: nat)
    requires i < |repos| && repos[i].owner == org && forall j :: 0 <= j < i ==> repos[j].owner != org
    ensures FirstOf(repos, org) == i
  {
  }

  lemma MergeKeepsListed(s: Source, org: string, name: string, o: string, n: string)
    requires s.github.Some? && Listed(Some(s), o, n)
    ensures Listed(Some(Merge(s, org, name)), o, n)
  {
    var repos := SectionOf(s).repositories;
    var merged := MergeRepos(repos, org, name);
    if NeedsMerge(repos, org, name) {
      assert SectionOf(Merge(s, org, name)).repositories == merged;
      var i := FirstOf(repos, o);
      assert merged[i].owner == o && n in merged[i].names;
      assert forall j :: 0 <= j < i ==> merged[j].owner == repos[j].owner;
      FirstOfIs(merged, o, i);
    }
  }

  lemma MergedIsListed(s: Source, org: string, name: string)
    requires s.github.Some?
    ensures Listed(Some(Merge(s, org, name)), org, name)
  {
    MergeIsIdempotent(s, org, name);
  }

  lemma BuiltIsListed(org: string, name: string)
    ensures Listed(Some(BuildEventSource(org, name)), org, name)
  {
    assert SectionOf(BuildEventSource(org, name)).repositories == [OwnedRepos(org, [name])];
    FirstOfIs([OwnedRepos(org, [name])], org, 0);
  }

  // A write of the EventSource that loses nothing.
  lemma WriteKeepsRepo(w: World, s: Source, accepted: bool, org: string, name: string)
    requires SureOfRepo(w, org, name)
    requires accepted && Listed(Latest(w.source), org, name) ==> Listed(Some(s), org, name)
    ensures StaysSureOfRepo(w, WriteSource(w, s, accepted).state, org, name)
  {
    var a := WriteSource(w, s, accepted).state;
    if a.source == w.source + [s] && SourceSteady(w.source, org, name) {
      forall i, j | 0 <= i <= j < |a.source| && Listed(Some(a.source[i]), org, name)
        ensures Listed(Some(a.source[j]), org, name)
      {
        if j == |w.source| && i < j { assert Listed(Some(w.source[j - 1]), org, name); }
      }
    }
  }

  lemma MergedWriteKeepsRepo(w: World, v: nat, org: string, name: string, o: string, n: string)
    requires SureOfRepo(w, o, n) && 0 < v <= |w.source| && w.source[v - 1].github.Some?
    ensures var d := WriteSource(w, Merge(w.source[v - 1], org, name), v == |w.source|);
      StaysSureOfRepo(w, d.state, o, n) && (d.ok && o == org && n == name ==> Listed(Latest(d.state.source), o, n))
  {
    var read := w.source[v - 1];
    MergedIsListed(read, org, name);
    if Listed(Some(read), o, n) { MergeKeepsListed(read, org, name, o, n); }
    WriteKeepsRepo(w, Merge(read, org, name), v == |w.source|, o, n);
  }

  lemma BuiltWriteKeepsRepo(w: World, org: string, name: string, o: string, n: string)
    requires SureOfRepo(w, o, n)
    ensures var d := WriteSource(w, BuildEventSource(org, name), w.source == []);
      StaysSureOfRepo(w, d.state, o, n) && (d.ok && o == org && n == name ==> Listed(Latest(d.state.source), o, n))
  {
    BuiltIsListed(org, name);
    WriteKeepsRepo(w, BuildEventSource(org, name), w.source == [], o, n);
  }

  lemma ForwardKeepsRepo(w: World, org: string, name: string)
    requires SureOfRepo(w, org, name)
    ensures StaysSureOfRepo(w, Forward(w).state, org, name)
  {
  }

  // What is listed in a version that was read is listed now.
  lemma ReadIsStillListed(w: World, v: nat, org: string, name: string)
    requires SureOfRepo(w, org, name) && v == VersionRead(Next(w.run.plan), |w.source| + 1)
    requires Listed(SourceRead(w.source, v), org, name)
    ensures Listed(Latest(w.source), org, name)
  {
    assert w.run.plan != [] ==> Next(w.run.plan) in w.run.plan;
  }

  lemma SourceStaysSure(w: World, org: string, name: string, o: string, n: string)
    requires SureOfRepo(w, o, n)
    ensures var d := SyncSource(w, org, name);
      && StaysSureOfRepo(w, d.state, o, n)
      && (d.ok && o == org && n == name ==> Listed(Latest(d.state.source), o, n))
  {
    var fetched, v := Forward(w).state, VersionRead(Next(w.run.plan), |w.source| + 1);
    var read, d := SourceRead(w.source, v), SyncSource(w, org, name);
    ForwardKeepsRepo(w, o, n);
    if !Forward(w).ok {
      assert d.state == fetched;
    } else if read.None? {
      BuiltWriteKeepsRepo(fetched, org, name, o, n);
      ThenStaysSureOfRepo(w, fetched, d.state, o, n);
    } else if MergeOutcome(read.value, org, name).Needed? {
      MergedWriteKeepsRepo(fetched, v, org, name, o, n);
      ThenStaysSureOfRepo(w, fetched, d.state, o, n);
    } else {
      assert d.state == fetched;
      if d.ok && o == org && n == name { ReadIsStillListed(w, v, org, name); }
    }
  }

  lemma SyncKeepsConforming(before: Repositories, after: Repositories, repo: RepoName, org: string, name: string)
    requires Effect(before, after, repo, false) && RepoConforms(before, org, name)
    ensures RepoConforms(after, org, name)
  {
    if repo == RepoName(org, name) {
      var r := before[repo];
      GitHubSettings.SyncNormalises(r, NextId(r.rulesets), 0);
      GitHubSettings.NormalSettingsConform(r.settings);
    }
  }

  lemma GitHubStaysSure(w: World, org: string, name: string, o: string, n: string)
    requires SureOfRepo(w, o, n)
    ensures var d := SyncGitHub(w, RepoName(org, name));
      && StaysSureOfRepo(w, d.state, o, n)
      && (d.ok && o == org && n == name ==> RepoConforms(d.state.repos, o, n))
  {
    var gh := GitHub(w.repos, w.githubWrites, w.run.plan);
    SyncRepositoryIs(gh, RepoName(org, name));
    if RepoConforms(w.repos, o, n) {
      SyncKeepsConforming(w.repos, SyncRepository(gh, RepoName(org, name)).state.repos, RepoName(org, name), o, n);
    }
  }

  lemma RepoStaysSure(w: World, org: string, name: string, o: string, n: string)
    requires SureOfRepo(w, o, n)
    ensures var d := SyncRepo(w, org, name);
      && StaysSureOfRepo(w, d.state, o, n)
      && (d.ok && o == org && n == name ==> SeenTo(d.state, o, n))
  {
    if !Remembers(w.caches, org, name) {
      var source := SyncSource(w, org, name);
      SourceStaysSure(w, org, name, o, n);
      if source.ok {
        GitHubStaysSure(source.state, org, name, o, n);
        var github := SyncGitHub(source.state, RepoName(org, name));
        ThenStaysSureOfRepo(w, source.state, github.state, o, n);
      }
    }
  }
}

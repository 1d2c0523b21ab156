/** What one reconcile does, as a function of the world and of what goes wrong with its calls. */
module ReconcilerModel {
  import opened Options
  import opened Faults
  import opened Cluster
  import opened FlowWants
  import opened EventSourceMerge
  import opened GitHubServer

  datatype FlowName = FlowName(namespace: string, name: string)

  // Of type "Ready".
  datatype Condition = Condition(status: bool, reason: string)

  // The three "already synced" caches of the controller's process.
  datatype Caches = Caches(namespaces: set<string>, projects: set<string>, repos: map<string, set<string>>)

  // `source` has the versions of the shared EventSource, oldest first; there are none before it is created. So do
  // `conditions` for each Flow; `held` is the version that the fetched copy of the Flow in hand has.
  datatype World = World(
    run: Run, source: seq<Source>, repos: Repositories, githubWrites: nat,
    conditions: map<FlowName, seq<Condition>>, held: nat, caches: Caches)

  // Rejected: the Flow cannot be built and is not retried. Failed: it is retried.
  datatype Outcome = Synced | Rejected | Failed

  datatype Result = Result(world: World, outcome: Outcome)

  const NO_CACHES := Caches({}, {}, map[])

  const READY := Condition(true, "FlowSynced")

  predicate Remembers(c: Caches, org: string, name: string) { org in c.repos && name in c.repos[org] }

  function Remember(c: Caches, org: string, name: string): Caches {
    c.(repos := c.repos[org := (if org in c.repos then c.repos[org] else {}) + {name}])
  }

  // ------------------------------------------------------------------ what a namespace and an organisation share

  function SyncNamespace(k: Constants, w: World, ns: string): Done<World> {
    if ns in w.caches.namespaces then Done(w, true)
    else
      var synced := SyncList(w.run, NamespaceWants(k, ns));
      Done(w.(run := synced.state,
              caches := if synced.ok then w.caches.(namespaces := w.caches.namespaces + {ns}) else w.caches),
           synced.ok)
  }

  function SyncProjects(k: Constants, w: World, orgs: seq<string>): Done<World>
    decreases |orgs|
  {
    if orgs == [] then Done(w, true)
    else if orgs[0] in w.caches.projects then SyncProjects(k, w, orgs[1..])
    else
      var synced := SyncOne(w.run, OrgWant(k, orgs[0]));
      if !synced.ok then Done(w.(run := synced.state), false)
      else
        var caches := w.caches.(projects := w.caches.projects + {orgs[0]});
        SyncProjects(k, w.(run := synced.state, caches := caches), orgs[1..])
  }

  // ------------------------------------------------------------------ the condition

  function Forward(w: World): Done<World> {
    Done(w.(run := w.run.(plan := Rest(w.run.plan))), Answers(Next(w.run.plan)))
  }

  function ConditionsOf(w: World, name: FlowName): seq<Condition> {
    if name in w.conditions then w.conditions[name] else []
  }

  // Version number `v - 1`, or no condition when `v` is 0.
  predicate Shows(versions: seq<Condition>, v: nat, c: Condition) { 0 < v <= |versions| && versions[v - 1] == c }

  function FetchFlow(w: World, name: FlowName): Done<World> {
    var fetched := Forward(w);
    Done(fetched.state.(held := VersionRead(Next(w.run.plan), |ConditionsOf(w, name)| + 1)), fetched.ok)
  }

  /** The status of the copy in hand is updated if it lacks the condition; the server refuses an old copy. */
  function SetCondition(w: World, name: FlowName, c: Condition): Done<World> {
    var versions := ConditionsOf(w, name);
    if Shows(versions, w.held, c) then Done(w, true)
    else
      var updated, accepted := Forward(w), w.held == |versions|;
      var stored := if accepted && Lands(Next(w.run.plan)) then w.conditions[name := versions + [c]] else w.conditions;
      var state := updated.state.(conditions := stored);
      if accepted && updated.ok then Forward(state) else Done(state, false)
  }

  function Reject(w: World, job: Job, reason: string): Result {
    var set_ := SetCondition(w, FlowName(job.namespace, job.name), Condition(false, reason));
    Result(set_.state, if set_.ok then Rejected else Failed)
  }

  // ------------------------------------------------------------------ the Flow's own objects

  function SyncSensor(w: World, job: Job): Result {
    var (fetched, got) := Get(w.run, job.sensorWant.key);
    var w' := w.(run := fetched);
    if got.Error? || job.sensor.Crashes? then Result(w', Failed)
    else if job.sensor.Errs? then Reject(w', job, "SensorBuildFailed")
    else
      var synced := Apply(fetched, job.sensorWant, got);
      Result(w.(run := synced.state), if synced.ok then Synced else Failed)
  }

  // What follows the namespace.
  function SyncAppsAndSensor(k: Constants, w: World, job: Job): Result {
    var projects := SyncProjects(k, w, job.orgs);
    if !projects.ok then Result(projects.state, Failed)
    else
      var apps := SyncOwned(projects.state.run, job.applications, job.namespace);
      if !apps.ok then Result(projects.state.(run := apps.state), Failed)
      else SyncSensor(projects.state.(run := apps.state), job)
  }

  /** Everything in the cluster but the shared EventSource. */
  function SyncObjects(k: Constants, w: World, job: Job): Result {
    var ns := SyncNamespace(k, w, job.namespace);
    if !ns.ok then Result(ns.state, Failed)
    else if !job.appsBuild then Reject(ns.state, job, "AppBuildFailed")
    else SyncAppsAndSensor(k, ns.state, job)
  }

  // ------------------------------------------------------------------ the EventSource and GitHub

  function Latest(source: seq<Source>): Option<Source> {
    if source == [] then None else Some(source[|source| - 1])
  }

  // A read finds version number `v - 1`, or nothing when `v` is 0.
  function SourceRead(source: seq<Source>, v: nat): Option<Source>
    requires v <= |source|
  {
    if v == 0 then None else Some(source[v - 1])
  }

  function WriteSource(w: World, s: Source, accepted: bool): Done<World> {
    var f := Next(w.run.plan);
    Done(w.(source := if accepted && Lands(f) then w.source + [s] else w.source,
            run := w.run.(writes := w.run.writes + 1, plan := Rest(w.run.plan))),
         accepted && Answers(f))
  }

  // A source without its map crashes the merge.
  function SyncSource(w: World, org: string, name: string): Done<World> {
    var fetched, v := Forward(w), VersionRead(Next(w.run.plan), |w.source| + 1);
    var read := SourceRead(w.source, v);
    if !fetched.ok then fetched
    else if read.None? then WriteSource(fetched.state, BuildEventSource(org, name), w.source == [])
    else if MergeOutcome(read.value, org, name).NilMap? then Done(fetched.state, false)
    else if MergeOutcome(read.value, org, name).Unneeded? then fetched
    else WriteSource(fetched.state, Merge(read.value, org, name), v == |w.source|)
  }

  function SyncGitHub(w: World, repo: RepoName): Done<World> {
    var synced := SyncRepository(GitHub(w.repos, w.githubWrites, w.run.plan), repo);
    Done(w.(repos := synced.state.repos, githubWrites := synced.state.writes, run := w.run.(plan := synced.state.plan)),
         synced.ok)
  }

  function SyncRepo(w: World, org: string, name: string): Done<World> {
    if Remembers(w.caches, org, name) then Done(w, true)
    else
      var source := SyncSource(w, org, name);
      if !source.ok then source
      else
        var github := SyncGitHub(source.state, RepoName(org, name));
        if !github.ok then github
        else Done(github.state.(caches := Remember(github.state.caches, org, name)), true)
  }

  // ------------------------------------------------------------------ the whole

  /** A success that wrote to the cluster reports Ready. */
  function Report(w: World, job: Job, drift: bool): Result {
    if !drift then Result(w, Synced)
    else
      var set_ := SetCondition(w, FlowName(job.namespace, job.name), READY);
      Result(set_.state, if set_.ok then Synced else Failed)
  }

  /** The EventSource and the settings of the repository, then the condition; drift is counted from `before`. */
  function SyncRest(w: World, before: World, job: Job): Result {
    if !job.repo.Repo? then Reject(w, job, "EventSourceFailed")
    else
      var repo := SyncRepo(w, job.repo.org, job.repo.name);
      if !repo.ok then Result(repo.state, Failed)
      else Report(repo.state, job, repo.state.run.writes > before.run.writes)
  }

  function Reconcile(k: Constants, w: World, job: Job): Result {
    var fetched := FetchFlow(w, FlowName(job.namespace, job.name));
    if !fetched.ok then Result(fetched.state, Failed)
    else if !job.parses then Reject(fetched.state, job, "PreProcessFailed")
    else
      var objects := SyncObjects(k, fetched.state, job);
      if !objects.outcome.Synced? then objects
      else SyncRest(objects.world, w, job)
  }
}

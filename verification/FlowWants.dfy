/** The cluster objects a Flow asks for, and the job that reconciling it is. */
module FlowWants {
  import opened Options
  import opened Steps
  import opened Cluster
  import opened FlowDefaulter
  import opened FlowProcessor
  import AppBuilder
  import GitUrl
  import Templates
  import WorkflowCompiler

  // `decodes` says whether the JSON of triggers and steps has the types it should have.
  datatype Flow = Flow(
    namespace: string, name: string, decodes: bool, triggers: seq<Trigger>, steps: seq<ParsedStep>,
    deadline: Option<int>)

  // A global template; every one has a container.
  type BuildTemplate = t: Templates.Contents | t.containers != []
    witness Templates.Contents("", [], [Templates.Node("", [])], [], [])

  // What the JSON of a generated workflow depends on.
  datatype Workflow = Workflow(
    flowName: string, tasks: seq<WorkflowCompiler.Task>, templates: seq<Templates.Contents>, deadline: int,
    triggers: seq<TriggerKind>)

  datatype Named = Named(name: string, form: Object)

  // What the builders of cluster objects fill in; the results hold for whatever it is.
  datatype Constants = Constants(
    eventBus: Named, claim: Named, account: Named, role: Named, binding: Named,
    projectSpec: AppBuilder.Project -> Fields, applicationSpec: AppBuilder.Application -> Fields,
    test: BuildTemplate, publish: BuildTemplate,
    workflowText: Workflow -> string, sensorRest: seq<Trigger> -> Fields)

  // ------------------------------------------------------------------ shared by the Flows of a namespace

  function EventBusWant(k: Constants, ns: string): Want { Want(Key(EventBus, ns, k.eventBus.name), k.eventBus.form) }

  function VolumeClaimWant(k: Constants, ns: string): Want { Want(Key(VolumeClaim, ns, k.claim.name), k.claim.form) }

  function ServiceAccountWant(k: Constants, ns: string): Want {
    Want(Key(Kind.ServiceAccount, ns, k.account.name), k.account.form)
  }

  function RoleWant(k: Constants, ns: string): Want { Want(Key(Role, ns, k.role.name), k.role.form) }

  function RoleBindingWant(k: Constants, ns: string): Want {
    Want(Key(RoleBinding, ns, k.binding.name), k.binding.form)
  }

  /** In the order in which they are reconciled. */
  function NamespaceWants(k: Constants, ns: string): seq<Want> {
    [EventBusWant(k, ns), VolumeClaimWant(k, ns), ServiceAccountWant(k, ns), RoleWant(k, ns), RoleBindingWant(k, ns)]
  }

  function ProjectWant(k: Constants, p: AppBuilder.Project): Want {
    Want(Key(Kind.Project, p.namespace, p.name), Object("", k.projectSpec(p)))
  }

  function OrgWant(k: Constants, org: string): Want { ProjectWant(k, AppBuilder.ProjectFor(org)) }

  // What Flows share, and what the caches remember.
  ghost predicate IsShared(k: Constants, w: Want) {
    (exists ns :: w in NamespaceWants(k, ns)) || (exists org :: w == OrgWant(k, org))
  }

  // Shared objects are determined by their key.
  function SharedWant(k: Constants, key: Key): Want {
    match key.kind
    case EventBus => EventBusWant(k, key.namespace)
    case VolumeClaim => VolumeClaimWant(k, key.namespace)
    case ServiceAccount => ServiceAccountWant(k, key.namespace)
    case Role => RoleWant(k, key.namespace)
    case RoleBinding => RoleBindingWant(k, key.namespace)
    case _ => OrgWant(k, key.name)
  }

  predicate IsOwnKind(kind: Kind) { kind.Application? || kind.Sensor? }

  lemma SharedWantsAreDetermined(k: Constants, w: Want)
    requires IsShared(k, w)
    ensures !IsOwnKind(w.key.kind) && w == SharedWant(k, w.key)
  {
  }

  // ------------------------------------------------------------------ jobs

  // What building the sensor comes to: the compiler of its workflow may report an error, or crash on a dependency
  // that names no step.
  datatype SensorBuild = Builds | Errs | Crashes

  // All that reconciling a Flow depends on; `orgs` are the organisations it deploys for.
  datatype Job = Job(
    namespace: string, name: string, parses: bool, appsBuild: bool, orgs: seq<string>, applications: seq<Want>,
    sensor: SensorBuild, sensorWant: Want, repo: GitUrl.Parsed)

  /** Each kind of object has its own keys, and within a kind no key is wanted in two ways. */
  predicate IsJob(job: Job) {
    && (forall w <- job.applications :: w.key.kind.Application?)
    && (forall v, w | v in job.applications && w in job.applications && v.key == w.key :: v == w)
    && job.sensorWant.key.kind.Sensor?
  }

  function OrgWants(k: Constants, orgs: seq<string>): seq<Want> {
    seq(|orgs|, i requires 0 <= i < |orgs| => OrgWant(k, orgs[i]))
  }

  function Wants(k: Constants, job: Job): seq<Want> {
    NamespaceWants(k, job.namespace) + OrgWants(k, job.orgs) + job.applications + [job.sensorWant]
  }

  predicate Buildable(job: Job) {
    && job.parses && job.appsBuild && AllIn(job.applications, job.namespace) && job.sensor.Builds? && job.repo.Repo?
  }

  /** Two jobs that want shared keys in the same way. */
  predicate Agree(k: Constants, job: Job, other: Job) {
    forall v, w | v in Wants(k, job) && w in Wants(k, other) && v.key == w.key :: v == w
  }

  lemma WantsAreOfKind(k: Constants, job: Job, w: Want)
    requires IsJob(job) && w in Wants(k, job)
    ensures IsShared(k, w) || (w.key.kind.Application? && w in job.applications)
         || (w.key.kind.Sensor? && w == job.sensorWant)
  {
    if w in NamespaceWants(k, job.namespace) {
    } else if w in OrgWants(k, job.orgs) {
      var i :| 0 <= i < |job.orgs| && OrgWants(k, job.orgs)[i] == w;
      assert w == OrgWant(k, job.orgs[i]);
    }
  }

  /** Within one job each key is wanted in one way, and all jobs want the shared objects in the same way. */
  lemma WantsAreCoherent(k: Constants, job: Job, v: Want, w: Want)
    requires IsJob(job) && v in Wants(k, job) && (w in Wants(k, job) || IsShared(k, w)) && v.key == w.key
    ensures v == w
  {
    WantsAreOfKind(k, job, v);
    if w in Wants(k, job) { WantsAreOfKind(k, job, w); }
    if IsShared(k, v) { SharedWantsAreDetermined(k, v); }
    if IsShared(k, w) { SharedWantsAreDetermined(k, w); }
  }

  // ------------------------------------------------------------------ the job of a Flow

  function Names(projects: seq<AppBuilder.Project>): seq<string> {
    seq(|projects|, i requires 0 <= i < |projects| => projects[i].name)
  }

  function ApplicationWant(k: Constants, a: AppBuilder.Application): Want {
    Want(Key(Kind.Application, a.namespace, a.name), Object("", k.applicationSpec(a)))
  }

  function ApplicationWants(k: Constants, apps: seq<AppBuilder.Application>): seq<Want> {
    seq(|apps|, i requires 0 <= i < |apps| => ApplicationWant(k, apps[i]))
  }

  /** PreProcessFlow. */
  function ProcessedOf(flow: Flow): Option<Processed> {
    if flow.decodes then Process(flow.deadline, flow.triggers, flow.steps) else None
  }

  /** A Flow is run for pull requests or for pushes, not for both. */
  predicate OneKind(triggers: seq<Trigger>) {
    forall t, u | t in triggers && u in triggers :: t.kind == u.kind
  }

  /** What BuildSensor comes to. */
  function SensorOf(p: Processed): SensorBuild {
    if !OneKind(p.triggers) then Errs
    else
      var compiled := WorkflowCompiler.Compile(p.steps);
      if compiled.Compiled? then Builds
      else if compiled.error.NoDockerfile? && compiled.error.outcome.NilDereference? then Crashes
      else Errs
  }

  function KindsOf(triggers: seq<Trigger>): seq<TriggerKind> {
    seq(|triggers|, i requires 0 <= i < |triggers| => triggers[i].kind)
  }

  /** The workflow that the sensor starts. */
  function WorkflowOf(k: Constants, name: string, p: Processed): Workflow
    requires WorkflowCompiler.Compile(p.steps).Compiled?
  {
    Workflow(name, WorkflowCompiler.Compile(p.steps).value,
             Templates.InlineContents(p.steps, |p.steps|, k.test, k.publish), p.deadline, KindsOf(p.triggers))
  }

  const WORKFLOW := "triggers.k8s.source.value"

  /** The specification of the sensor; it does not matter when none is built. */
  function SensorSpec(k: Constants, name: string, p: Processed): Fields {
    if WorkflowCompiler.Compile(p.steps).Compiled? then
      k.sensorRest(p.triggers)[WORKFLOW := k.workflowText(WorkflowOf(k, name, p))]
    else map[]
  }

  function SensorWant(namespace: string, name: string, spec: Fields): Want {
    Want(Key(Kind.Sensor, namespace, name), Object("", spec))
  }

  /** getTriggerRepoName: the repository of the first trigger. */
  function TriggerRepo(triggers: seq<Trigger>): GitUrl.Parsed {
    if triggers == [] then GitUrl.InvalidPath else GitUrl.GetRepoOrgName(triggers[0].repoUrl)
  }

  function JobOfProcessed(k: Constants, namespace: string, name: string, p: Processed): Job {
    Job(namespace, name, true, AppBuilder.AllParse(p.steps),
        Names(AppBuilder.BuiltProjects(p.steps)), ApplicationWants(k, AppBuilder.BuiltApplications(p.steps)),
        SensorOf(p), SensorWant(namespace, name, SensorSpec(k, name, p)), TriggerRepo(p.triggers))
  }

  function JobOf(k: Constants, flow: Flow): Job {
    match ProcessedOf(flow)
    case Some(p) => JobOfProcessed(k, flow.namespace, flow.name, p)
    case None =>
      Job(flow.namespace, flow.name, false, false, [], [], Errs, SensorWant(flow.namespace, flow.name, map[]),
          GitUrl.InvalidPath)
  }

  lemma BuiltWantsDiffer(k: Constants, steps: seq<Step>)
    ensures var wants := ApplicationWants(k, AppBuilder.BuiltApplications(steps));
      forall v, w | v in wants && w in wants && v.key == w.key :: v == w
  {
    var apps := AppBuilder.BuiltApplications(steps);
    var wants := ApplicationWants(k, apps);
    AppBuilder.BuiltAsItShould(steps);
    forall v, w | v in wants && w in wants && v.key == w.key ensures v == w {
      var i :| 0 <= i < |wants| && wants[i] == v;
      var j :| 0 <= j < |wants| && wants[j] == w;
      assert apps[i].name == v.key.name == w.key.name == apps[j].name;
      assert i == j;
    }
  }

  /** The applications of a Flow are told apart by their name alone, so their keys are too. */
  lemma ApplicationKeysDiffer(k: Constants, flow: Flow)
    ensures IsJob(JobOf(k, flow))
  {
    if ProcessedOf(flow).Some? { BuiltWantsDiffer(k, ProcessedOf(flow).value.steps); }
  }

  /** The first step with a given application name is in the organisation that the Flow's namespace stands for. */
  ghost predicate DeploysHome(steps: seq<Step>, namespace: string) {
    forall i | AppBuilder.FirstOfName(steps, i) :: AppBuilder.Org(steps[i]) == namespace
  }

  /**
   A Flow can be reconciled exactly when it preprocesses to triggers of one kind and steps that compile, its
   repositories parse, and the first step of each application name deploys to the Flow's own organisation.
   */
  lemma BuildableFlows(k: Constants, flow: Flow)
    ensures Buildable(JobOf(k, flow)) <==>
      && ProcessedOf(flow).Some?
      && var p := ProcessedOf(flow).value;
         && (forall t, u | t in p.triggers && u in p.triggers :: t.kind == u.kind)
         && WorkflowCompiler.Compile(p.steps).Compiled?
         && AppBuilder.AllParse(p.steps) && DeploysHome(p.steps, flow.namespace) && TriggerRepo(p.triggers).Repo?
  {
    if ProcessedOf(flow).Some? { BuildableProcessed(k, flow.namespace, flow.name, ProcessedOf(flow).value); }
  }

  lemma BuildableProcessed(k: Constants, namespace: string, name: string, p: Processed)
    ensures Buildable(JobOfProcessed(k, namespace, name, p)) <==>
      && OneKind(p.triggers) && WorkflowCompiler.Compile(p.steps).Compiled?
      && AppBuilder.AllParse(p.steps) && DeploysHome(p.steps, namespace) && TriggerRepo(p.triggers).Repo?
  {
    WantsInNamespace(k, AppBuilder.BuiltApplications(p.steps), namespace);
    AppsAtHome(p.steps, namespace);
  }

  lemma AppsAtHome(steps: seq<Step>, namespace: string)
    ensures (forall a <- AppBuilder.BuiltApplications(steps) :: a.namespace == namespace) <==>
      DeploysHome(steps, namespace)
  {
    AppBuilder.BuiltAsItShould(steps);
    var apps := AppBuilder.BuiltApplications(steps);
    if forall a <- apps :: a.namespace == namespace {
      forall i | AppBuilder.FirstOfName(steps, i) ensures AppBuilder.Org(steps[i]) == namespace {
        assert AppBuilder.AppOf(steps[i]) in apps;
      }
    }
    if DeploysHome(steps, namespace) {
      forall a | a in apps ensures a.namespace == namespace {
        var i :| AppBuilder.FirstOfName(steps, i) && a == AppBuilder.AppOf(steps[i]);
      }
    }
  }

  lemma WantsInNamespace(k: Constants, apps: seq<AppBuilder.Application>, namespace: string)
    ensures AllIn(ApplicationWants(k, apps), namespace) <==> forall a <- apps :: a.namespace == namespace
  {
    var wants := ApplicationWants(k, apps);
    forall a | a in apps ensures exists w <- wants :: w.key.namespace == a.namespace {
      var i :| 0 <= i < |apps| && apps[i] == a;
      assert wants[i] in wants;
    }
  }
}

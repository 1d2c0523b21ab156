/** The ArgoCD projects and applications of a Flow, deduplicated in one pass over its steps. */
module AppBuilder {
  import opened Text
  import opened Steps
  import opened GitUrl

  const ARGOCD_NAMESPACE := "argocd"
  const CONFIG_REPO_SUFFIX := "-argo-configs"
  const DESTINATION_SERVER := "https://kubernetes.default.svc"

  datatype Project = Project(
    namespace: string, name: string,
    sourceRepos: seq<string>,
    destinationServer: string, destinationNamespace: string,
    sourceNamespaces: seq<string>,
    clusterResourceName: string)

  datatype Application = Application(
    namespace: string, name: string,
    repoUrl: string, path: string, targetRevision: string,
    destinationServer: string, destinationNamespace: string,
    project: string,
    syncEnabled: bool)

  datatype Apps = Apps(projects: seq<Project>, applications: seq<Application>) | BadUrl(error: Parsed)

  function GetAppName(repoName: string, repoPath: string): string {
    TrimSuffix(repoName, CONFIG_REPO_SUFFIX) + "-" + ReplaceAll(repoPath, "/", "-")
  }

  function ProjectFor(org: string): Project {
    Project(ARGOCD_NAMESPACE, org, [GetSourceRepoGlob(org)], DESTINATION_SERVER, org, [org], org + "-*")
  }

  /** strings.TrimSpace(s) == "" on ASCII. */
  predicate IsBlank(s: string) { TrimLeftSet(s, {' ', '\t', '\n', '\U{0B}', '\U{0C}', '\r'}) == "" }

  function ApplicationFor(step: Step, org: string, name: string): Application
    requires step.ArgoCD?
  {
    Application(org, GetAppName(name, step.repoPath), step.repoUrl, step.repoPath, "HEAD",
                DESTINATION_SERVER, org, org, step.pauseReason.None? || IsBlank(step.pauseReason.value))
  }

  // ------------------------------------------------------------------ what the pass should produce

  predicate Parses(step: Step) { step.ArgoCD? && GetRepoOrgName(step.repoUrl).Repo? }

  function Org(step: Step): string
    requires Parses(step)
  {
    GetRepoOrgName(step.repoUrl).org
  }

  function AppName(step: Step): string
    requires Parses(step)
  {
    GetAppName(GetRepoOrgName(step.repoUrl).name, step.repoPath)
  }

  function AppOf(step: Step): Application
    requires Parses(step)
  {
    ApplicationFor(step, Org(step), GetRepoOrgName(step.repoUrl).name)
  }

  predicate AllParse(steps: seq<Step>) { forall s <- steps :: s.ArgoCD? ==> Parses(s) }

  /** No earlier step has the same organisation (application name). */
  predicate FirstOfOrg(steps: seq<Step>, i: int) {
    && 0 <= i < |steps| && Parses(steps[i])
    && forall j :: 0 <= j < i && Parses(steps[j]) ==> Org(steps[j]) != Org(steps[i])
  }

  predicate FirstOfName(steps: seq<Step>, i: int) {
    && 0 <= i < |steps| && Parses(steps[i])
    && forall j :: 0 <= j < i && Parses(steps[j]) ==> AppName(steps[j]) != AppName(steps[i])
  }

  ghost predicate ProjectsBuilt(steps: seq<Step>, projects: seq<Project>) {
    && (forall i, j :: 0 <= i < j < |projects| ==> projects[i].name != projects[j].name)
    && (forall p <- projects :: exists i :: FirstOfOrg(steps, i) && p == ProjectFor(Org(steps[i])))
    && (forall i :: 0 <= i < |steps| && Parses(steps[i]) ==> ProjectFor(Org(steps[i])) in projects)
  }

  ghost predicate ApplicationsBuilt(steps: seq<Step>, apps: seq<Application>) {
    && (forall i, j :: 0 <= i < j < |apps| ==> apps[i].name != apps[j].name)
    && (forall a <- apps :: exists i :: FirstOfName(steps, i) && a == AppOf(steps[i]))
    && (forall i :: FirstOfName(steps, i) ==> AppOf(steps[i]) in apps)
  }

  function ProjectNames(projects: seq<Project>): set<string> { set p <- projects :: p.name }

  function ApplicationNames(apps: seq<Application>): set<string> { set a <- apps :: a.name }

  function AddProject(projects: seq<Project>, org: string): seq<Project> {
    if org in ProjectNames(projects) then projects else projects + [ProjectFor(org)]
  }

  function AddApplication(apps: seq<Application>, app: Application): seq<Application> {
    if app.name in ApplicationNames(apps) then apps else apps + [app]
  }

  // The two lists after a pass over `steps`.
  function BuiltProjects(steps: seq<Step>): seq<Project> {
    if steps == [] then []
    else
      var front, last := BuiltProjects(steps[..|steps| - 1]), steps[|steps| - 1];
      if Parses(last) then AddProject(front, Org(last)) else front
  }

  function BuiltApplications(steps: seq<Step>): seq<Application> {
    if steps == [] then []
    else
      var front, last := BuiltApplications(steps[..|steps| - 1]), steps[|steps| - 1];
      if Parses(last) then AddApplication(front, AppOf(last)) else front
  }

  method BuildArgoApps(flowSteps: seq<Step>) returns (r: Apps)
    ensures r.BadUrl? <==> !AllParse(flowSteps)
    ensures r.Apps? ==> r == Apps(BuiltProjects(flowSteps), BuiltApplications(flowSteps))
    ensures r.Apps? ==> ProjectsBuilt(flowSteps, r.projects) && ApplicationsBuilt(flowSteps, r.applications)
    ensures r.BadUrl? ==> !r.error.Repo? && exists s <- flowSteps :: s.ArgoCD? && GetRepoOrgName(s.repoUrl) == r.error
  {
    var projects: seq<Project>, applications: seq<Application> := [], [];
    var projectNames: set<string>, appNames: set<string> := {}, {};
    for i := 0 to |flowSteps|
      invariant AllParse(flowSteps[..i])
      invariant projectNames == ProjectNames(projects)
      invariant appNames == ApplicationNames(applications)
      invariant projects == BuiltProjects(flowSteps[..i])
      invariant applications == BuiltApplications(flowSteps[..i])
    {
      ghost var before := flowSteps[..i];
      var step := flowSteps[i];
      assert flowSteps[..i + 1] == before + [step];
      assert flowSteps[..i + 1][..i] == before;
      if step.ArgoCD? {
        var parsed := GetRepoOrgName(step.repoUrl);
        if !parsed.Repo? {
          assert step in flowSteps && step.ArgoCD? && !Parses(step);
          return BadUrl(parsed);
        }
        var repoOrg := parsed.org;
        if repoOrg !in projectNames {
          projectNames := projectNames + {repoOrg};
          projects := projects + [ProjectFor(repoOrg)];
        }
        var appName := GetAppName(parsed.name, step.repoPath);
        if appName !in appNames {
          appNames := appNames + {appName};
          applications := applications + [ApplicationFor(step, repoOrg, parsed.name)];
        }
      }
    }
    assert flowSteps[..|flowSteps|] == flowSteps;
    BuiltAsItShould(flowSteps);
    return Apps(projects, applications);
  }

  lemma FirstsGrow(steps: seq<Step>, step: Step)
    ensures forall i | 0 <= i < |steps| :: (steps + [step])[i] == steps[i]
    ensures forall i | 0 <= i < |steps| :: FirstOfOrg(steps + [step], i) <==> FirstOfOrg(steps, i)
    ensures forall i | 0 <= i < |steps| :: FirstOfName(steps + [step], i) <==> FirstOfName(steps, i)
  {
    var longer := steps + [step];
    forall i | 0 <= i < |steps|
      ensures FirstOfOrg(longer, i) <==> FirstOfOrg(steps, i)
      ensures FirstOfName(longer, i) <==> FirstOfName(steps, i)
    {
      assert forall j :: 0 <= j <= i ==> longer[j] == steps[j];
    }
  }

  // Among the steps of one organisation there is a first.
  lemma {:induction false} SomeFirst(steps: seq<Step>, k: nat) returns (i: nat)
    requires k < |steps| && Parses(steps[k])
    ensures i <= k && FirstOfOrg(steps, i) && Org(steps[i]) == Org(steps[k])
    decreases k
  {
    if j :| 0 <= j < k && Parses(steps[j]) && Org(steps[j]) == Org(steps[k]) {
      i := SomeFirst(steps, j);
    } else {
      i := k;
    }
  }

  lemma {:induction false} SomeFirstName(steps: seq<Step>, k: nat) returns (i: nat)
    requires k < |steps| && Parses(steps[k])
    ensures i <= k && FirstOfName(steps, i) && AppName(steps[i]) == AppName(steps[k])
    decreases k
  {
    if j :| 0 <= j < k && Parses(steps[j]) && AppName(steps[j]) == AppName(steps[k]) {
      i := SomeFirstName(steps, j);
    } else {
      i := k;
    }
  }

  lemma ProjectsFrom(before: seq<Step>, step: Step, had: seq<Project>, p: Project)
    requires ProjectsBuilt(before, had) && Parses(step) && p in AddProject(had, Org(step))
    ensures exists i :: FirstOfOrg(before + [step], i) && p == ProjectFor(Org((before + [step])[i]))
  {
    var steps := before + [step];
    FirstsGrow(before, step);
    if p in had {
      var i :| FirstOfOrg(before, i) && p == ProjectFor(Org(before[i]));
      assert FirstOfOrg(steps, i) && steps[i] == before[i];
    } else {
      forall j | 0 <= j < |before| && Parses(before[j]) ensures Org(before[j]) != Org(step) {
        assert ProjectFor(Org(before[j])) in had;
      }
      assert FirstOfOrg(steps, |before|);
    }
  }

  lemma ProjectsCover(before: seq<Step>, step: Step, had: seq<Project>, i: nat)
    requires ProjectsBuilt(before, had) && Parses(step) && i <= |before| && Parses((before + [step])[i])
    ensures ProjectFor(Org((before + [step])[i])) in AddProject(had, Org(step))
  {
    if i < |before| {
      assert (before + [step])[i] == before[i] && ProjectFor(Org(before[i])) in had;
    } else if p :| p in had && p.name == Org(step) {
      assert p == ProjectFor(p.name);
    }
  }

  lemma ProjectsGrow(before: seq<Step>, step: Step, had: seq<Project>)
    requires ProjectsBuilt(before, had) && Parses(step)
    ensures ProjectsBuilt(before + [step], AddProject(had, Org(step)))
    ensures ProjectNames(AddProject(had, Org(step))) == ProjectNames(had) + {Org(step)}
  {
    var steps := before + [step];
    forall p | p in AddProject(had, Org(step))
      ensures exists i :: FirstOfOrg(steps, i) && p == ProjectFor(Org(steps[i]))
    {
      ProjectsFrom(before, step, had, p);
    }
    forall i | 0 <= i < |steps| && Parses(steps[i]) ensures ProjectFor(Org(steps[i])) in AddProject(had, Org(step)) {
      ProjectsCover(before, step, had, i);
    }
  }

  lemma ApplicationsFrom(before: seq<Step>, step: Step, had: seq<Application>, a: Application)
    requires ApplicationsBuilt(before, had) && Parses(step) && a in AddApplication(had, AppOf(step))
    ensures exists i :: FirstOfName(before + [step], i) && a == AppOf((before + [step])[i])
  {
    var steps := before + [step];
    FirstsGrow(before, step);
    if a in had {
      var i :| FirstOfName(before, i) && a == AppOf(before[i]);
      assert FirstOfName(steps, i) && steps[i] == before[i];
    } else {
      forall j | 0 <= j < |before| && Parses(before[j]) ensures AppName(before[j]) != AppName(step) {
        var k := SomeFirstName(before, j);
        assert AppOf(before[k]) in had;
      }
      assert FirstOfName(steps, |before|);
    }
  }

  lemma ApplicationsCover(before: seq<Step>, step: Step, had: seq<Application>, i: int)
    requires ApplicationsBuilt(before, had) && Parses(step) && FirstOfName(before + [step], i)
    ensures AppOf((before + [step])[i]) in AddApplication(had, AppOf(step))
  {
    var steps := before + [step];
    FirstsGrow(before, step);
    if i < |before| {
      assert FirstOfName(before, i) && AppOf(before[i]) in had;
    } else {
      forall a | a in had ensures a.name != AppName(step) {
        var j :| FirstOfName(before, j) && a == AppOf(before[j]);
        assert Parses(steps[j]) && AppName(steps[j]) != AppName(steps[i]);
      }
    }
  }

  lemma ApplicationsGrow(before: seq<Step>, step: Step, had: seq<Application>)
    requires ApplicationsBuilt(before, had) && Parses(step)
    ensures ApplicationsBuilt(before + [step], AddApplication(had, AppOf(step)))
    ensures ApplicationNames(AddApplication(had, AppOf(step))) == ApplicationNames(had) + {AppName(step)}
  {
    forall a | a in AddApplication(had, AppOf(step))
      ensures exists i :: FirstOfName(before + [step], i) && a == AppOf((before + [step])[i])
    {
      ApplicationsFrom(before, step, had, a);
    }
    forall i | FirstOfName(before + [step], i) ensures AppOf((before + [step])[i]) in AddApplication(had, AppOf(step)) {
      ApplicationsCover(before, step, had, i);
    }
  }

  lemma OtherStepProjects(before: seq<Step>, step: Step, projects: seq<Project>)
    requires ProjectsBuilt(before, projects) && !Parses(step)
    ensures ProjectsBuilt(before + [step], projects)
  {
    var steps := before + [step];
    FirstsGrow(before, step);
    forall p | p in projects ensures exists i :: FirstOfOrg(steps, i) && p == ProjectFor(Org(steps[i])) {
      var i :| FirstOfOrg(before, i) && p == ProjectFor(Org(before[i]));
      assert FirstOfOrg(steps, i) && steps[i] == before[i];
    }
  }

  lemma OtherStepApplications(before: seq<Step>, step: Step, applications: seq<Application>)
    requires ApplicationsBuilt(before, applications) && !Parses(step)
    ensures ApplicationsBuilt(before + [step], applications)
  {
    var steps := before + [step];
    FirstsGrow(before, step);
    forall a | a in applications ensures exists i :: FirstOfName(steps, i) && a == AppOf(steps[i]) {
      var i :| FirstOfName(before, i) && a == AppOf(before[i]);
      assert FirstOfName(steps, i) && steps[i] == before[i];
    }
  }

  /** The pass produces what it should, on every list of steps. */
  lemma {:induction false} BuiltAsItShould(steps: seq<Step>)
    ensures ProjectsBuilt(steps, BuiltProjects(steps)) && ApplicationsBuilt(steps, BuiltApplications(steps))
  {
    if steps != [] {
      var front, last := steps[..|steps| - 1], steps[|steps| - 1];
      BuiltAsItShould(front);
      assert steps == front + [last];
      if Parses(last) {
        ProjectsGrow(front, last, BuiltProjects(front));
        ApplicationsGrow(front, last, BuiltApplications(front));
      } else {
        OtherStepProjects(front, last, BuiltProjects(front));
        OtherStepApplications(front, last, BuiltApplications(front));
      }
    }
  }

  // ------------------------------------------------------------------ what ArgoCD makes of the output

  /** ArgoCD's admission of an application by a project. */
  predicate Admits(p: Project, a: Application) {
    && p.name == a.project
    && a.namespace in p.sourceNamespaces
    && (exists g <- p.sourceRepos :: Glob(g, a.repoUrl))
    && p.destinationServer == a.destinationServer && p.destinationNamespace == a.destinationNamespace
  }

  /** Every application built is admitted by a project built with it. */
  lemma EveryApplicationIsAdmitted(steps: seq<Step>, projects: seq<Project>, apps: seq<Application>, a: Application)
    requires ProjectsBuilt(steps, projects) && ApplicationsBuilt(steps, apps) && a in apps
    ensures exists p <- projects :: Admits(p, a)
  {
    var i :| FirstOfName(steps, i) && a == AppOf(steps[i]);
    var p := ProjectFor(Org(steps[i]));
    GlobCovers(steps[i].repoUrl, Org(steps[i]), GetRepoOrgName(steps[i].repoUrl).name);
    assert GetSourceRepoGlob(Org(steps[i])) in p.sourceRepos;
    assert p in projects && Admits(p, a);
  }

  /** Steps that agree on the application name agree on the organisation. */
  ghost predicate SameNameSameOrg(steps: seq<Step>) {
    forall s, t | s in steps && t in steps && Parses(s) && Parses(t) && AppName(s) == AppName(t) :: Org(s) == Org(t)
  }

  /** The namespace and name an ArgoCD task syncs belong to an application that was built. */
  predicate Linked(step: Step, apps: seq<Application>)
    requires Parses(step)
  {
    exists a <- apps :: a.namespace == Org(step) && a.name == AppName(step)
  }

  /** Applications are deduplicated by name alone, so linkage holds exactly when names decide organisations. */
  lemma LinkedExactlyWhenNamesDecideOrgs(steps: seq<Step>, apps: seq<Application>)
    requires ApplicationsBuilt(steps, apps)
    ensures (forall s <- steps | Parses(s) :: Linked(s, apps)) <==> SameNameSameOrg(steps)
  {
    if SameNameSameOrg(steps) {
      forall s | s in steps && Parses(s) ensures Linked(s, apps) {
        var k :| 0 <= k < |steps| && steps[k] == s;
        var i := SomeFirstName(steps, k);
        assert AppOf(steps[i]) in apps;
      }
    }
    if forall s <- steps | Parses(s) :: Linked(s, apps) {
      forall s, t | s in steps && t in steps && Parses(s) && Parses(t) && AppName(s) == AppName(t)
        ensures Org(s) == Org(t)
      {
        var a :| a in apps && a.namespace == Org(s) && a.name == AppName(s);
        var b :| b in apps && b.namespace == Org(t) && b.name == AppName(t);
        var i :| 0 <= i < |apps| && apps[i] == a;
        var j :| 0 <= j < |apps| && apps[j] == b;
        assert i == j;
      }
    }
  }
}

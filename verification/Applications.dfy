/** What the name of an application tells apart, and what a built project or application says. */
module Applications {
  import opened Options
  import opened Text
  import opened Steps
  import opened AppBuilder
  import opened GitUrl

  // ------------------------------------------------------------------ names

  predicate IsDash(c: char) { c == '/' || c == '-' }

  /** Paths that differ at most in which of the two separators stands at a place. */
  predicate SameButForDashes(a: string, b: string) {
    && |a| == |b|
    && forall i | 0 <= i < |a| :: if IsDash(a[i]) || IsDash(b[i]) then IsDash(a[i]) && IsDash(b[i]) else a[i] == b[i]
  }

  function Dash(c: char): char { if c == '/' then '-' else c }

  lemma {:induction false} DashedAt(s: string)
    ensures |ReplaceAll(s, "/", "-")| == |s|
    ensures forall i | 0 <= i < |s| :: ReplaceAll(s, "/", "-")[i] == Dash(s[i])
  {
    if s != [] {
      DashedAt(s[1..]);
      assert StartsWith(s, "/") <==> s[0] == '/';
    }
  }

  lemma DashedAgree(a: string, b: string)
    ensures ReplaceAll(a, "/", "-") == ReplaceAll(b, "/", "-") <==> SameButForDashes(a, b)
  {
    var x, y := ReplaceAll(a, "/", "-"), ReplaceAll(b, "/", "-");
    DashedAt(a);
    DashedAt(b);
    if x == y {
      forall i | 0 <= i < |a|
        ensures if IsDash(a[i]) || IsDash(b[i]) then IsDash(a[i]) && IsDash(b[i]) else a[i] == b[i]
      {
        assert Dash(a[i]) == x[i] == y[i] == Dash(b[i]);
      }
    }
    if SameButForDashes(a, b) {
      forall i | 0 <= i < |x| ensures x[i] == y[i] { assert Dash(a[i]) == Dash(b[i]); }
      assert x == y;
    }
  }

  lemma SamePrefix(prefix: string, x: string, y: string)
    ensures prefix + x == prefix + y <==> x == y
  {
    assert (prefix + x)[|prefix|..] == x && (prefix + y)[|prefix|..] == y;
  }

  /** Among the deploy steps of one repository, names tell paths apart, except for which separators they use. */
  lemma NamesTellPathsApart(s: Step, t: Step)
    requires Parses(s) && Parses(t) && GetRepoOrgName(s.repoUrl).name == GetRepoOrgName(t.repoUrl).name
    ensures AppName(s) == AppName(t) <==> SameButForDashes(s.repoPath, t.repoPath)
  {
    DashedAgree(s.repoPath, t.repoPath);
    SamePrefix(TrimSuffix(GetRepoOrgName(s.repoUrl).name, CONFIG_REPO_SUFFIX) + "-",
               ReplaceAll(s.repoPath, "/", "-"), ReplaceAll(t.repoPath, "/", "-"));
  }

  /** A name starts with that of the repository, without the suffix that marks configuration repositories. */
  lemma NamesStartWithTheRepository(s: Step, name: string)
    requires Parses(s) && GetRepoOrgName(s.repoUrl).name in [name, name + "-argo-configs"]
    requires !EndsWith(name, "-argo-configs")
    ensures AppName(s) == name + "-" + ReplaceAll(s.repoPath, "/", "-")
  {
    if GetRepoOrgName(s.repoUrl).name == name + "-argo-configs" {
      assert (name + "-argo-configs")[..|name|] == name;
    }
  }

  // ------------------------------------------------------------------ what is built

  /** An application deploys what the step does. */
  predicate Deploys(a: Application, s: Step) { s.ArgoCD? && a.repoUrl == s.repoUrl && a.path == s.repoPath }

  /** The pause reason is missing, or nothing but white space. */
  predicate NotPaused(s: Step)
    requires s.ArgoCD?
  {
    s.pauseReason.None? || forall c <- s.pauseReason.value :: c in {' ', '\t', '\n', '\U{0B}', '\U{0C}', '\r'}
  }

  lemma {:induction false} TrimmedAway(s: string, cutset: set<char>)
    ensures TrimLeftSet(s, cutset) == "" <==> forall c <- s :: c in cutset
  {
    if s != [] {
      TrimmedAway(s[1..], cutset);
      assert s == [s[0]] + s[1..];
    }
  }

  lemma AppOfSays(s: Step)
    requires Parses(s)
    ensures var a := AppOf(s);
      && a.name == AppName(s) && Deploys(a, s)
      && a.namespace == a.project == a.destinationNamespace == Org(s)
      && a.targetRevision == "HEAD" && a.destinationServer == "https://kubernetes.default.svc"
      && (a.syncEnabled <==> NotPaused(s))
  {
    if s.pauseReason.Some? { TrimmedAway(s.pauseReason.value, {' ', '\t', '\n', '\U{0B}', '\U{0C}', '\r'}); }
  }

  /** Each application is that of the first step of its name, in its own organisation throughout. */
  lemma ApplicationsSay(steps: seq<Step>, a: Application) returns (i: nat)
    requires a in BuiltApplications(steps)
    ensures FirstOfName(steps, i) && a.name == AppName(steps[i]) && Deploys(a, steps[i])
    ensures a.namespace == a.project == a.destinationNamespace == Org(steps[i])
    ensures a.targetRevision == "HEAD" && a.destinationServer == "https://kubernetes.default.svc"
    ensures a.syncEnabled <==> NotPaused(steps[i])
  {
    BuiltAsItShould(steps);
    i :| FirstOfName(steps, i) && a == AppOf(steps[i]);
    AppOfSays(steps[i]);
  }

  /** Each project is that of one organisation, and takes nothing from others. */
  lemma ProjectsSay(steps: seq<Step>, p: Project) returns (i: nat)
    requires p in BuiltProjects(steps)
    ensures FirstOfOrg(steps, i) && p.name == p.destinationNamespace == Org(steps[i])
    ensures p.namespace == "argocd" && p.destinationServer == "https://kubernetes.default.svc"
    ensures p.sourceRepos == ["https://github.com/" + Org(steps[i]) + "/*"] && p.sourceNamespaces == [Org(steps[i])]
    ensures p.clusterResourceName == Org(steps[i]) + "-*"
  {
    BuiltAsItShould(steps);
    i :| FirstOfOrg(steps, i) && p == ProjectFor(Org(steps[i]));
  }

  predicate HasItsOwn(s: Step, apps: seq<Application>) { exists a <- apps :: Deploys(a, s) }

  /** Steps of one name deploy the same. */
  ghost predicate NamesDecideDeployments(steps: seq<Step>) {
    forall s, t | s in steps && t in steps && Parses(s) && Parses(t) && AppName(s) == AppName(t) ::
      s.repoUrl == t.repoUrl && s.repoPath == t.repoPath
  }

  lemma DeployedHasItsName(steps: seq<Step>, a: Application, s: Step)
    requires a in BuiltApplications(steps) && Parses(s) && Deploys(a, s)
    ensures a.name == AppName(s)
  {
    var i := ApplicationsSay(steps, a);
  }

  /** One step has an application that deploys what it does exactly when the first step of its name deploys the same. */
  lemma OneHasItsOwnExactly(steps: seq<Step>, i: nat, k: nat)
    requires FirstOfName(steps, i) && k < |steps| && Parses(steps[k]) && AppName(steps[k]) == AppName(steps[i])
    ensures HasItsOwn(steps[k], BuiltApplications(steps)) <==>
      steps[k].repoUrl == steps[i].repoUrl && steps[k].repoPath == steps[i].repoPath
  {
    BuiltAsItShould(steps);
    var apps := BuiltApplications(steps);
    assert AppOf(steps[i]) in apps;
    if steps[k].repoUrl == steps[i].repoUrl && steps[k].repoPath == steps[i].repoPath {
      assert Deploys(AppOf(steps[i]), steps[k]);
    }
    if a :| a in apps && Deploys(a, steps[k]) {
      DeployedHasItsName(steps, a, steps[k]);
      var j := ApplicationsSay(steps, a);
      FirstIsUnique(steps, i, j);
    }
  }

  lemma FirstIsUnique(steps: seq<Step>, i: nat, j: nat)
    requires FirstOfName(steps, i) && FirstOfName(steps, j) && AppName(steps[i]) == AppName(steps[j])
    ensures i == j
  {
  }

  /** Every step has an application that deploys what it does exactly when names decide what is deployed. */
  lemma AllHaveTheirOwnExactly(steps: seq<Step>)
    ensures (forall s <- steps | Parses(s) :: HasItsOwn(s, BuiltApplications(steps))) <==> NamesDecideDeployments(steps)
  {
    var apps := BuiltApplications(steps);
    if NamesDecideDeployments(steps) {
      forall s | s in steps && Parses(s) ensures HasItsOwn(s, apps) {
        var k :| 0 <= k < |steps| && steps[k] == s;
        var i := SomeFirstName(steps, k);
        assert steps[i] in steps;
        OneHasItsOwnExactly(steps, i, k);
      }
    }
    if forall s <- steps | Parses(s) :: HasItsOwn(s, apps) {
      forall s, t | s in steps && t in steps && Parses(s) && Parses(t) && AppName(s) == AppName(t)
        ensures s.repoUrl == t.repoUrl && s.repoPath == t.repoPath
      {
        BothAreTheFirst(steps, s, t);
      }
    }
  }

  lemma BothAreTheFirst(steps: seq<Step>, s: Step, t: Step)
    requires s in steps && t in steps && Parses(s) && Parses(t) && AppName(s) == AppName(t)
    requires HasItsOwn(s, BuiltApplications(steps)) && HasItsOwn(t, BuiltApplications(steps))
    ensures s.repoUrl == t.repoUrl && s.repoPath == t.repoPath
  {
    var k :| 0 <= k < |steps| && steps[k] == s;
    var j :| 0 <= j < |steps| && steps[j] == t;
    var i := SomeFirstName(steps, k);
    OneHasItsOwnExactly(steps, i, k);
    OneHasItsOwnExactly(steps, i, j);
  }

  /** Two paths of one repository that differ only in a separator: only the first gets an application. */
  lemma DashesHideADeployment(repoUrl: string) returns (steps: seq<Step>)
    requires GetRepoOrgName(repoUrl).Repo?
    ensures |steps| == 2 && AllParse(steps)
    ensures forall s <- steps :: s.ArgoCD? && s.repoUrl == repoUrl
    ensures steps[0].repoPath == "dev/web" && steps[1].repoPath == "dev-web"
    ensures !HasItsOwn(steps[1], BuiltApplications(steps))
  {
    steps := [ArgoCD("first", [], repoUrl, "dev/web", "main", None),
              ArgoCD("second", [], repoUrl, "dev-web", "main", None)];
    NamesTellPathsApart(steps[0], steps[1]);
    assert steps[0].repoPath[3] == '/' && steps[1].repoPath[3] == '-';
    assert FirstOfName(steps, 0);
    OneHasItsOwnExactly(steps, 0, 1);
  }
}

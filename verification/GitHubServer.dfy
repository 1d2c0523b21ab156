/** Syncing the settings of repositories kept by a server whose calls may fail. */
module GitHubServer {
  import opened Options
  import opened Faults
  import opened GitHubSettings
  import opened GitHubSync

  datatype RepoName = RepoName(org: string, name: string)

  // Those that the app is installed for.
  type Repositories = map<RepoName, Repository>

  datatype GitHub = GitHub(repos: Repositories, writes: nat, plan: Plan)

  function NextId(rulesets: seq<(nat, Ruleset)>): (id: nat)
    ensures forall r <- rulesets :: r.0 < id
  {
    if rulesets == [] then 1
    else
      var id := NextId(rulesets[1..]);
      if rulesets[0].0 < id then id else rulesets[0].0 + 1
  }

  ghost predicate WellKept(repos: Repositories) { forall r <- repos :: UniqueIds(repos[r].rulesets) }

  function IndexOfId(rulesets: seq<(nat, Ruleset)>, id: nat): (i: nat)
    ensures i <= |rulesets| && (i < |rulesets| ==> rulesets[i].0 == id)
    ensures forall j :: 0 <= j < i ==> rulesets[j].0 != id
  {
    if rulesets == [] || rulesets[0].0 == id then 0 else 1 + IndexOfId(rulesets[1..], id)
  }

  // ------------------------------------------------------------------ what a sync does

  // A call that only reads.
  function ReadCall(gh: GitHub): Done<GitHub> { Done(gh.(plan := Rest(gh.plan)), Answers(Next(gh.plan))) }

  function WriteCall(gh: GitHub, repo: RepoName, r: Repository): Done<GitHub> {
    var f := Next(gh.plan);
    var repos := if Lands(f) then gh.repos[repo := r] else gh.repos;
    Done(gh.(repos := repos, writes := gh.writes + 1, plan := Rest(gh.plan)),
         Answers(f))
  }

  function SyncSettings(gh: GitHub, repo: RepoName): Done<GitHub>
    requires repo in gh.repos
  {
    var fetched := ReadCall(gh);
    if !fetched.ok || SettingsConform(gh.repos[repo].settings) then fetched
    else WriteCall(fetched.state, repo, EditSettings(gh.repos[repo]))
  }

  function SyncRulesets(gh: GitHub, repo: RepoName): Done<GitHub>
    requires repo in gh.repos
  {
    var r := gh.repos[repo];
    var i, edited, listed := FirstDefault(r.rulesets), EditRulesets(r, NextId(r.rulesets)), ReadCall(gh);
    if !listed.ok then listed
    else if i == |r.rulesets| then WriteCall(listed.state, repo, edited)
    else
      var fetched := ReadCall(listed.state);
      if !fetched.ok || RulesetConforms(r.rulesets[i].1) then fetched
      else WriteCall(fetched.state, repo, edited)
  }

  /** The effect of SyncGitHubSettingsForRepo. */
  function SyncRepository(gh: GitHub, repo: RepoName): Done<GitHub> {
    var found := ReadCall(gh);
    if !found.ok || repo !in gh.repos then Done(found.state, false)
    else
      var settings := SyncSettings(found.state, repo);
      if !settings.ok then settings else SyncRulesets(settings.state, repo)
  }

  // ------------------------------------------------------------------ fetching objects

  // The objects of one answer are new.
  twostate predicate IsNew(new r: RulesetObject)
    reads r, r.conditions, r.rules
  {
    && fresh(r)
    && (r.conditions != null ==> fresh(r.conditions) && (r.conditions.refName != null ==> fresh(r.conditions.refName)))
    && (r.rules != null ==>
          && fresh(r.rules)
          && (r.rules.pullRequest != null ==> fresh(r.rules.pullRequest))
          && (r.rules.statusChecks != null ==> fresh(r.rules.statusChecks)))
  }

  twostate lemma NewIsApart(new r: RulesetObject, shared: Shared)
    requires IsNew(r)
    ensures r.ConditionsAreApart(shared) && r.RulesAreApart(shared)
  {
  }

  method Decode(v: Ruleset) returns (r: RulesetObject)
    ensures r.View() == v && IsNew(r)
  {
    var refName: RefNamesObject?, conditions: ConditionsObject? := null, null;
    if v.conditions.Some? {
      if v.conditions.value.refName.Some? {
        refName := new RefNamesObject(v.conditions.value.refName.value);
      }
      conditions := new ConditionsObject(refName, v.conditions.value.rest);
    }
    var rules := DecodeRules(v.rules);
    r := new RulesetObject(v, conditions, rules);
  }

  method DecodeRules(v: Option<Rules>) returns (rules: RulesObject?)
    ensures v == if rules == null then None else Some(rules.View())
    ensures rules != null ==>
      && fresh(rules)
      && (rules.pullRequest != null ==> fresh(rules.pullRequest))
      && (rules.statusChecks != null ==> fresh(rules.statusChecks))
  {
    rules := null;
    if v.Some? {
      var pullRequest: PullRequestObject?, statusChecks: StatusChecksObject? := null, null;
      if v.value.pullRequest.Some? {
        pullRequest := new PullRequestObject(v.value.pullRequest.value);
      }
      if v.value.statusChecks.Some? {
        statusChecks := new StatusChecksObject(v.value.statusChecks.value);
      }
      rules := new RulesObject(v.value, pullRequest, statusChecks);
    }
  }

  // ------------------------------------------------------------------ the sync itself

  method SyncRepoSettings(gh: GitHub, repo: RepoName) returns (r: Done<GitHub>)
    requires repo in gh.repos
    ensures r == SyncSettings(gh, repo)
  {
    NormalSettingsConform(gh.repos[repo].settings);
    r := ReadCall(gh);
    if !r.ok {
      return;
    }
    var fetched := new RepoObject(gh.repos[repo].settings);
    var hasDiff := CorrectSettings(fetched);
    if hasDiff {
      r := WriteCall(r.state, repo, gh.repos[repo].(settings := fetched.View()));
    }
  }

  method FindDefault(rulesets: seq<(nat, string)>) returns (i: nat)
    ensures i <= |rulesets| && (i < |rulesets| ==> rulesets[i].1 == DEFAULT_RULESET_NAME)
    ensures forall j :: 0 <= j < i ==> rulesets[j].1 != DEFAULT_RULESET_NAME
  {
    i := 0;
    while i < |rulesets|
      invariant i <= |rulesets|
      invariant forall j :: 0 <= j < i ==> rulesets[j].1 != DEFAULT_RULESET_NAME
    {
      if rulesets[i].1 == DEFAULT_RULESET_NAME {
        break;
      }
      i := i + 1;
    }
  }

  lemma UniqueIdIs(rulesets: seq<(nat, Ruleset)>, i: nat)
    requires UniqueIds(rulesets) && i < |rulesets|
    ensures IndexOfId(rulesets, rulesets[i].0) == i
  {
  }

  /** The fetched ruleset, corrected, and whether that changed it. */
  method FetchAndCorrect(ruleset: Ruleset, shared: Shared) returns (corrected: Ruleset, hasDiff: bool)
    requires shared.Valid()
    ensures shared.Valid()
    ensures corrected == NormalRuleset(ruleset) && (hasDiff <==> !RulesetConforms(ruleset))
  {
    var r := Decode(ruleset);
    NewIsApart(r, shared);
    hasDiff := CorrectRuleset(r, shared);
    corrected := r.View();
  }

  // The list of rulesets does not have their contents, only ids and names.
  function Listing(rulesets: seq<(nat, Ruleset)>): seq<(nat, string)> {
    seq(|rulesets|, i requires 0 <= i < |rulesets| => (rulesets[i].0, rulesets[i].1.name))
  }

  method SyncRepoRulesets(gh: GitHub, shared: Shared, repo: RepoName) returns (r: Done<GitHub>)
    requires shared.Valid() && repo in gh.repos && UniqueIds(gh.repos[repo].rulesets)
    ensures shared.Valid()
    ensures r == SyncRulesets(gh, repo)
  {
    var all := gh.repos[repo].rulesets;
    r := ReadCall(gh);
    if !r.ok {
      return;
    }
    var rulesets := Listing(all);
    var i := FindDefault(rulesets);
    assert forall j :: 0 <= j < i ==> all[j].1.name == rulesets[j].1;
    if i == |rulesets| {
      assert FirstDefault(all) == i;
      r := WriteCall(r.state, repo, gh.repos[repo].(rulesets := all + [(NextId(all), WANTED_RULESET)]));
      return;
    }
    FirstDefaultIs(all, i);
    UniqueIdIs(all, i);
    var at := IndexOfId(all, rulesets[i].0);
    r := ReadCall(r.state);
    if !r.ok {
      return;
    }
    var corrected, hasDiff := FetchAndCorrect(all[at].1, shared);
    if hasDiff {
      r := WriteCall(r.state, repo, gh.repos[repo].(rulesets := all[at := (rulesets[i].0, corrected)]));
    }
  }

  /** SyncGitHubSettingsForRepo. The shared desired objects stay what they were. */
  method SyncGitHubSettingsForRepo(gh: GitHub, shared: Shared, repo: RepoName) returns (r: Done<GitHub>)
    requires shared.Valid() && WellKept(gh.repos)
    ensures shared.Valid()
    ensures r == SyncRepository(gh, repo)
  {
    r := ReadCall(gh);
    if !r.ok || repo !in gh.repos {
      return Done(r.state, false);
    }
    r := SyncRepoSettings(r.state, repo);
    if r.ok {
      r := SyncRepoRulesets(r.state, shared, repo);
    }
  }

  // ------------------------------------------------------------------ what a sync means

  predicate RulesetsConform(r: Repository) {
    var i := FirstDefault(r.rulesets);
    i < |r.rulesets| && RulesetConforms(r.rulesets[i].1)
  }

  // How far a sync got with one repository.
  ghost predicate SyncsTo(before: Repository, after: Repository, ok: bool) {
    var done := Synced(before, NextId(before.rulesets));
    if ok then after == done else after == before || after == EditSettings(before) || after == done
  }

  ghost predicate Effect(before: Repositories, after: Repositories, repo: RepoName, ok: bool) {
    && after.Keys == before.Keys
    && (forall r <- before :: r != repo ==> after[r] == before[r])
    && (repo in before ==> SyncsTo(before[repo], after[repo], ok))
    && (repo !in before ==> !ok)
  }

  function WritesNeeded(r: Repository): nat {
    (if SettingsConform(r.settings) then 0 else 1) + (if RulesetsConform(r) then 0 else 1)
  }

  lemma RulesetsAsNeeded(r: Repository)
    ensures RulesetsConform(r) ==> EditRulesets(r, NextId(r.rulesets)) == r
  {
    var i := FirstDefault(r.rulesets);
    if RulesetsConform(r) {
      NormalRulesetsConform(r.rulesets[i].1);
      assert r.rulesets[i := r.rulesets[i]] == r.rulesets;
    }
  }

  lemma SettingsPart(gh: GitHub, repo: RepoName)
    requires repo in gh.repos
    ensures var d, r := SyncSettings(gh, repo), gh.repos[repo];
      && (d.state.repos == gh.repos || d.state.repos == gh.repos[repo := EditSettings(r)])
      && (d.ok ==> d.state.repos == gh.repos[repo := EditSettings(r)])
      && d.state.writes <= gh.writes + (if SettingsConform(r.settings) then 0 else 1)
      && (d.ok ==> d.state.writes == gh.writes + (if SettingsConform(r.settings) then 0 else 1))
      && (gh.plan == [] ==> d.ok && d.state.plan == []) && (Fresh(gh.plan) ==> Fresh(d.state.plan))
  {
    NormalSettingsConform(gh.repos[repo].settings);
    if SettingsConform(gh.repos[repo].settings) { assert gh.repos[repo := EditSettings(gh.repos[repo])] == gh.repos; }
  }

  lemma RulesetsPart(gh: GitHub, repo: RepoName)
    requires repo in gh.repos
    ensures var d, r := SyncRulesets(gh, repo), gh.repos[repo];
      var edited := gh.repos[repo := EditRulesets(r, NextId(r.rulesets))];
      && (d.state.repos == gh.repos || d.state.repos == edited) && (d.ok ==> d.state.repos == edited)
      && d.state.writes <= gh.writes + (if RulesetsConform(r) then 0 else 1)
      && (d.ok ==> d.state.writes == gh.writes + (if RulesetsConform(r) then 0 else 1))
      && (gh.plan == [] ==> d.ok && d.state.plan == []) && (Fresh(gh.plan) ==> Fresh(d.state.plan))
  {
    RulesetsAsNeeded(gh.repos[repo]);
    if RulesetsConform(gh.repos[repo]) { assert gh.repos[repo := gh.repos[repo]] == gh.repos; }
  }

  /**
   Whichever calls fail: success means that the repository is as desired, and that one write was issued for the
   settings and one for the rulesets exactly when they were not. A conforming repository is not written, and no other
   repository ever is.
   */
  lemma SyncRepositoryIs(gh: GitHub, repo: RepoName)
    ensures var d := SyncRepository(gh, repo);
      && Effect(gh.repos, d.state.repos, repo, d.ok)
      && (d.ok ==> Conforms(d.state.repos[repo]) && d.state.writes == gh.writes + WritesNeeded(gh.repos[repo]))
      && (repo in gh.repos && Conforms(gh.repos[repo]) ==> d.state.repos == gh.repos && d.state.writes <= gh.writes)
      && (gh.plan == [] ==> d.state.plan == [] && (d.ok <==> repo in gh.repos))
      && (Fresh(gh.plan) ==> Fresh(d.state.plan))
  {
    var found := ReadCall(gh);
    if found.ok && repo in gh.repos {
      SyncNormalises(gh.repos[repo], NextId(gh.repos[repo].rulesets), 0);
      SettingsPart(found.state, repo);
      var settings := SyncSettings(found.state, repo);
      if settings.ok { RulesetsPart(settings.state, repo); }
      NormalSettingsConform(gh.repos[repo].settings);
    }
  }

  lemma SyncKeepsWellKept(before: Repositories, after: Repositories, repo: RepoName)
    requires WellKept(before) && Effect(before, after, repo, false)
    ensures WellKept(after)
  {
  }

  // ------------------------------------------------------------------ many syncs

  function SyncAll(gh: GitHub, names: seq<RepoName>): GitHub {
    if names == [] then gh
    else SyncRepository(SyncAll(gh, names[..|names| - 1]), names[|names| - 1]).state
  }

  /** Any number of syncs, of any repositories, leaves the shared objects as they were. */
  method SyncMany(gh: GitHub, shared: Shared, names: seq<RepoName>) returns (r: GitHub)
    requires shared.Valid() && WellKept(gh.repos)
    ensures shared.Valid() && WellKept(r.repos)
    ensures r == SyncAll(gh, names)
  {
    r := gh;
    for i := 0 to |names|
      invariant shared.Valid() && WellKept(r.repos)
      invariant r == SyncAll(gh, names[..i])
    {
      assert names[..i + 1][..i] == names[..i];
      SyncRepositoryIs(r, names[i]);
      var done := SyncGitHubSettingsForRepo(r, shared, names[i]);
      SyncKeepsWellKept(r.repos, done.state.repos, names[i]);
      r := done.state;
    }
    assert names[..|names|] == names;
  }

  /** Repositories not named and conforming ones are untouched; without failures all those named end conforming. */
  lemma {:induction false} SyncAllIs(gh: GitHub, names: seq<RepoName>)
    ensures var g := SyncAll(gh, names);
      && g.repos.Keys == gh.repos.Keys
      && (forall r <- gh.repos :: r !in names || Conforms(gh.repos[r]) ==> g.repos[r] == gh.repos[r])
      && (gh.plan == [] ==> g.plan == [] && forall r <- names :: r in gh.repos ==> Conforms(g.repos[r]))
  {
    if names != [] {
      var front, last := names[..|names| - 1], names[|names| - 1];
      forall r ensures r in names <==> r in front || r == last { assert names == front + [last]; }
      SyncAllIs(gh, front);
      SyncRepositoryIs(SyncAll(gh, front), last);
    }
  }
}

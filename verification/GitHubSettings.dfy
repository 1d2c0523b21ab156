/** The settings every repository is kept at: what is wanted, and what bringing settings there changes. */
module GitHubSettings {
  import opened Options

  const APP_ID: int := 1682308
  const DEFAULT_RULESET_NAME := "default"
  const DEFAULT_BRANCH := "~DEFAULT_BRANCH"
  const REQUIRED_CONTEXT := "Jettison PR Flow"
  const TARGET_BRANCH := "branch"
  const SOURCE_REPOSITORY := "Repository"
  const ACTIVE := "active"
  const SQUASH := "squash"

  // Fields named `rest` stand for everything the sync never looks at.
  datatype Settings = Settings(
    mergeCommit: Option<bool>, squashMerge: Option<bool>, rebaseMerge: Option<bool>,
    updateBranch: Option<bool>, autoMerge: Option<bool>, deleteBranchOnMerge: Option<bool>, rest: string)

  // `excluded` is None for a nil slice, which the API rejects.
  datatype RefNames = RefNames(included: seq<string>, excluded: Option<seq<string>>)

  datatype Conditions = Conditions(refName: Option<RefNames>, rest: string)

  datatype PullRequest = PullRequest(
    mergeMethods: seq<string>, dismissStale: bool, codeOwner: bool, lastPush: bool, approvals: int, threads: bool,
    rest: string)

  datatype Check = Check(context: string, integrationId: Option<int>)

  datatype StatusChecks = StatusChecks(doNotEnforceOnCreate: Option<bool>, checks: seq<Check>, strict: bool)

  // `linearHistory`, `deletion` and `nonFastForward` say whether the rule is present.
  datatype Rules = Rules(
    linearHistory: bool, deletion: bool, nonFastForward: bool,
    pullRequest: Option<PullRequest>, statusChecks: Option<StatusChecks>, rest: string)

  datatype Ruleset = Ruleset(
    name: string, target: Option<string>, sourceType: Option<string>, enforcement: string,
    conditions: Option<Conditions>, rules: Option<Rules>, rest: string)

  // ------------------------------------------------------------------ the desired objects

  const REQUIRED_CHECKS: seq<Check> := [Check(REQUIRED_CONTEXT, Some(APP_ID))]
  const WANTED_REF_NAMES := RefNames([DEFAULT_BRANCH], Some([]))
  const WANTED_CONDITIONS := Conditions(Some(WANTED_REF_NAMES), "")
  const WANTED_PULL_REQUEST := PullRequest([SQUASH], true, false, false, 0, true, "")
  const WANTED_STATUS_CHECKS := StatusChecks(Some(false), REQUIRED_CHECKS, true)
  const WANTED_RULES := Rules(true, true, true, Some(WANTED_PULL_REQUEST), Some(WANTED_STATUS_CHECKS), "")
  const WANTED_RULESET :=
    Ruleset(DEFAULT_RULESET_NAME, Some(TARGET_BRANCH), Some(SOURCE_REPOSITORY), ACTIVE, Some(WANTED_CONDITIONS),
            Some(WANTED_RULES), "")

  // ------------------------------------------------------------------ which settings are as desired

  predicate SettingsConform(s: Settings) {
    && s.mergeCommit == Some(false) && s.squashMerge == Some(true) && s.rebaseMerge == Some(false)
    && s.updateBranch == Some(true) && s.autoMerge == Some(true) && s.deleteBranchOnMerge == Some(true)
  }

  predicate ConditionsConform(c: Conditions) { c.refName == Some(WANTED_REF_NAMES) }

  predicate PullRequestConforms(p: PullRequest) {
    && p.mergeMethods == [SQUASH] && p.dismissStale && !p.codeOwner && !p.lastPush && p.approvals == 0 && p.threads
  }

  predicate RulesConform(r: Rules) {
    && r.linearHistory && r.deletion && r.nonFastForward
    && r.pullRequest.Some? && PullRequestConforms(r.pullRequest.value)
    && r.statusChecks == Some(WANTED_STATUS_CHECKS)
  }

  predicate RulesetConforms(r: Ruleset) {
    && r.target == Some(TARGET_BRANCH) && r.sourceType == Some(SOURCE_REPOSITORY) && r.enforcement == ACTIVE
    && r.conditions.Some? && ConditionsConform(r.conditions.value)
    && r.rules.Some? && RulesConform(r.rules.value)
  }

  // ------------------------------------------------------------------ the nearest settings that are

  function NormalSettings(s: Settings): Settings {
    Settings(Some(false), Some(true), Some(false), Some(true), Some(true), Some(true), s.rest)
  }

  function NormalConditions(c: Option<Conditions>): Conditions {
    Conditions(Some(WANTED_REF_NAMES), if c.Some? then c.value.rest else "")
  }

  function NormalPullRequest(p: Option<PullRequest>): PullRequest {
    WANTED_PULL_REQUEST.(rest := if p.Some? then p.value.rest else "")
  }

  function NormalRules(r: Option<Rules>): Rules {
    if r.None? then WANTED_RULES
    else WANTED_RULES.(pullRequest := Some(NormalPullRequest(r.value.pullRequest)), rest := r.value.rest)
  }

  function NormalRuleset(r: Ruleset): Ruleset {
    WANTED_RULESET.(name := r.name, conditions := Some(NormalConditions(r.conditions)),
                    rules := Some(NormalRules(r.rules)), rest := r.rest)
  }

  /** A ruleset is as desired exactly when normalising leaves it alone; normalising always gets there at once. */
  lemma NormalRulesetsConform(r: Ruleset)
    ensures RulesetConforms(r) <==> NormalRuleset(r) == r
    ensures RulesetConforms(NormalRuleset(r))
    ensures NormalRuleset(NormalRuleset(r)) == NormalRuleset(r)
    ensures RulesetConforms(WANTED_RULESET)
  {
  }

  lemma NormalSettingsConform(s: Settings)
    ensures SettingsConform(s) <==> NormalSettings(s) == s
    ensures SettingsConform(NormalSettings(s)) && NormalSettings(s).rest == s.rest
  {
  }

  // ------------------------------------------------------------------ a whole repository

  // As the server keeps it; rulesets have an id each.
  datatype Repository = Repository(settings: Settings, rulesets: seq<(nat, Ruleset)>)

  /** The position of the first ruleset called "default", or the length. */
  function FirstDefault(rulesets: seq<(nat, Ruleset)>): (i: nat)
    ensures i <= |rulesets| && (i < |rulesets| ==> rulesets[i].1.name == DEFAULT_RULESET_NAME)
    ensures forall j :: 0 <= j < i ==> rulesets[j].1.name != DEFAULT_RULESET_NAME
  {
    if rulesets == [] || rulesets[0].1.name == DEFAULT_RULESET_NAME then 0 else 1 + FirstDefault(rulesets[1..])
  }

  predicate UniqueIds(rulesets: seq<(nat, Ruleset)>) {
    forall i, j :: 0 <= i < j < |rulesets| ==> rulesets[i].0 != rulesets[j].0
  }

  /** The merge settings and the first "default" ruleset are as desired. */
  predicate Conforms(r: Repository) {
    var i := FirstDefault(r.rulesets);
    SettingsConform(r.settings) && i < |r.rulesets| && RulesetConforms(r.rulesets[i].1)
  }

  function EditSettings(r: Repository): Repository { r.(settings := NormalSettings(r.settings)) }

  // `id` is the id a new ruleset gets.
  function EditRulesets(r: Repository, id: nat): Repository {
    var i := FirstDefault(r.rulesets);
    if i == |r.rulesets| then r.(rulesets := r.rulesets + [(id, WANTED_RULESET)])
    else r.(rulesets := r.rulesets[i := (r.rulesets[i].0, NormalRuleset(r.rulesets[i].1))])
  }

  function Synced(r: Repository, id: nat): Repository { EditRulesets(EditSettings(r), id) }

  lemma FirstDefaultIs(rulesets: seq<(nat, Ruleset)>, i: nat)
    requires i < |rulesets| && rulesets[i].1.name == DEFAULT_RULESET_NAME
    requires forall j :: 0 <= j < i ==> rulesets[j].1.name != DEFAULT_RULESET_NAME
    ensures FirstDefault(rulesets) == i
  {
  }

  /**
   Syncing makes a repository conform, changes nothing exactly when it conformed, and a second sync changes
   nothing. Every other ruleset, and every ruleset's id and name, stays.
   */
  lemma SyncNormalises(r: Repository, id: nat, id': nat)
    ensures Conforms(Synced(r, id))
    ensures Synced(r, id) == r <==> Conforms(r)
    ensures Synced(Synced(r, id), id') == Synced(r, id)
    ensures Synced(r, id).settings.rest == r.settings.rest
    ensures forall k | 0 <= k < |r.rulesets| && k != FirstDefault(r.rulesets) ::
      Synced(r, id).rulesets[k] == r.rulesets[k]
  {
    var i, s := FirstDefault(r.rulesets), Synced(r, id);
    NormalSettingsConform(r.settings);
    if i < |r.rulesets| { NormalRulesetsConform(r.rulesets[i].1); }
    assert forall j :: 0 <= j < i ==> s.rulesets[j] == r.rulesets[j];
    FirstDefaultIs(s.rulesets, i);
    NormalRulesetsConform(s.rulesets[i].1);
    if Conforms(r) { assert r.rulesets[i := r.rulesets[i]] == r.rulesets; }
  }
}

/**
 SyncGitHubSettingsForRepo on the heap. Fetched settings are corrected in place, one field at a time. Where a nested
 object is missing, a desired object that all syncs of the process share is linked in.
 */
module GitHubSync {
  import opened Options
  import opened GitHubSettings

  // ------------------------------------------------------------------ decoded API objects

  class RepoObject {
    var mergeCommit: Option<bool>
    var squashMerge: Option<bool>
    var rebaseMerge: Option<bool>
    var updateBranch: Option<bool>
    var autoMerge: Option<bool>
    var deleteBranchOnMerge: Option<bool>
    const rest: string

    constructor (s: Settings)
      ensures View() == s
    {
      mergeCommit, squashMerge, rebaseMerge := s.mergeCommit, s.squashMerge, s.rebaseMerge;
      updateBranch, autoMerge, deleteBranchOnMerge := s.updateBranch, s.autoMerge, s.deleteBranchOnMerge;
      rest := s.rest;
    }

    function View(): Settings
      reads this
    {
      Settings(mergeCommit, squashMerge, rebaseMerge, updateBranch, autoMerge, deleteBranchOnMerge, rest)
    }
  }

  class RefNamesObject {
    var included: seq<string>
    var excluded: Option<seq<string>>

    constructor (v: RefNames)
      ensures View() == v
    {
      included, excluded := v.included, v.excluded;
    }

    function View(): RefNames
      reads this
    {
      RefNames(included, excluded)
    }
  }

  class ConditionsObject {
    var refName: RefNamesObject?
    const rest: string

    constructor (refName: RefNamesObject?, rest: string)
      ensures this.refName == refName && this.rest == rest
    {
      this.refName, this.rest := refName, rest;
    }

    function View(): Conditions
      reads this, refName
    {
      Conditions(if refName == null then None else Some(refName.View()), rest)
    }
  }

  class PullRequestObject {
    var mergeMethods: seq<string>
    var dismissStale: bool
    var codeOwner: bool
    var lastPush: bool
    var approvals: int
    var threads: bool
    const rest: string

    constructor (v: PullRequest)
      ensures View() == v
    {
      mergeMethods, dismissStale, codeOwner := v.mergeMethods, v.dismissStale, v.codeOwner;
      lastPush, approvals, threads, rest := v.lastPush, v.approvals, v.threads, v.rest;
    }

    function View(): PullRequest
      reads this
    {
      PullRequest(mergeMethods, dismissStale, codeOwner, lastPush, approvals, threads, rest)
    }
  }

  class StatusChecksObject {
    var doNotEnforceOnCreate: Option<bool>
    var checks: seq<Check>
    var strict: bool

    constructor (v: StatusChecks)
      ensures View() == v
    {
      doNotEnforceOnCreate, checks, strict := v.doNotEnforceOnCreate, v.checks, v.strict;
    }

    function View(): StatusChecks
      reads this
    {
      StatusChecks(doNotEnforceOnCreate, checks, strict)
    }
  }

  class RulesObject {
    var linearHistory: bool
    var deletion: bool
    var nonFastForward: bool
    var pullRequest: PullRequestObject?
    var statusChecks: StatusChecksObject?
    const rest: string

    constructor (v: Rules, pullRequest: PullRequestObject?, statusChecks: StatusChecksObject?)
      ensures linearHistory == v.linearHistory && deletion == v.deletion && nonFastForward == v.nonFastForward
      ensures this.pullRequest == pullRequest && this.statusChecks == statusChecks && rest == v.rest
    {
      linearHistory, deletion, nonFastForward := v.linearHistory, v.deletion, v.nonFastForward;
      this.pullRequest, this.statusChecks, rest := pullRequest, statusChecks, v.rest;
    }

    function View(): Rules
      reads this, pullRequest, statusChecks
    {
      Rules(linearHistory, deletion, nonFastForward,
            if pullRequest == null then None else Some(pullRequest.View()),
            if statusChecks == null then None else Some(statusChecks.View()), rest)
    }
  }

  class RulesetObject {
    const name: string
    var target: Option<string>
    var sourceType: Option<string>
    var enforcement: string
    var conditions: ConditionsObject?
    var rules: RulesObject?
    const rest: string

    constructor (v: Ruleset, conditions: ConditionsObject?, rules: RulesObject?)
      ensures name == v.name && target == v.target && sourceType == v.sourceType && enforcement == v.enforcement
      ensures this.conditions == conditions && this.rules == rules && rest == v.rest
    {
      name, target, sourceType, enforcement := v.name, v.target, v.sourceType, v.enforcement;
      this.conditions, this.rules, rest := conditions, rules, v.rest;
    }

    // No part of the conditions is one of the shared objects.
    ghost predicate ConditionsAreApart(shared: Shared)
      reads this, conditions
    {
      && conditions != shared.conditions
      && (conditions != null && conditions.refName != null ==> conditions.refName != shared.refName)
    }

    ghost predicate RulesAreApart(shared: Shared)
      reads this, rules
    {
      && rules != shared.rules
      && (rules != null ==> rules.pullRequest != shared.pullRequest && rules.statusChecks != shared.statusChecks)
    }

    function View(): Ruleset
      reads this, conditions, if conditions == null then {} else {conditions.refName}
      reads rules, if rules == null then {} else {rules.pullRequest, rules.statusChecks}
    {
      Ruleset(name, target, sourceType, enforcement,
              if conditions == null then None else Some(conditions.View()),
              if rules == null then None else Some(rules.View()), rest)
    }
  }

  // ------------------------------------------------------------------ the shared desired objects

  class Shared {
    const refName: RefNamesObject
    const conditions: ConditionsObject
    const pullRequest: PullRequestObject
    const statusChecks: StatusChecksObject
    const rules: RulesObject

    constructor ()
      ensures Valid() && fresh(Objects())
    {
      var names := new RefNamesObject(WANTED_REF_NAMES);
      var pr := new PullRequestObject(WANTED_PULL_REQUEST);
      var checks := new StatusChecksObject(WANTED_STATUS_CHECKS);
      refName, pullRequest, statusChecks := names, pr, checks;
      conditions := new ConditionsObject(names, "");
      rules := new RulesObject(WANTED_RULES, pr, checks);
    }

    ghost function Objects(): set<object?> { {refName, conditions, pullRequest, statusChecks, rules} }

    /** The desired objects are what they were at the start of the process. */
    ghost predicate Valid()
      reads Objects()
    {
      && conditions.refName == refName && rules.pullRequest == pullRequest && rules.statusChecks == statusChecks
      && conditions.View() == WANTED_CONDITIONS && rules.View() == WANTED_RULES
    }
  }

  // ------------------------------------------------------------------ correcting in place

  method CorrectFlag(flag: Option<bool>, wanted: bool) returns (r: Option<bool>, hasDiff: bool)
    ensures r == Some(wanted) && (hasDiff <==> flag != Some(wanted))
  {
    if flag == None || flag.value != wanted {
      return Some(wanted), true;
    }
    return flag, false;
  }

  /** The six flags of a repository. */
  method CorrectSettings(repo: RepoObject) returns (hasDiff: bool)
    modifies repo
    ensures repo.View() == NormalSettings(old(repo.View()))
    ensures hasDiff <==> !SettingsConform(old(repo.View()))
  {
    var diff;
    repo.mergeCommit, hasDiff := CorrectFlag(repo.mergeCommit, false);
    repo.squashMerge, diff := CorrectFlag(repo.squashMerge, true);
    hasDiff := hasDiff || diff;
    repo.rebaseMerge, diff := CorrectFlag(repo.rebaseMerge, false);
    hasDiff := hasDiff || diff;
    repo.updateBranch, diff := CorrectFlag(repo.updateBranch, true);
    hasDiff := hasDiff || diff;
    repo.autoMerge, diff := CorrectFlag(repo.autoMerge, true);
    hasDiff := hasDiff || diff;
    repo.deleteBranchOnMerge, diff := CorrectFlag(repo.deleteBranchOnMerge, true);
    hasDiff := hasDiff || diff;
  }

  method CorrectConditions(conditions: ConditionsObject?, shared: Shared) returns (r: ConditionsObject, hasDiff: bool)
    requires shared.Valid() && conditions != shared.conditions
    requires conditions != null ==> conditions.refName != shared.refName
    modifies conditions, if conditions == null then {} else {conditions.refName}
    ensures r == if conditions == null then shared.conditions else conditions
    ensures r.refName ==
      if conditions == null || old(conditions.refName) == null then shared.refName else old(conditions.refName)
    ensures conditions == null ==> r.View() == WANTED_CONDITIONS && hasDiff
    ensures conditions != null ==>
      && r.View() == NormalConditions(Some(old(conditions.View())))
      && (hasDiff <==> !ConditionsConform(old(conditions.View())))
  {
    hasDiff := false;
    if conditions == null {
      return shared.conditions, true;
    }
    r := conditions;
    var refName := conditions.refName;
    if refName == null {
      refName := shared.refName;
      conditions.refName := refName;
      hasDiff := true;
    } else {
      if |refName.included| != 1 || (|refName.included| == 1 && refName.included[0] != DEFAULT_BRANCH) {
        refName.included := [DEFAULT_BRANCH];
        hasDiff := true;
      }
      if refName.excluded == None || |refName.excluded.value| != 0 {
        refName.excluded := Some([]);
        hasDiff := true;
      }
      assert refName.View() == WANTED_REF_NAMES;
    }
  }

  method CorrectPullRequest(pullRequest: PullRequestObject) returns (hasDiff: bool)
    modifies pullRequest
    ensures pullRequest.View() == NormalPullRequest(Some(old(pullRequest.View())))
    ensures hasDiff <==> !PullRequestConforms(old(pullRequest.View()))
  {
    hasDiff := false;
    if |pullRequest.mergeMethods| != 1 || pullRequest.mergeMethods[0] != SQUASH {
      pullRequest.mergeMethods := [SQUASH];
      hasDiff := true;
    }
    if !pullRequest.dismissStale {
      pullRequest.dismissStale := true;
      hasDiff := true;
    }
    if pullRequest.codeOwner {
      pullRequest.codeOwner := false;
      hasDiff := true;
    }
    if pullRequest.lastPush {
      pullRequest.lastPush := false;
      hasDiff := true;
    }
    if pullRequest.approvals != 0 {
      pullRequest.approvals := 0;
      hasDiff := true;
    }
    if !pullRequest.threads {
      pullRequest.threads := true;
      hasDiff := true;
    }
  }

  method CorrectStatusChecks(statusChecks: StatusChecksObject) returns (hasDiff: bool)
    modifies statusChecks
    ensures statusChecks.View() == WANTED_STATUS_CHECKS
    ensures hasDiff <==> old(statusChecks.View()) != WANTED_STATUS_CHECKS
  {
    hasDiff := false;
    if statusChecks.doNotEnforceOnCreate == None || statusChecks.doNotEnforceOnCreate.value {
      statusChecks.doNotEnforceOnCreate := Some(false);
      hasDiff := true;
    }
    var requiredChecks := statusChecks.checks;
    if |requiredChecks| != 1 || requiredChecks[0].context != REQUIRED_CONTEXT
      || requiredChecks[0].integrationId == None || requiredChecks[0].integrationId.value != APP_ID {
      statusChecks.checks := REQUIRED_CHECKS;
      hasDiff := true;
    }
    if !statusChecks.strict {
      statusChecks.strict := true;
      hasDiff := true;
    }
  }

  // A missing rule is linked to the shared one.
  method CorrectPullRequestOf(rules: RulesObject, shared: Shared) returns (hasDiff: bool)
    requires shared.Valid() && rules != shared.rules && rules.pullRequest != shared.pullRequest
    modifies rules`pullRequest, rules.pullRequest
    ensures shared.Valid()
    ensures rules.View() == old(rules.View()).(pullRequest := Some(NormalPullRequest(old(rules.View()).pullRequest)))
    ensures var p := old(rules.View()).pullRequest; hasDiff <==> p.None? || !PullRequestConforms(p.value)
  {
    var pullRequest := rules.pullRequest;
    if pullRequest == null {
      rules.pullRequest := shared.pullRequest;
      hasDiff := true;
    } else {
      hasDiff := CorrectPullRequest(pullRequest);
    }
  }

  method CorrectStatusChecksOf(rules: RulesObject, shared: Shared) returns (hasDiff: bool)
    requires shared.Valid() && rules != shared.rules && rules.statusChecks != shared.statusChecks
    modifies rules`statusChecks, rules.statusChecks
    ensures shared.Valid()
    ensures rules.View() == old(rules.View()).(statusChecks := Some(WANTED_STATUS_CHECKS))
    ensures hasDiff <==> old(rules.View()).statusChecks != Some(WANTED_STATUS_CHECKS)
  {
    var statusChecks := rules.statusChecks;
    if statusChecks == null {
      rules.statusChecks := shared.statusChecks;
      hasDiff := true;
    } else {
      hasDiff := CorrectStatusChecks(statusChecks);
    }
  }

  method CorrectRules(rules: RulesObject?, shared: Shared) returns (r: RulesObject, hasDiff: bool)
    requires shared.Valid() && rules != shared.rules
    requires rules != null ==> rules.pullRequest != shared.pullRequest && rules.statusChecks != shared.statusChecks
    modifies rules, if rules == null then {} else {rules.pullRequest, rules.statusChecks}
    ensures r == if rules == null then shared.rules else rules
    ensures shared.Valid()
    ensures rules == null ==> r.View() == WANTED_RULES && hasDiff
    ensures rules != null ==>
      && r.View() == NormalRules(Some(old(rules.View())))
      && (hasDiff <==> !RulesConform(old(rules.View())))
  {
    hasDiff := false;
    if rules == null {
      return shared.rules, true;
    }
    r := rules;
    if !rules.linearHistory {
      rules.linearHistory := true;
      hasDiff := true;
    }
    if !rules.deletion {
      rules.deletion := true;
      hasDiff := true;
    }
    var diff := CorrectPullRequestOf(rules, shared);
    hasDiff := hasDiff || diff;
    diff := CorrectStatusChecksOf(rules, shared);
    hasDiff := hasDiff || diff;
    if !rules.nonFastForward {
      rules.nonFastForward := true;
      hasDiff := true;
    }
  }

  predicate KindConforms(r: Ruleset) {
    r.target == Some(TARGET_BRANCH) && r.sourceType == Some(SOURCE_REPOSITORY) && r.enforcement == ACTIVE
  }

  method CorrectKind(ruleset: RulesetObject) returns (hasDiff: bool)
    modifies ruleset`target, ruleset`sourceType, ruleset`enforcement
    ensures ruleset.View() == old(ruleset.View())
              .(target := Some(TARGET_BRANCH), sourceType := Some(SOURCE_REPOSITORY), enforcement := ACTIVE)
    ensures hasDiff <==> !KindConforms(old(ruleset.View()))
  {
    hasDiff := false;
    if ruleset.target == None || ruleset.target.value != TARGET_BRANCH {
      ruleset.target := Some(TARGET_BRANCH);
      hasDiff := true;
    }
    if ruleset.sourceType == None || ruleset.sourceType.value != SOURCE_REPOSITORY {
      ruleset.sourceType := Some(SOURCE_REPOSITORY);
      hasDiff := true;
    }
    if ruleset.enforcement != ACTIVE {
      ruleset.enforcement := ACTIVE;
      hasDiff := true;
    }
  }

  method CorrectConditionsOf(ruleset: RulesetObject, shared: Shared) returns (hasDiff: bool)
    requires shared.Valid() && ruleset.ConditionsAreApart(shared)
    modifies ruleset`conditions, ruleset.conditions
    modifies if ruleset.conditions == null then {} else {ruleset.conditions.refName}
    ensures shared.Valid()
    ensures ruleset.View() == old(ruleset.View()).(conditions := Some(NormalConditions(old(ruleset.View()).conditions)))
    ensures var c := old(ruleset.View()).conditions; hasDiff <==> !(c.Some? && ConditionsConform(c.value))
  {
    var conditions;
    conditions, hasDiff := CorrectConditions(ruleset.conditions, shared);
    ruleset.conditions := conditions;
  }

  method CorrectRulesOf(ruleset: RulesetObject, shared: Shared) returns (hasDiff: bool)
    requires shared.Valid() && ruleset.RulesAreApart(shared)
    modifies ruleset`rules
    modifies ruleset.rules
    modifies if ruleset.rules == null then {} else {ruleset.rules.pullRequest, ruleset.rules.statusChecks}
    ensures shared.Valid()
    ensures ruleset.View() == old(ruleset.View()).(rules := Some(NormalRules(old(ruleset.View()).rules)))
    ensures hasDiff <==> !(old(ruleset.View()).rules.Some? && RulesConform(old(ruleset.View()).rules.value))
  {
    var rules;
    rules, hasDiff := CorrectRules(ruleset.rules, shared);
    ruleset.rules := rules;
  }

  /**
   A fetched "default" ruleset. A write is asked for exactly when the ruleset is not as desired, and then what is
   written is. The shared objects are never written, though some may be linked in.
   */
  method CorrectRuleset(ruleset: RulesetObject, shared: Shared) returns (hasDiff: bool)
    requires shared.Valid() && ruleset.ConditionsAreApart(shared) && ruleset.RulesAreApart(shared)
    modifies ruleset, ruleset.conditions, if ruleset.conditions == null then {} else {ruleset.conditions.refName}
    modifies ruleset.rules
    modifies if ruleset.rules == null then {} else {ruleset.rules.pullRequest, ruleset.rules.statusChecks}
    ensures shared.Valid()
    ensures ruleset.View() == NormalRuleset(old(ruleset.View()))
    ensures hasDiff <==> !RulesetConforms(old(ruleset.View()))
  {
    var kindDiff := CorrectKind(ruleset);
    var conditionsDiff := CorrectConditionsOf(ruleset, shared);
    var rulesDiff := CorrectRulesOf(ruleset, shared);
    hasDiff := kindDiff || conditionsDiff || rulesDiff;
  }
}

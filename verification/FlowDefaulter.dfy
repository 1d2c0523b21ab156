/** Filling in what a Flow leaves out, through the parsed triggers and steps. */
module FlowDefaulter {
  import opened Options
  import opened DockerfileDir
  import DockerfileSearch
  import Steps
  import Text

  const DEADLINE_PR := 900
  const DEADLINE_PUSH := 3600
  const DEFAULT_BASE_REF := "main"

  datatype TriggerKind = PullRequest | Push | UnknownTrigger

  datatype StepKind = BuildTest | BuildTestPublish | ArgoCD | CreatePr | UnknownStep

  datatype Trigger = Trigger(
    kind: TriggerKind, repoUrl: string, events: Option<seq<string>>, baseRef: Option<string>)

  // The fields that defaulting never looks at.
  datatype Given = Given(
    dependsOn: seq<string>, extras: Steps.Extras, repoUrl: string, repoPath: string,
    pauseReason: Option<string>, filePaths: seq<string>)

  // A step as parsed, its optional fields not yet filled. Only the fields that its kind has are ever read.
  datatype ParsedStep = ParsedStep(
    kind: StepKind, source: string, name: Option<string>,
    contextDir: Option<string>, dockerfilePath: Option<string>, baseRef: Option<string>, given: Given)

  class TriggerObject {
    const kind: TriggerKind
    const repoUrl: string
    var events: Option<seq<string>>
    var baseRef: Option<string>

    constructor (v: Trigger)
      ensures View() == v
    {
      kind, repoUrl, events, baseRef := v.kind, v.repoUrl, v.events, v.baseRef;
    }

    function View(): Trigger
      reads this
    {
      Trigger(kind, repoUrl, events, baseRef)
    }
  }

  class StepObject {
    const kind: StepKind
    const source: string
    var name: Option<string>
    var contextDir: Option<string>
    var dockerfilePath: Option<string>
    var baseRef: Option<string>
    const given: Given

    constructor (v: ParsedStep)
      ensures View() == v
    {
      kind, source, name, given := v.kind, v.source, v.name, v.given;
      contextDir, dockerfilePath, baseRef := v.contextDir, v.dockerfilePath, v.baseRef;
    }

    function View(): ParsedStep
      reads this
    {
      ParsedStep(kind, source, name, contextDir, dockerfilePath, baseRef, given)
    }
  }

  class FlowSpec {
    var activeDeadlineSeconds: Option<int>

    constructor (deadline: Option<int>)
      ensures activeDeadlineSeconds == deadline
    {
      activeDeadlineSeconds := deadline;
    }
  }

  // ------------------------------------------------------------------ what is filled in

  function Or<T>(given: Option<T>, default_: T): Option<T> { if given.Some? then given else Some(default_) }

  const PULL_REQUEST_EVENTS := ["opened", "reopened", "synchronize"]

  function DefaultedTrigger(t: Trigger): Trigger {
    match t.kind
    case PullRequest => t.(events := Or(t.events, PULL_REQUEST_EVENTS))
    case Push => t.(baseRef := Or(t.baseRef, DEFAULT_BASE_REF))
    case UnknownTrigger => t
  }

  predicate IsBuild(s: ParsedStep) { s.kind.BuildTest? || s.kind.BuildTestPublish? }

  function DefaultedStep(s: ParsedStep): ParsedStep {
    var named := s.(name := Or(s.name, s.source));
    if IsBuild(s) then
      var dir := Or(s.contextDir, "");
      named.(contextDir := dir, dockerfilePath := Or(s.dockerfilePath, GetDefaultDockerfilePath(dir.value)))
    else if s.kind.UnknownStep? then named
    else named.(baseRef := Or(s.baseRef, DEFAULT_BASE_REF))
  }

  /** Pushes may take longer than pull requests, wherever the push trigger stands in the list. */
  function DefaultDeadline(hasPush: bool): int { if hasPush then DEADLINE_PUSH else DEADLINE_PR }

  // ------------------------------------------------------------------ in place

  // The pass gets to position `i` of a list: no element before it is of unknown kind.
  predicate TriggersKnown(triggers: seq<TriggerObject>, i: int) {
    forall j :: 0 <= j < i && j < |triggers| ==> !triggers[j].kind.UnknownTrigger?
  }

  predicate StepsKnown(steps: seq<StepObject>, i: int) {
    forall j :: 0 <= j < i && j < |steps| ==> !steps[j].kind.UnknownStep?
  }

  method DefaultTrigger(trigger: TriggerObject, deadline: int) returns (ok: bool, longer: int)
    requires deadline == DEADLINE_PR || deadline == DEADLINE_PUSH
    modifies trigger
    ensures trigger.View() == DefaultedTrigger(old(trigger.View()))
    ensures ok <==> !trigger.kind.UnknownTrigger?
    ensures longer == DefaultDeadline(deadline == DEADLINE_PUSH || trigger.kind.Push?)
  {
    ok, longer := true, deadline;
    match trigger.kind {
      case PullRequest =>
        if trigger.events == None {
          trigger.events := Some(PULL_REQUEST_EVENTS);
        }
        longer := if deadline < DEADLINE_PR then DEADLINE_PR else deadline;
      case Push =>
        if trigger.baseRef == None {
          trigger.baseRef := Some(DEFAULT_BASE_REF);
        }
        longer := if deadline < DEADLINE_PUSH then DEADLINE_PUSH else deadline;
      case UnknownTrigger =>
        ok := false;
    }
  }

  method DefaultTriggers(triggers: seq<TriggerObject>) returns (ok: bool, deadline: int)
    requires forall i, j :: 0 <= i < j < |triggers| ==> triggers[i] != triggers[j]
    modifies triggers
    ensures ok <==> TriggersKnown(triggers, |triggers|)
    ensures forall i | 0 <= i < |triggers| ::
      triggers[i].View() ==
        if TriggersKnown(triggers, i) then DefaultedTrigger(old(triggers[i].View())) else old(triggers[i].View())
    ensures ok ==> deadline == DefaultDeadline(exists t <- triggers :: t.kind.Push?)
  {
    deadline := DEADLINE_PR;
    for i := 0 to |triggers|
      modifies triggers
      invariant TriggersKnown(triggers, i)
      invariant forall j | 0 <= j < i :: triggers[j].View() == DefaultedTrigger(old(triggers[j].View()))
      invariant forall j | i <= j < |triggers| :: triggers[j].View() == old(triggers[j].View())
      invariant deadline == DefaultDeadline(exists j :: 0 <= j < i && triggers[j].kind.Push?)
    {
      ok, deadline := DefaultTrigger(triggers[i], deadline);
      if !ok {
        assert forall j :: TriggersKnown(triggers, j) ==> j <= i;
        return;
      }
    }
    ok := true;
  }

  method DefaultStep(step: StepObject) returns (ok: bool)
    modifies step
    ensures step.View() == DefaultedStep(old(step.View()))
    ensures ok <==> !step.kind.UnknownStep?
  {
    if step.name == None {
      step.name := Some(step.source);
    }
    ok := true;
    match step.kind {
      case BuildTest =>
        if step.contextDir == None {
          step.contextDir := Some("");
        }
        if step.dockerfilePath == None {
          step.dockerfilePath := Some(GetDefaultDockerfilePath(step.contextDir.value));
        }
      case BuildTestPublish =>
        if step.contextDir == None {
          step.contextDir := Some("");
        }
        if step.dockerfilePath == None {
          step.dockerfilePath := Some(GetDefaultDockerfilePath(step.contextDir.value));
        }
      case ArgoCD =>
        if step.baseRef == None {
          step.baseRef := Some(DEFAULT_BASE_REF);
        }
      case CreatePr =>
        if step.baseRef == None {
          step.baseRef := Some(DEFAULT_BASE_REF);
        }
      case UnknownStep =>
        ok := false;
    }
  }

  method DefaultSteps(steps: seq<StepObject>) returns (ok: bool)
    requires forall i, j :: 0 <= i < j < |steps| ==> steps[i] != steps[j]
    modifies steps
    ensures ok <==> StepsKnown(steps, |steps|)
    ensures forall i | 0 <= i < |steps| ::
      steps[i].View() == if StepsKnown(steps, i) then DefaultedStep(old(steps[i].View())) else old(steps[i].View())
  {
    for i := 0 to |steps|
      modifies steps
      invariant StepsKnown(steps, i)
      invariant forall j | 0 <= j < i :: steps[j].View() == DefaultedStep(old(steps[j].View()))
      invariant forall j | i <= j < |steps| :: steps[j].View() == old(steps[j].View())
    {
      ok := DefaultStep(steps[i]);
      if !ok {
        assert forall j :: StepsKnown(steps, j) ==> j <= i;
        return;
      }
    }
    ok := true;
  }

  /**
   applyDefaults. It gives up at the first trigger or step of unknown kind; what comes before is filled in, what
   comes after is left as it was, and the deadline is set exactly when all triggers are known.
   */
  method ApplyDefaults(flow: FlowSpec, triggers: seq<TriggerObject>, steps: seq<StepObject>) returns (ok: bool)
    requires forall i, j :: 0 <= i < j < |triggers| ==> triggers[i] != triggers[j]
    requires forall i, j :: 0 <= i < j < |steps| ==> steps[i] != steps[j]
    modifies flow, triggers, steps
    ensures ok <==> TriggersKnown(triggers, |triggers|) && StepsKnown(steps, |steps|)
    ensures forall i | 0 <= i < |triggers| ::
      triggers[i].View() ==
        if TriggersKnown(triggers, i) then DefaultedTrigger(old(triggers[i].View())) else old(triggers[i].View())
    ensures forall i | 0 <= i < |steps| ::
      steps[i].View() == if TriggersKnown(triggers, |triggers|) && StepsKnown(steps, i)
                         then DefaultedStep(old(steps[i].View())) else old(steps[i].View())
    ensures flow.activeDeadlineSeconds ==
      if TriggersKnown(triggers, |triggers|)
      then Or(old(flow.activeDeadlineSeconds), DefaultDeadline(exists t <- triggers :: t.kind.Push?))
      else old(flow.activeDeadlineSeconds)
  {
    var deadline;
    ok, deadline := DefaultTriggers(triggers);
    if !ok {
      return;
    }
    if flow.activeDeadlineSeconds == None {
      flow.activeDeadlineSeconds := Some(deadline);
    }
    ok := DefaultSteps(steps);
  }

  // ------------------------------------------------------------------ what the workflow compiler relies on

  /** Every optional field that the compiler dereferences for this kind of step is set. */
  predicate IsComplete(s: ParsedStep) {
    && s.name.Some?
    && (IsBuild(s) ==> s.contextDir.Some? && s.dockerfilePath.Some?)
    && (s.kind.ArgoCD? || s.kind.CreatePr? ==> s.baseRef.Some?)
  }

  predicate Kept<T(==)>(before: Option<T>, after: Option<T>) { before.Some? ==> after == before }

  /** Defaulting completes every step, overrides nothing, and changes nothing exactly when the step was complete. */
  lemma DefaultsComplete(s: ParsedStep)
    ensures IsComplete(DefaultedStep(s))
    ensures DefaultedStep(s) == s <==> IsComplete(s)
    ensures DefaultedStep(DefaultedStep(s)) == DefaultedStep(s)
    ensures var d := DefaultedStep(s);
      && Kept(s.name, d.name) && Kept(s.contextDir, d.contextDir) && Kept(s.dockerfilePath, d.dockerfilePath)
      && Kept(s.baseRef, d.baseRef) && d.kind == s.kind && d.source == s.source && d.given == s.given
  {
  }

  /** What a trigger gives is kept; what it leaves out and its kind has is filled in. */
  lemma TriggersKeepWhatIsGiven(t: Trigger)
    ensures var d := DefaultedTrigger(t);
      && d.kind == t.kind && d.repoUrl == t.repoUrl && Kept(t.events, d.events) && Kept(t.baseRef, d.baseRef)
      && (t.events.None? ==>
            d.events == if t.kind.PullRequest? then Some(["opened", "reopened", "synchronize"]) else None)
      && (t.baseRef.None? ==> d.baseRef == if t.kind.Push? then Some("main") else None)
  {
  }

  function GivenOr(given: Option<string>, default_: string): string {
    if given.Some? then given.value else default_
  }

  // The Dockerfile of a build step: the one it gives, or the one in its context.
  function DockerfileOf(s: ParsedStep): string {
    var dir := GivenOr(s.contextDir, "");
    GivenOr(s.dockerfilePath, if dir == "" then "Dockerfile" else dir + "/Dockerfile")
  }

  /** The step that the workflow compiler reads. */
  function ToStep(s: ParsedStep): Steps.Step
    requires IsComplete(s) && !s.kind.UnknownStep?
  {
    var name, g := s.name.value, s.given;
    match s.kind
    case BuildTest => Steps.DockerBuildTest(name, g.dependsOn, s.dockerfilePath.value, s.contextDir.value, g.extras)
    case BuildTestPublish =>
      Steps.DockerBuildTestPublish(name, g.dependsOn, s.dockerfilePath.value, s.contextDir.value, g.extras)
    case ArgoCD => Steps.ArgoCD(name, g.dependsOn, g.repoUrl, g.repoPath, s.baseRef.value, g.pauseReason)
    case CreatePr => Steps.GitHubCreatePr(name, g.dependsOn, g.repoUrl, s.baseRef.value, g.filePaths)
  }

  // Field by field, what the compiler reads of a step is what the step gives, or the default.
  predicate IsStepOf(s: Steps.Step, raw: ParsedStep) {
    && s.name == GivenOr(raw.name, raw.source) && s.dependsOn == raw.given.dependsOn
    && match raw.kind
       case BuildTest =>
         && s.DockerBuildTest? && s.dockerfilePath == DockerfileOf(raw) && s.contextDir == GivenOr(raw.contextDir, "")
         && s.extras == raw.given.extras
       case BuildTestPublish =>
         && s.DockerBuildTestPublish? && s.dockerfilePath == DockerfileOf(raw)
         && s.contextDir == GivenOr(raw.contextDir, "") && s.extras == raw.given.extras
       case ArgoCD =>
         && s.ArgoCD? && s.repoUrl == raw.given.repoUrl && s.repoPath == raw.given.repoPath
         && s.baseRef == GivenOr(raw.baseRef, "main") && s.pauseReason == raw.given.pauseReason
       case CreatePr =>
         && s.GitHubCreatePr? && s.repoUrl == raw.given.repoUrl && s.baseRef == GivenOr(raw.baseRef, "main")
         && s.filePaths == raw.given.filePaths
       case UnknownStep => false
  }

  /** Every step that reaches the compiler says what the Flow's step says. */
  lemma StepsSayWhatIsGiven(raw: ParsedStep)
    requires !raw.kind.UnknownStep?
    ensures IsStepOf(ToStep(DefaultedStep(raw)), raw)
  {
    assert forall dir: string :: dir + "/" + "Dockerfile" == dir + "/Dockerfile";
  }

  predicate KnownKinds(steps: seq<ParsedStep>) { forall s <- steps :: !s.kind.UnknownStep? }

  /** What preprocessing hands to the workflow compiler. */
  function Preprocessed(steps: seq<ParsedStep>): seq<Steps.Step>
    requires KnownKinds(steps)
  {
    seq(|steps|, i requires 0 <= i < |steps| => ToStep(DefaultedStep(steps[i])))
  }

  /**
   No defaulted Flow makes the search for a deploy step's image mistake a path for "not found", unless a publish step
   of the Flow itself gives the empty path.
   */
  lemma PreprocessedPathsAreNotEmpty(steps: seq<ParsedStep>, start: string)
    requires KnownKinds(steps)
    requires forall s <- steps :: s.kind.BuildTestPublish? ==> s.dockerfilePath != Some("")
    ensures !DockerfileSearch.SomeEmptyPath(Steps.Index(Preprocessed(steps)), start)
  {
    var index := Steps.Index(Preprocessed(steps));
    Steps.IndexLookup(Preprocessed(steps));
    forall n | n in index && index[n].DockerBuildTestPublish? ensures index[n].dockerfilePath != "" {
      var i :| 0 <= i < |steps| && Preprocessed(steps)[i] == index[n];
      assert steps[i] in steps;
      PublishPathIsNotEmpty(steps[i]);
    }
  }

  lemma PublishPathIsNotEmpty(s: ParsedStep)
    requires !s.kind.UnknownStep? && (s.kind.BuildTestPublish? ==> s.dockerfilePath != Some(""))
    ensures ToStep(DefaultedStep(s)).DockerBuildTestPublish? ==> ToStep(DefaultedStep(s)).dockerfilePath != ""
  {
    if s.kind.BuildTestPublish? { EmptyPathsNeedAnEmptyField(s); }
  }

  /** A build step that gives only its context directory is published under that directory. */
  lemma ImagesAreNamedAfterTheContext(s: ParsedStep)
    requires IsBuild(s) && s.dockerfilePath.None?
    ensures var dir := if s.contextDir.Some? then s.contextDir.value else "";
      GetDockerfileDir(DefaultedStep(s).dockerfilePath.value) ==
        if dir == "" then "" else Text.TrimRight(if Text.StartsWith(dir, "/") then dir else "/" + dir, '/')
  {
    SuffixOfDefaultPath(if s.contextDir.Some? then s.contextDir.value else "");
  }

  /** Defaulting never makes a path empty, the value that the search for a deploy step's image cannot handle. */
  lemma EmptyPathsNeedAnEmptyField(s: ParsedStep)
    requires IsBuild(s)
    ensures DefaultedStep(s).dockerfilePath == Some("") <==> s.dockerfilePath == Some("")
  {
    var dir := if s.contextDir.Some? then s.contextDir.value else "";
    assert |GetDefaultDockerfilePath(dir)| >= |"Dockerfile"|;
  }
}

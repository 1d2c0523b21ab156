/** Preprocessing a Flow: parsed triggers and steps are completed in place, and then validated. */
module FlowProcessor {
  import opened Options
  import opened FlowDefaulter
  import DockerfileSearch
  import Steps

  // What the builders of cluster objects work from.
  datatype Processed = Processed(triggers: seq<Trigger>, steps: seq<Steps.Step>, deadline: int)

  predicate KnownTriggers(triggers: seq<Trigger>) { forall t <- triggers :: !t.kind.UnknownTrigger? }

  function DefaultedTriggers(triggers: seq<Trigger>): seq<Trigger> {
    seq(|triggers|, i requires 0 <= i < |triggers| => DefaultedTrigger(triggers[i]))
  }

  /** validate, after the defaults. */
  predicate Validates(triggers: seq<Trigger>, steps: seq<ParsedStep>) {
    triggers != [] && steps != [] && forall t <- triggers :: t.kind.PullRequest? ==> t.events != Some([])
  }

  function Process(deadline: Option<int>, triggers: seq<Trigger>, steps: seq<ParsedStep>): Option<Processed> {
    if !KnownTriggers(triggers) || !KnownKinds(steps) || !Validates(DefaultedTriggers(triggers), steps) then None
    else
      var default_ := DefaultDeadline(exists t <- triggers :: t.kind.Push?);
      Some(Processed(DefaultedTriggers(triggers), Preprocessed(steps), Or(deadline, default_).value))
  }

  method ParseTriggers(raw: seq<Trigger>) returns (triggers: seq<TriggerObject>)
    ensures |triggers| == |raw| && forall i | 0 <= i < |raw| :: fresh(triggers[i]) && triggers[i].View() == raw[i]
    ensures forall i, j :: 0 <= i < j < |triggers| ==> triggers[i] != triggers[j]
  {
    triggers := [];
    for n := 0 to |raw|
      invariant |triggers| == n && forall i | 0 <= i < n :: fresh(triggers[i]) && triggers[i].View() == raw[i]
      invariant forall i, j :: 0 <= i < j < n ==> triggers[i] != triggers[j]
    {
      var trigger := new TriggerObject(raw[n]);
      triggers := triggers + [trigger];
    }
  }

  method ParseSteps(raw: seq<ParsedStep>) returns (steps: seq<StepObject>)
    ensures |steps| == |raw| && forall i | 0 <= i < |raw| :: fresh(steps[i]) && steps[i].View() == raw[i]
    ensures forall i, j :: 0 <= i < j < |steps| ==> steps[i] != steps[j]
  {
    steps := [];
    for n := 0 to |raw|
      invariant |steps| == n && forall i | 0 <= i < n :: fresh(steps[i]) && steps[i].View() == raw[i]
      invariant forall i, j :: 0 <= i < j < n ==> steps[i] != steps[j]
    {
      var step := new StepObject(raw[n]);
      steps := steps + [step];
    }
  }

  method Validate(
      triggers: seq<TriggerObject>, steps: seq<StepObject>, ghost values: seq<Trigger>, ghost raw: seq<ParsedStep>)
    returns (ok: bool)
    requires |triggers| == |values| && forall i | 0 <= i < |values| :: triggers[i].View() == values[i]
    requires |steps| == |raw|
    ensures ok <==> Validates(values, raw)
  {
    if |triggers| == 0 {
      return false;
    }
    for i := 0 to |triggers|
      invariant forall j | 0 <= j < i :: values[j].kind.PullRequest? ==> values[j].events != Some([])
    {
      assert triggers[i].View() == values[i] && values[i] in values;
      if triggers[i].kind.PullRequest? && triggers[i].events.Some? && |triggers[i].events.value| == 0 {
        return false;
      }
    }
    ok := |steps| > 0;
  }

  method ReadTriggers(triggers: seq<TriggerObject>) returns (r: seq<Trigger>)
    ensures |r| == |triggers| && forall i | 0 <= i < |r| :: r[i] == triggers[i].View()
  {
    r := [];
    for n := 0 to |triggers|
      invariant |r| == n && forall i | 0 <= i < n :: r[i] == triggers[i].View()
    {
      r := r + [triggers[n].View()];
    }
  }

  method ReadSteps(steps: seq<StepObject>, ghost raw: seq<ParsedStep>) returns (r: seq<Steps.Step>)
    requires |steps| == |raw| && KnownKinds(raw)
    requires forall i | 0 <= i < |raw| :: steps[i].View() == DefaultedStep(raw[i])
    ensures r == Preprocessed(raw)
  {
    r := [];
    for n := 0 to |steps|
      invariant |r| == n && forall i | 0 <= i < n :: r[i] == Preprocessed(raw)[i]
    {
      assert raw[n] in raw;
      r := r + [ToStep(steps[n].View())];
    }
  }

  /** PreProcessFlow. */
  method PreProcessFlow(deadline: Option<int>, rawTriggers: seq<Trigger>, rawSteps: seq<ParsedStep>)
    returns (r: Option<Processed>)
    ensures r == Process(deadline, rawTriggers, rawSteps)
  {
    var triggers := ParseTriggers(rawTriggers);
    var steps := ParseSteps(rawSteps);
    var spec := new FlowSpec(deadline);
    var ok := ApplyDefaults(spec, triggers, steps);
    KindsAreThose(rawTriggers, rawSteps, triggers, steps);
    if !ok {
      return None;
    }
    r := ValidateAndRead(spec.activeDeadlineSeconds.value, triggers, steps, rawTriggers, rawSteps);
  }

  method ValidateAndRead(
      deadline: int, triggers: seq<TriggerObject>, steps: seq<StepObject>,
      ghost rawTriggers: seq<Trigger>, ghost rawSteps: seq<ParsedStep>)
    returns (r: Option<Processed>)
    requires |triggers| == |rawTriggers| && |steps| == |rawSteps| && KnownKinds(rawSteps)
    requires forall i | 0 <= i < |triggers| :: triggers[i].View() == DefaultedTrigger(rawTriggers[i])
    requires forall i | 0 <= i < |steps| :: steps[i].View() == DefaultedStep(rawSteps[i])
    ensures r ==
      if Validates(DefaultedTriggers(rawTriggers), rawSteps)
      then Some(Processed(DefaultedTriggers(rawTriggers), Preprocessed(rawSteps), deadline)) else None
  {
    var ok := Validate(triggers, steps, DefaultedTriggers(rawTriggers), rawSteps);
    if !ok {
      return None;
    }
    var ts := ReadTriggers(triggers);
    var ss := ReadSteps(steps, rawSteps);
    assert ts == DefaultedTriggers(rawTriggers);
    r := Some(Processed(ts, ss, deadline));
  }

  // The objects have the kinds they were parsed with.
  lemma KindsAreThose(
    rawTriggers: seq<Trigger>, rawSteps: seq<ParsedStep>, triggers: seq<TriggerObject>, steps: seq<StepObject>)
    requires |triggers| == |rawTriggers| && forall i | 0 <= i < |triggers| :: triggers[i].kind == rawTriggers[i].kind
    requires |steps| == |rawSteps| && forall i | 0 <= i < |steps| :: steps[i].kind == rawSteps[i].kind
    ensures KnownTriggers(rawTriggers) <==> TriggersKnown(triggers, |triggers|)
    ensures KnownKinds(rawSteps) <==> StepsKnown(steps, |steps|)
    ensures (exists t <- triggers :: t.kind.Push?) <==> (exists t <- rawTriggers :: t.kind.Push?)
  {
    if t :| t in triggers && t.kind.Push? {
      var i :| 0 <= i < |triggers| && triggers[i] == t;
      assert rawTriggers[i] in rawTriggers;
    }
    if t :| t in rawTriggers && t.kind.Push? {
      var i :| 0 <= i < |rawTriggers| && rawTriggers[i] == t;
      assert triggers[i] in triggers;
    }
    if TriggersKnown(triggers, |triggers|) {
      forall t | t in rawTriggers ensures !t.kind.UnknownTrigger? {
        var i :| 0 <= i < |rawTriggers| && rawTriggers[i] == t;
      }
    }
    if StepsKnown(steps, |steps|) {
      forall t | t in rawSteps ensures !t.kind.UnknownStep? {
        var i :| 0 <= i < |rawSteps| && rawSteps[i] == t;
      }
    }
  }

  /**
   A Flow that decodes preprocesses exactly when it has triggers and steps, all of known kinds, and no pull request
   trigger gives an empty list of events.
   */
  lemma PreprocessesExactly(deadline: Option<int>, triggers: seq<Trigger>, steps: seq<ParsedStep>)
    ensures Process(deadline, triggers, steps).Some? <==>
      && triggers != [] && steps != []
      && (forall t <- triggers :: t.kind.Push? || (t.kind.PullRequest? && t.events != Some([])))
      && (forall s <- steps :: !s.kind.UnknownStep?)
  {
    var defaulted := DefaultedTriggers(triggers);
    forall t | t in triggers ensures DefaultedTrigger(t) in defaulted {
      var i :| 0 <= i < |triggers| && triggers[i] == t;
      assert defaulted[i] in defaulted;
    }
    forall d | d in defaulted ensures exists t <- triggers :: d == DefaultedTrigger(t) {
      var i :| 0 <= i < |defaulted| && defaulted[i] == d;
      assert triggers[i] in triggers;
    }
    assert forall t <- triggers :: t.kind.PullRequest? ==>
      (DefaultedTrigger(t).events == Some([]) <==> t.events == Some([]));
  }

  /** The deadline is the Flow's, or an hour if any trigger is a push and a quarter of an hour otherwise. */
  lemma DeadlinesAre(deadline: Option<int>, triggers: seq<Trigger>, steps: seq<ParsedStep>)
    requires Process(deadline, triggers, steps).Some?
    ensures Process(deadline, triggers, steps).value.deadline ==
      if deadline.Some? then deadline.value else if exists t <- triggers :: t.kind.Push? then 3600 else 900
  {
  }

  /** Triggers and steps reach the builders in order, each saying what the Flow says. */
  lemma ProcessedSaysWhatIsGiven(deadline: Option<int>, triggers: seq<Trigger>, steps: seq<ParsedStep>)
    requires Process(deadline, triggers, steps).Some?
    ensures var p := Process(deadline, triggers, steps).value;
      && |p.triggers| == |triggers| && |p.steps| == |steps|
      && (forall i | 0 <= i < |triggers| ::
            p.triggers[i].kind == triggers[i].kind && p.triggers[i].repoUrl == triggers[i].repoUrl)
      && (forall i | 0 <= i < |steps| :: IsStepOf(p.steps[i], steps[i]))
  {
    forall i | 0 <= i < |steps| ensures IsStepOf(Preprocessed(steps)[i], steps[i]) {
      assert steps[i] in steps;
      StepsSayWhatIsGiven(steps[i]);
    }
  }

  /** Whatever preprocesses, some trigger and some step are there, and no publish step lost its path on the way. */
  lemma ProcessedIsUsable(deadline: Option<int>, triggers: seq<Trigger>, steps: seq<ParsedStep>, start: string)
    requires Process(deadline, triggers, steps).Some?
    ensures var p := Process(deadline, triggers, steps).value;
      && |p.triggers| == |triggers| > 0 && |p.steps| == |steps| > 0
      && ((forall s <- steps :: s.kind.BuildTestPublish? ==> s.dockerfilePath != Some("")) ==>
            !DockerfileSearch.SomeEmptyPath(Steps.Index(p.steps), start))
  {
    if forall s <- steps :: s.kind.BuildTestPublish? ==> s.dockerfilePath != Some("") {
      PreprocessedPathsAreNotEmpty(steps, start);
    }
  }
}

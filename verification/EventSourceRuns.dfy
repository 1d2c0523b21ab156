/**
 Many reconciles share one EventSource. Each reads it, possibly a stale copy, merges its repository into the copy,
 and writes the copy back with the version it read; the API server takes the write only if that version is the
 current one. Any call may fail, before or after it took effect. Other writers may change the rest of the object: the
 settings of the section, the other sections, and what is not about GitHub.
 */
module EventSourceRuns {
  import opened EventSourceMerge
  import opened Options

  datatype Pair = Pair(org: string, name: string)

  // What a reconcile is about to write.
  datatype Intent =
    | Idle
    | Creating(pair: Pair)
    | Updating(pair: Pair, version: nat, source: Source)

  // `history[v]` is the object at version v. It is empty until the object is created.
  datatype World = World(
    history: seq<Source>,
    intents: map<nat, Intent>,
    landed: set<Pair>,       // whose writes took effect
    reported: set<Pair>,     // whose reconciles got past the EventSource without an error
    rest: Rest               // what the last writer of the rest of the object wrote
  )

  // All of a source but its list of repositories; None stands for a source without a map.
  datatype Rest = Rest(sections: Option<map<string, Section>>, settings: string, other: string)

  function RestOf(s: Source): Rest {
    Rest(if s.github.None? then None else Some(s.github.value - {SECTION}), SectionOf(s).settings, s.other)
  }

  datatype Step =
    | ReadNothing(r: nat, pair: Pair)
    | Read(r: nat, pair: Pair, version: nat)
    | Commit(r: nat, answerLost: bool)
    | GiveUp(r: nat)
    | WriteRest(source: Source)

  function Current(w: World): Source
    requires w.history != []
  {
    w.history[|w.history| - 1]
  }

  function IntentOf(w: World, r: nat): Intent { if r in w.intents then w.intents[r] else Idle }

  predicate Owned(s: Source, p: Pair) { Owns(SectionOf(s).repositories, p.org, p.name) }

  predicate Enabled(w: World, step: Step) {
    match step
    case ReadNothing(r, _) => IntentOf(w, r).Idle?     // stale, or there really is nothing
    case Read(r, _, version) => IntentOf(w, r).Idle? && version < |w.history|
    case Commit(r, _) => !IntentOf(w, r).Idle?
    case GiveUp(_) => true
    case WriteRest(s) => w.history != [] && SectionOf(s).repositories == SectionOf(Current(w)).repositories
  }

  // The API server accepts the write that `r` is about to make.
  predicate Accepted(w: World, r: nat) {
    match IntentOf(w, r)
    case Idle => false
    case Creating(_) => w.history == []
    case Updating(_, version, _) => version + 1 == |w.history|
  }

  function Written(intent: Intent): Source
    requires !intent.Idle?
  {
    if intent.Creating? then BuildEventSource(intent.pair.org, intent.pair.name) else intent.source
  }

  function Do(w: World, step: Step): World
    requires Enabled(w, step)
  {
    match step
    case ReadNothing(r, pair) => w.(intents := w.intents[r := Creating(pair)])
    case Read(r, pair, version) =>
      var s := w.history[version];
      if s.github.None? then w         // the merge crashes and the reconcile ends
      else if NeedsMerge(SectionOf(s).repositories, pair.org, pair.name) then
        w.(intents := w.intents[r := Updating(pair, version, Merge(s, pair.org, pair.name))])
      else w.(reported := w.reported + {pair})
    case Commit(r, answerLost) =>
      var intent, done := IntentOf(w, r), w.(intents := w.intents[r := Idle]);
      if !Accepted(w, r) then done     // AlreadyExists or Conflict
      else
        var s := Written(intent);
        done.(history := w.history + [s],
              landed := w.landed + {intent.pair},
              reported := if answerLost then w.reported else w.reported + {intent.pair},
              rest := if intent.Creating? then RestOf(s) else w.rest)
    case GiveUp(r) => w.(intents := w.intents[r := Idle])
    case WriteRest(s) => w.(history := w.history + [s], rest := RestOf(s))
  }

  /** Some run leads from `w` to `v` by these steps. */
  predicate IsRun(w: World, steps: seq<Step>, v: World)
    decreases |steps|
  {
    if steps == [] then v == w
    else Enabled(w, steps[0]) && IsRun(Do(w, steps[0]), steps[1..], v)
  }

  // Before the first reconcile: an arbitrary object, or none.
  predicate Initial(w: World) {
    && w.intents == map[] && w.landed == {} && w.reported == {} && |w.history| <= 1
    && (w.history != [] ==> w.rest == RestOf(Current(w)))
  }

  // ------------------------------------------------------------------ the invariant

  // An update in preparation adds one pair to the version it was read at, and changes nothing else.
  predicate Prepared(w: World, intent: Intent) {
    intent.Updating? ==>
      && intent.version < |w.history|
      && w.history[intent.version].github.Some?
      && intent.source == Merge(w.history[intent.version], intent.pair.org, intent.pair.name)
  }

  ghost predicate Grows(s: Source, t: Source) { forall p :: Owned(s, p) ==> Owned(t, p) }

  ghost predicate Inv(w: World, initial: set<Pair>) {
    && (w.history == [] ==> initial == {} && w.landed == {} && w.reported == {})
    && (w.history != [] ==>
          && (forall p :: Owned(Current(w), p) <==> p in initial || p in w.landed)
          && RestOf(Current(w)) == w.rest)
    && (forall v | 0 <= v < |w.history| :: Grows(w.history[v], Current(w)))
    && (forall r <- w.intents :: Prepared(w, w.intents[r]))
    && (forall p <- w.reported :: p in initial || p in w.landed)
  }

  lemma MergedOwns(s: Source, pair: Pair, p: Pair)
    requires s.github.Some?
    ensures Owned(Merge(s, pair.org, pair.name), p) <==> Owned(s, p) || p == pair
  {
    var repos := SectionOf(s).repositories;
    MergeAddsOnePair(repos, pair.org, pair.name, p.org, p.name);
    if !NeedsMerge(repos, pair.org, pair.name) { FoundIsListed(repos, pair.org, pair.name); }
  }

  lemma MergedKeepsRest(s: Source, pair: Pair)
    requires s.github.Some?
    ensures RestOf(Merge(s, pair.org, pair.name)) == RestOf(s)
  {
    var merged := Merge(s, pair.org, pair.name);
    assert merged.github.value - {SECTION} == s.github.value - {SECTION};
  }

  lemma BuiltOwns(pair: Pair, p: Pair)
    ensures Owned(BuildEventSource(pair.org, pair.name), p) <==> p == pair
  {
    var repos := SectionOf(BuildEventSource(pair.org, pair.name)).repositories;
    assert repos == [OwnedRepos(pair.org, [pair.name])];
    if p == pair { assert repos[0].owner == p.org && p.name in repos[0].names; }
  }

  lemma CommitKeepsInv(w: World, initial: set<Pair>, r: nat, answerLost: bool)
    requires Inv(w, initial) && Enabled(w, Commit(r, answerLost)) && Accepted(w, r)
    ensures Inv(Do(w, Commit(r, answerLost)), initial)
  {
    var intent, w' := IntentOf(w, r), Do(w, Commit(r, answerLost));
    var s := Written(intent);
    assert Current(w') == s;
    forall p ensures Owned(s, p) <==> p in initial || p in w'.landed {
      if intent.Creating? { BuiltOwns(intent.pair, p); } else { MergedOwns(Current(w), intent.pair, p); }
    }
    if intent.Updating? { MergedKeepsRest(Current(w), intent.pair); }
    forall v | 0 <= v < |w'.history| ensures Grows(w'.history[v], Current(w')) {
      if v < |w.history| { assert Grows(w.history[v], Current(w)); }
    }
    forall q | q in w'.intents ensures Prepared(w', w'.intents[q]) {
      if q != r { assert Prepared(w, w.intents[q]); }
    }
  }

  lemma ReadKeepsInv(w: World, initial: set<Pair>, r: nat, pair: Pair, version: nat)
    requires Inv(w, initial) && Enabled(w, Read(r, pair, version))
    ensures Inv(Do(w, Read(r, pair, version)), initial)
  {
    var s := w.history[version];
    assert Grows(s, Current(w));
    if s.github.Some? && !NeedsMerge(SectionOf(s).repositories, pair.org, pair.name) {
      FoundIsListed(SectionOf(s).repositories, pair.org, pair.name);
      assert Owned(s, pair) && Owned(Current(w), pair);
    }
  }

  lemma WriteRestKeepsInv(w: World, initial: set<Pair>, s: Source)
    requires Inv(w, initial) && Enabled(w, WriteRest(s))
    ensures Inv(Do(w, WriteRest(s)), initial)
  {
    var w' := Do(w, WriteRest(s));
    assert forall p :: Owned(Current(w'), p) <==> Owned(Current(w), p);
    forall v | 0 <= v < |w'.history| ensures Grows(w'.history[v], Current(w')) {
      if v < |w.history| { assert Grows(w.history[v], Current(w)); }
    }
    forall q | q in w'.intents ensures Prepared(w', w'.intents[q]) { assert Prepared(w, w.intents[q]); }
  }

  lemma StepKeepsInv(w: World, initial: set<Pair>, step: Step)
    requires Inv(w, initial) && Enabled(w, step)
    ensures Inv(Do(w, step), initial)
  {
    match step
    case ReadNothing(_, _) =>
    case Read(r, pair, version) => ReadKeepsInv(w, initial, r, pair, version);
    case Commit(r, answerLost) => if Accepted(w, r) { CommitKeepsInv(w, initial, r, answerLost); }
    case GiveUp(_) =>
    case WriteRest(s) => WriteRestKeepsInv(w, initial, s);
  }

  lemma {:induction false} RunKeepsInv(w: World, steps: seq<Step>, v: World, initial: set<Pair>)
    requires Inv(w, initial) && IsRun(w, steps, v)
    ensures Inv(v, initial) && |w.history| <= |v.history| && v.history[..|w.history|] == w.history
    decreases |steps|
  {
    if steps != [] {
      StepKeepsInv(w, initial, steps[0]);
      RunKeepsInv(Do(w, steps[0]), steps[1..], v, initial);
    }
  }

  // ------------------------------------------------------------------ main results

  ghost predicate OwnedInitially(w: World, initial: set<Pair>) {
    forall p :: p in initial <==> w.history != [] && Owned(Current(w), p)
  }

  /**
   After any run, the repositories listed in the EventSource are those listed at the beginning and those whose
   write took effect. Every repository a reconcile reported as synced is listed. The rest of the object, the section's
   settings and the other sections included, is what its last writer wrote.
   */
  lemma RepositoriesAreConserved(w: World, steps: seq<Step>, v: World, initial: set<Pair>)
    requires Initial(w) && IsRun(w, steps, v) && OwnedInitially(w, initial)
    ensures v.history != [] ==> forall p :: Owned(Current(v), p) <==> p in initial || p in v.landed
    ensures forall p <- v.reported :: v.history != [] && Owned(Current(v), p)
    ensures v.history != [] ==> RestOf(Current(v)) == v.rest
  {
    RunKeepsInv(w, steps, v, initial);
  }

  /** Nothing that is listed at some point of a run is missing later in it. */
  lemma ListsNeverShrink(w: World, early: seq<Step>, u: World, late: seq<Step>, v: World, initial: set<Pair>, p: Pair)
    requires Initial(w) && OwnedInitially(w, initial)
    requires IsRun(w, early, u) && IsRun(u, late, v)
    requires u.history != [] && Owned(Current(u), p)
    ensures v.history != [] && Owned(Current(v), p)
  {
    RunKeepsInv(w, early, u, initial);
    RunKeepsInv(u, late, v, initial);
    assert v.history[|u.history| - 1] == Current(u);
  }

  function Round(w: World, r: nat, pair: Pair): (steps: seq<Step>) {
    var read := if w.history == [] then ReadNothing(r, pair) else Read(r, pair, |w.history| - 1);
    if w.history != [] && !NeedsMerge(SectionOf(Current(w)).repositories, pair.org, pair.name)
    then [GiveUp(r), read] else [GiveUp(r), read, Commit(r, false)]
  }

  /** From every state whose object has its map, one undisturbed round with a fresh read succeeds. */
  lemma AFreshRoundSucceeds(w: World, initial: set<Pair>, r: nat, pair: Pair) returns (v: World)
    requires Inv(w, initial) && (w.history != [] ==> Current(w).github.Some?)
    ensures IsRun(w, Round(w, r, pair), v) && pair in v.reported
    ensures v.history != [] && Owned(Current(v), pair)
  {
    var steps := Round(w, r, pair);
    var w1 := Do(w, steps[0]);
    assert IntentOf(w1, r).Idle?;
    var w2 := Do(w1, steps[1]);
    assert |steps| == 3 ==> steps[1..][1..] == [Commit(r, false)] && [Commit(r, false)][1..] == [];
    assert |steps| == 2 ==> steps[1..][1..] == [];
    v := if |steps| == 3 then Do(w2, steps[2]) else w2;
    assert steps[1..][0] == steps[1];
    assert IsRun(w2, steps[1..][1..], v);
    assert IsRun(w1, steps[1..], v);
    RunKeepsInv(w, steps, v, initial);
  }
}

/**
 The objects of a cluster as the reconciler handles them: get, compare, then create, update or recreate. Every object
 has a history of versions. A read may return any of them, an update is accepted only for the last one, and a delete
 always is.
 */
module Cluster {
  import opened Options
  import opened Faults

  datatype Kind = EventBus | VolumeClaim | ServiceAccount | Role | RoleBinding | Project | Application | Sensor

  datatype Key = Key(kind: Kind, namespace: string, name: string)

  type Fields = map<string, string>

  // `spec` is the part that is compared and updated: for volume claims the resource requests, for roles the rules,
  // for role bindings the subjects. `roleRef` is immutable; only role bindings have one.
  datatype Object = Object(roleRef: string, spec: Fields)

  // Oldest first; None where the object does not exist.
  type History = seq<Option<Object>>

  type Objects = map<Key, History>

  // An object the controller wants to exist.
  datatype Want = Want(key: Key, form: Object)

  // The server fills in `defaults`.
  datatype Run = Run(objects: Objects, writes: nat, defaults: map<Kind, Fields>, plan: Plan)

  function HistoryOf(objects: Objects, key: Key): (h: History)
    ensures h != []
  {
    if key in objects && objects[key] != [] then objects[key] else [None]
  }

  function Last(h: History): Option<Object>
    requires h != []
  {
    h[|h| - 1]
  }

  function Now(objects: Objects, key: Key): Option<Object> { Last(HistoryOf(objects, key)) }

  // ------------------------------------------------------------------ comparing

  /** DeepDerivative: every field that is set in `want` has that value in `have`. */
  predicate Derives(want: Fields, have: Fields) {
    forall f <- want :: want[f] != "" ==> f in have && have[f] == want[f]
  }

  /** What the server stores: it fills fields that are not set. */
  function Defaulted(defaults: Fields, spec: Fields): (stored: Fields)
    ensures Derives(spec, stored)
  {
    map f | f in defaults.Keys + spec.Keys ::
      if f in spec && (spec[f] != "" || f !in defaults) then spec[f] else defaults[f]
  }

  /** A version in which the reconciler finds no drift. */
  predicate IsAsWanted(v: Option<Object>, w: Want) {
    && v.Some?
    && match w.key.kind
       case ServiceAccount => true
       case RoleBinding => v.value.roleRef == w.form.roleRef && Derives(w.form.spec, v.value.spec)
       case _ => Derives(w.form.spec, v.value.spec)
  }

  predicate Holds(objects: Objects, w: Want) { IsAsWanted(Now(objects, w.key), w) }

  // ------------------------------------------------------------------ the API server

  datatype Got = Read(version: nat, object_: Option<Object>) | Error

  function VersionRead(f: Fault, versions: nat): (v: nat)
    requires versions > 0
    ensures v < versions && (!f.Stale? ==> v == versions - 1)
  {
    if f.Stale? && f.version < versions then f.version else versions - 1
  }

  function Get(run: Run, key: Key): (Run, Got) {
    var f, h := Next(run.plan), HistoryOf(run.objects, key);
    (run.(plan := Rest(run.plan)),
     if Answers(f) then var v := VersionRead(f, |h|); Read(v, h[v]) else Error)
  }

  function Append(objects: Objects, key: Key, v: Option<Object>): Objects {
    objects[key := HistoryOf(objects, key) + [v]]
  }

  function Stored(run: Run, kind: Kind, o: Object): Object {
    o.(spec := Defaulted(if kind in run.defaults then run.defaults[kind] else map[], o.spec))
  }

  // A call that writes version `v`, if the server accepts it.
  function WriteCall(run: Run, key: Key, v: Option<Object>, accepted: bool): Done<Run> {
    var f := Next(run.plan);
    Done(run.(objects := if accepted && Lands(f) then Append(run.objects, key, v) else run.objects,
              writes := run.writes + 1, plan := Rest(run.plan)),
         accepted && Answers(f))
  }

  function Create(run: Run, key: Key, o: Object): Done<Run> {
    WriteCall(run, key, Some(Stored(run, key.kind, o)), Now(run.objects, key).None?)
  }

  function Update(run: Run, key: Key, version: nat, o: Object): Done<Run> {
    WriteCall(run, key, Some(Stored(run, key.kind, o)), version + 1 == |HistoryOf(run.objects, key)|)
  }

  function Delete(run: Run, key: Key): Done<Run> {
    WriteCall(run, key, None, Now(run.objects, key).Some?)
  }

  // ------------------------------------------------------------------ one object, several objects

  /** Bring one object, just fetched, to its desired form. */
  function Apply(run: Run, w: Want, got: Got): Done<Run> {
    match got
    case Error => Done(run, false)
    case Read(_, None) => Create(run, w.key, w.form)
    case Read(version, Some(o)) =>
      if w.key.kind.RoleBinding? && o.roleRef != w.form.roleRef then
        var deleted := Delete(run, w.key);
        if deleted.ok then Create(deleted.state, w.key, w.form) else deleted
      else if !w.key.kind.ServiceAccount? && !Derives(w.form.spec, o.spec) then
        Update(run, w.key, version, o.(spec := w.form.spec))
      else Done(run, true)
  }

  function SyncOne(run: Run, w: Want): Done<Run> {
    var (fetched, got) := Get(run, w.key);
    Apply(fetched, w, got)
  }

  /** One object after the other, up to the first failure. */
  function SyncList(run: Run, wants: seq<Want>): Done<Run>
    decreases |wants|
  {
    if wants == [] then Done(run, true)
    else
      var first := SyncOne(run, wants[0]);
      if first.ok then SyncList(first.state, wants[1..]) else first
  }

  /** The same for objects that must share their owner's namespace, which is found out after fetching. */
  function SyncOwned(run: Run, wants: seq<Want>, namespace: string): Done<Run>
    decreases |wants|
  {
    if wants == [] then Done(run, true)
    else
      var (fetched, got) := Get(run, wants[0].key);
      if got.Error? || wants[0].key.namespace != namespace then Done(fetched, false)
      else
        var first := Apply(fetched, wants[0], got);
        if first.ok then SyncOwned(first.state, wants[1..], namespace) else first
  }

  // ------------------------------------------------------------------ what stale reads can be trusted with

  /** No version has another role reference, and every version since the first one as wanted is as wanted. */
  ghost predicate Steady(objects: Objects, w: Want) {
    var h := HistoryOf(objects, w.key);
    && (w.key.kind.RoleBinding? ==> forall i | 0 <= i < |h| :: h[i].Some? ==> h[i].value.roleRef == w.form.roleRef)
    && (forall i, j | 0 <= i <= j < |h| :: IsAsWanted(h[i], w) ==> IsAsWanted(h[j], w))
  }

  /** What is read about `w` from now on can be trusted. */
  ghost predicate Trusted(run: Run, w: Want) { Fresh(run.plan) || Steady(run.objects, w) }

  predicate SameAt(before: Objects, after: Objects, key: Key) { HistoryOf(before, key) == HistoryOf(after, key) }

  // What an attempt may do as far as `v` is concerned.
  ghost predicate Keeps(before: Run, after: Run, v: Want) {
    && (Fresh(before.plan) ==> Fresh(after.plan))
    && (Steady(before.objects, v) ==> Steady(after.objects, v))
    && (Holds(before.objects, v) ==> SameAt(before.objects, after.objects, v.key))
  }

  lemma KeepsThen(before: Run, middle: Run, after: Run, v: Want)
    requires Trusted(before, v) && Keeps(before, middle, v) && Keeps(middle, after, v)
    ensures Trusted(middle, v) && Keeps(before, after, v) && Trusted(after, v)
  {
  }

  lemma AppendedAt(objects: Objects, key: Key, v: Option<Object>, other: Key)
    ensures HistoryOf(Append(objects, key, v), other) ==
      if other == key then HistoryOf(objects, key) + [v] else HistoryOf(objects, other)
  {
  }

  /** A write of another object changes nothing for `v`. */
  lemma OtherWrites(run: Run, key: Key, o: Option<Object>, accepted: bool, v: Want)
    requires key != v.key
    ensures Keeps(run, WriteCall(run, key, o, accepted).state, v)
  {
    AppendedAt(run.objects, key, o, v.key);
  }

  lemma ApplyToOther(run: Run, w: Want, got: Got, v: Want)
    requires w.key != v.key
    ensures Keeps(run, Apply(run, w, got).state, v)
  {
    match got
    case Error =>
    case Read(_, None) =>
      OtherWrites(run, w.key, Some(Stored(run, w.key.kind, w.form)), Now(run.objects, w.key).None?, v);
    case Read(version, Some(o)) =>
      var updated := o.(spec := w.form.spec);
      var accepted := version + 1 == |HistoryOf(run.objects, w.key)|;
      OtherWrites(run, w.key, Some(Stored(run, w.key.kind, updated)), accepted, v);
      OtherWrites(run, w.key, None, Now(run.objects, w.key).Some?, v);
      var deleted := Delete(run, w.key).state;
      OtherWrites(deleted, w.key, Some(Stored(deleted, w.key.kind, w.form)), Now(deleted.objects, w.key).None?, v);
  }

  // ------------------------------------------------------------------ the object itself

  lemma CreateOwn(run: Run, w: Want)
    requires Trusted(run, w)
    ensures var d := Create(run, w.key, w.form); Keeps(run, d.state, w) && (d.ok ==> Holds(d.state.objects, w))
  {
    AppendedAt(run.objects, w.key, Some(Stored(run, w.key.kind, w.form)), w.key);
  }

  lemma UpdateOwn(run: Run, w: Want, version: nat)
    requires Trusted(run, w) && version < |HistoryOf(run.objects, w.key)|
    requires HistoryOf(run.objects, w.key)[version].Some? && !IsAsWanted(HistoryOf(run.objects, w.key)[version], w)
    requires w.key.kind.RoleBinding? ==> HistoryOf(run.objects, w.key)[version].value.roleRef == w.form.roleRef
    ensures var o := HistoryOf(run.objects, w.key)[version].value;
      var d := Update(run, w.key, version, o.(spec := w.form.spec));
      Keeps(run, d.state, w) && (d.ok ==> Holds(d.state.objects, w))
  {
    var o := HistoryOf(run.objects, w.key)[version].value.(spec := w.form.spec);
    AppendedAt(run.objects, w.key, Some(Stored(run, w.key.kind, o)), w.key);
  }

  // With trusted reads, only a binding that has the wrong reference now is deleted.
  lemma RecreateOwn(run: Run, w: Want)
    requires Fresh(run.plan) && !Steady(run.objects, w) && !Holds(run.objects, w)
    ensures var deleted := Delete(run, w.key);
      var d := if deleted.ok then Create(deleted.state, w.key, w.form) else deleted;
      Keeps(run, d.state, w) && (d.ok ==> Holds(d.state.objects, w))
  {
    AppendedAt(run.objects, w.key, None, w.key);
    var deleted := Delete(run, w.key);
    AppendedAt(deleted.state.objects, w.key, Some(Stored(deleted.state, w.key.kind, w.form)), w.key);
  }

  lemma ApplyOwn(run: Run, w: Want, version: nat)
    requires Trusted(run, w) && version < |HistoryOf(run.objects, w.key)|
    requires Steady(run.objects, w) || version == |HistoryOf(run.objects, w.key)| - 1
    ensures var d := Apply(run, w, Read(version, HistoryOf(run.objects, w.key)[version]));
      && Keeps(run, d.state, w) && (d.ok ==> Holds(d.state.objects, w))
      && (Holds(run.objects, w) ==> d.state.objects == run.objects)
  {
    var h := HistoryOf(run.objects, w.key);
    match h[version]
    case None => CreateOwn(run, w);
    case Some(o) =>
      if w.key.kind.RoleBinding? && o.roleRef != w.form.roleRef {
        RecreateOwn(run, w);
      } else if !w.key.kind.ServiceAccount? && !Derives(w.form.spec, o.spec) {
        UpdateOwn(run, w, version);
      }
  }

  /** Bringing an object to its desired form gets there, if reads about it can be trusted, and keeps it there. */
  lemma SyncOneOwn(run: Run, w: Want)
    requires Trusted(run, w)
    ensures var d := SyncOne(run, w);
      && Keeps(run, d.state, w) && (d.ok ==> Holds(d.state.objects, w))
      && (Holds(run.objects, w) ==> d.state.objects == run.objects)
  {
    var (fetched, got) := Get(run, w.key);
    if got.Read? { ApplyOwn(fetched, w, got.version); }
  }

  lemma SyncOneOther(run: Run, w: Want, v: Want)
    requires w.key != v.key
    ensures Keeps(run, SyncOne(run, w).state, v)
  {
    var (fetched, got) := Get(run, w.key);
    ApplyToOther(fetched, w, got, v);
  }

  // ------------------------------------------------------------------ what is written

  // Writing is what changes objects.
  ghost predicate Counted(before: Run, after: Run) {
    before.writes <= after.writes && (after.writes == before.writes ==> after.objects == before.objects)
  }

  lemma SyncOneCounts(run: Run, w: Want)
    ensures Counted(run, SyncOne(run, w).state) && SyncOne(run, w).state.defaults == run.defaults
    ensures Fresh(run.plan) && Holds(run.objects, w) ==> SyncOne(run, w).state.writes == run.writes
    ensures var d := SyncOne(run, w); d.ok && d.state.objects == run.objects ==> d.state.writes == run.writes
    ensures run.plan == [] ==> SyncOne(run, w).ok && SyncOne(run, w).state.plan == []
  {
    AppendedAt(run.objects, w.key, None, w.key);
    forall o ensures Append(run.objects, w.key, o) != run.objects { AppendedAt(run.objects, w.key, o, w.key); }
    var (fetched, got) := Get(run, w.key);
    var deleted := Delete(fetched, w.key).state;
    forall o ensures HistoryOf(Append(deleted.objects, w.key, o), w.key) == HistoryOf(deleted.objects, w.key) + [o] {
      AppendedAt(deleted.objects, w.key, o, w.key);
    }
  }

  // ------------------------------------------------------------------ lists

  // `v` is among the wants, or about another object than all of them.
  predicate FitsIn(wants: seq<Want>, v: Want) { forall w <- wants :: w.key == v.key ==> w == v }

  lemma SyncOneKeeps(run: Run, w: Want, v: Want)
    requires Trusted(run, v) && (w.key == v.key ==> w == v)
    ensures var d := SyncOne(run, w);
      Keeps(run, d.state, v) && Trusted(d.state, v) && (w == v && d.ok ==> Holds(d.state.objects, v))
  {
    if w == v { SyncOneOwn(run, v); } else { SyncOneOther(run, w, v); }
  }

  lemma {:induction false} SyncListKeeps(run: Run, wants: seq<Want>, v: Want)
    requires Trusted(run, v) && FitsIn(wants, v)
    ensures var d := SyncList(run, wants);
      Keeps(run, d.state, v) && Trusted(d.state, v) && (v in wants && d.ok ==> Holds(d.state.objects, v))
    decreases |wants|
  {
    if wants != [] {
      var first := SyncOne(run, wants[0]);
      SyncOneKeeps(run, wants[0], v);
      if first.ok {
        FitsInRest(wants, v);
        SyncListKeeps(first.state, wants[1..], v);
        KeepsThen(run, first.state, SyncList(first.state, wants[1..]).state, v);
      }
    }
  }

  lemma FitsInRest(wants: seq<Want>, v: Want)
    requires wants != [] && FitsIn(wants, v)
    ensures FitsIn(wants[1..], v) && (v in wants <==> v == wants[0] || v in wants[1..])
  {
    assert wants == [wants[0]] + wants[1..];
  }

  lemma {:induction false} SyncListCounts(run: Run, wants: seq<Want>)
    ensures Counted(run, SyncList(run, wants).state) && SyncList(run, wants).state.defaults == run.defaults
    ensures run.plan == [] ==> SyncList(run, wants).ok && SyncList(run, wants).state.plan == []
    decreases |wants|
  {
    if wants != [] {
      SyncOneCounts(run, wants[0]);
      SyncListCounts(SyncOne(run, wants[0]).state, wants[1..]);
    }
  }

  /** A list whose objects are all there is left alone; with fresh reads nothing is even attempted. */
  lemma {:induction false} SyncListIsQuiet(run: Run, wants: seq<Want>)
    requires forall w <- wants :: Trusted(run, w) && Holds(run.objects, w)
    ensures SyncList(run, wants).state.objects == run.objects
    ensures Fresh(run.plan) || SyncList(run, wants).ok ==> SyncList(run, wants).state.writes == run.writes
    decreases |wants|
  {
    if wants != [] {
      var first := SyncOne(run, wants[0]);
      SyncOneOwn(run, wants[0]);
      SyncOneCounts(run, wants[0]);
      if first.ok {
        forall w | w in wants[1..] ensures Trusted(first.state, w) && Holds(first.state.objects, w) {
          assert w in wants;
        }
        SyncListIsQuiet(first.state, wants[1..]);
      }
    }
  }

  // ------------------------------------------------------------------ owned objects

  predicate AllIn(wants: seq<Want>, namespace: string) { forall w <- wants :: w.key.namespace == namespace }

  lemma {:induction false} SyncOwnedKeeps(run: Run, wants: seq<Want>, namespace: string, v: Want)
    requires Trusted(run, v) && FitsIn(wants, v)
    ensures var d := SyncOwned(run, wants, namespace);
      Keeps(run, d.state, v) && Trusted(d.state, v) && (v in wants && d.ok ==> Holds(d.state.objects, v))
    decreases |wants|
  {
    if wants != [] {
      var first := SyncOne(run, wants[0]);
      SyncOneKeeps(run, wants[0], v);
      if wants[0].key.namespace == namespace && first.ok {
        SyncOwnedKeeps(first.state, wants[1..], namespace, v);
        KeepsThen(run, first.state, SyncOwned(first.state, wants[1..], namespace).state, v);
        assert wants == [wants[0]] + wants[1..];
      }
    }
  }

  lemma {:induction false} SyncOwnedCounts(run: Run, wants: seq<Want>, namespace: string)
    ensures var d := SyncOwned(run, wants, namespace);
      && Counted(run, d.state) && d.state.defaults == run.defaults
      && (d.ok ==> AllIn(wants, namespace))
      && (run.plan == [] ==> d.state.plan == [] && (d.ok <==> AllIn(wants, namespace)))
    decreases |wants|
  {
    if wants != [] {
      SyncOneCounts(run, wants[0]);
      SyncOwnedCounts(SyncOne(run, wants[0]).state, wants[1..], namespace);
      assert wants == [wants[0]] + wants[1..];
    }
  }

  lemma {:induction false} SyncOwnedIsQuiet(run: Run, wants: seq<Want>, namespace: string)
    requires forall w <- wants :: Trusted(run, w) && Holds(run.objects, w)
    ensures SyncOwned(run, wants, namespace).state.objects == run.objects
    ensures Fresh(run.plan) || SyncOwned(run, wants, namespace).ok ==>
      SyncOwned(run, wants, namespace).state.writes == run.writes
    decreases |wants|
  {
    if wants != [] {
      var first := SyncOne(run, wants[0]);
      SyncOneOwn(run, wants[0]);
      SyncOneCounts(run, wants[0]);
      if wants[0].key.namespace == namespace && first.ok {
        forall w | w in wants[1..] ensures Trusted(first.state, w) && Holds(first.state.objects, w) {
          assert w in wants;
        }
        SyncOwnedIsQuiet(first.state, wants[1..], namespace);
      }
    }
  }
}

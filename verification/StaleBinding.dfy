/**
 A role binding with another role is deleted and created anew, on the word of a read that may be stale. The namespace
 cache can be relied on in every run exactly when no such binding was there at the start.
 */
module StaleBinding {
  import opened Options
  import opened Faults
  import opened Cluster
  import opened FlowWants
  import opened ReconcilerModel
  import opened ReconcilerLaws
  import opened ReconcilerRuns
  import GitUrl

  // ------------------------------------------------------------------ calls without faults

  function NoFaults(n: nat): Plan { seq(n, i => NoFault) }

  lemma TakeOne(n: nat, rest: Plan)
    requires n > 0
    ensures Next(NoFaults(n) + rest) == NoFault && Rest(NoFaults(n) + rest) == NoFaults(n - 1) + rest
  {
    assert (NoFaults(n) + rest)[0] == NoFault;
  }

  lemma HoldingTakesOneRead(run: Run, w: Want)
    requires Next(run.plan) == NoFault && Holds(run.objects, w)
    ensures SyncOne(run, w) == Done(run.(plan := Rest(run.plan)), true)
  {
  }

  // Objects that are as wanted take one call each.
  lemma {:induction false} HoldingListTakesItsReads(run: Run, wants: seq<Want>, rest: Plan)
    requires run.plan == NoFaults(|wants|) + rest && forall w <- wants :: Holds(run.objects, w)
    ensures SyncList(run, wants) == Done(run.(plan := rest), true)
    decreases |wants|
  {
    if wants == [] {
      assert NoFaults(0) + rest == rest;
    } else {
      TakeOne(|wants|, rest);
      var next := run.(plan := NoFaults(|wants| - 1) + rest);
      assert wants[0] in wants && Holds(run.objects, wants[0]);
      HoldingTakesOneRead(run, wants[0]);
      forall w | w in wants[1..] ensures Holds(next.objects, w) { assert w in wants; }
      HoldingListTakesItsReads(next, wants[1..], rest);
    }
  }

  lemma {:induction false} ListThenOne(run: Run, wants: seq<Want>, last: Want)
    ensures var first := SyncList(run, wants);
      SyncList(run, wants + [last]) == if first.ok then SyncOne(first.state, last) else first
    decreases |wants|
  {
    if wants == [] {
      assert [] + [last] == [last] && [last][1..] == [];
    } else {
      assert (wants + [last])[1..] == wants[1..] + [last];
      ListThenOne(SyncOne(run, wants[0]).state, wants[1..], last);
    }
  }

  lemma SyncOneMissesOther(run: Run, w: Want, key: Key)
    requires w.key != key
    ensures SameAt(run.objects, SyncOne(run, w).state.objects, key)
  {
    forall objects, o ensures HistoryOf(Append(objects, w.key, o), key) == HistoryOf(objects, key) {
      AppendedAt(objects, w.key, o, key);
    }
  }

  lemma {:induction false} SyncListMissesOther(run: Run, wants: seq<Want>, key: Key)
    requires forall w <- wants :: w.key != key
    ensures SameAt(run.objects, SyncList(run, wants).state.objects, key)
    decreases |wants|
  {
    if wants != [] {
      SyncOneMissesOther(run, wants[0], key);
      forall w | w in wants[1..] ensures w.key != key { assert w in wants; }
      SyncListMissesOther(SyncOne(run, wants[0]).state, wants[1..], key);
    }
  }

  // ------------------------------------------------------------------ the run

  function Others(k: Constants, ns: string): seq<Want> {
    [EventBusWant(k, ns), VolumeClaimWant(k, ns), ServiceAccountWant(k, ns), RoleWant(k, ns)]
  }

  lemma NamespaceSplits(k: Constants, ns: string)
    ensures NamespaceWants(k, ns) == Others(k, ns) + [RoleBindingWant(k, ns)]
    ensures forall w <- Others(k, ns) :: w.key != RoleBindingWant(k, ns).key && w in NamespaceWants(k, ns)
  {
  }

  // A Flow with a repository url that does not parse; its namespace is reconciled first all the same.
  function SomeJob(ns: string): Job {
    var sensor := Want(Key(Kind.Sensor, ns, "flow"), Object("", map[]));
    Job(ns, "flow", true, false, [], [], Errs, sensor, GitUrl.InvalidPath)
  }

  lemma SomeJobReconciles(k: Constants, w: World, ns: string, plan: Plan)
    ensures var started := w.(run := w.run.(plan := plan));
      var synced := SyncNamespace(k, FetchFlow(started, FlowName(ns, "flow")).state, ns).state;
      var a := Step(k, w, Reconciling(SomeJob(ns), plan));
      Answers(Next(plan)) ==> a.run.objects == synced.run.objects && a.caches == synced.caches
  {
    var started := w.(run := w.run.(plan := plan));
    var synced := SyncNamespace(k, FetchFlow(started, FlowName(ns, "flow")).state, ns);
    SetConditionIs(synced.state, FlowName(ns, "flow"), Condition(false, "AppBuildFailed"));
  }

  lemma ReplaceOne(run: Run, w: Want, bad: Object) returns (good: Object)
    requires run.plan == [] && w.key.kind.RoleBinding? && HistoryOf(run.objects, w.key) == [Some(bad)]
    requires bad.roleRef != w.form.roleRef
    ensures SyncOne(run, w).ok && HistoryOf(SyncOne(run, w).state.objects, w.key) == [Some(bad), None, Some(good)]
  {
    AppendedAt(run.objects, w.key, None, w.key);
    var deleted := Delete(run, w.key).state;
    good := Stored(deleted, w.key.kind, w.form);
    AppendedAt(deleted.objects, w.key, Some(good), w.key);
  }

  // The read is stale, the delete goes through, and the create does not.
  lemma DeleteOne(run: Run, w: Want, bad: Object, good: Object)
    requires run.plan == [Stale(0), NoFault, FailBefore] && w.key.kind.RoleBinding?
    requires HistoryOf(run.objects, w.key) == [Some(bad), None, Some(good)] && bad.roleRef != w.form.roleRef
    ensures !SyncOne(run, w).ok
    ensures HistoryOf(SyncOne(run, w).state.objects, w.key) == [Some(bad), None, Some(good), None]
  {
    var (fetched, got) := Get(run, w.key);
    assert fetched.plan == [NoFault, FailBefore] && got == Read(0, Some(bad));
    AppendedAt(run.objects, w.key, None, w.key);
    var deleted := Delete(fetched, w.key).state;
    assert deleted.plan == [FailBefore];
    assert Now(deleted.objects, w.key) == None;
  }

  lemma NamespaceFits(k: Constants, ns: string, v: Want)
    requires v in NamespaceWants(k, ns)
    ensures FitsIn(NamespaceWants(k, ns), v)
  {
    SharedWantsAreDetermined(k, v);
    forall w | w in NamespaceWants(k, ns) && w.key == v.key ensures w == v { SharedWantsAreDetermined(k, w); }
  }

  lemma NamespaceSyncs(k: Constants, run: Run, ns: string)
    requires run.plan == []
    ensures SyncList(run, NamespaceWants(k, ns)).ok
    ensures forall v <- NamespaceWants(k, ns) :: Holds(SyncList(run, NamespaceWants(k, ns)).state.objects, v)
  {
    SyncListCounts(run, NamespaceWants(k, ns));
    forall v | v in NamespaceWants(k, ns) ensures Holds(SyncList(run, NamespaceWants(k, ns)).state.objects, v) {
      NamespaceFits(k, ns, v);
      SyncListKeeps(run, NamespaceWants(k, ns), v);
    }
  }

  lemma NamespaceReplaces(k: Constants, run: Run, ns: string, bad: Object) returns (good: Object)
    requires run.plan == [] && HistoryOf(run.objects, RoleBindingWant(k, ns).key) == [Some(bad)]
    requires bad.roleRef != RoleBindingWant(k, ns).form.roleRef
    ensures HistoryOf(SyncList(run, NamespaceWants(k, ns)).state.objects, RoleBindingWant(k, ns).key)
         == [Some(bad), None, Some(good)]
  {
    NamespaceSplits(k, ns);
    ListThenOne(run, Others(k, ns), RoleBindingWant(k, ns));
    SyncListCounts(run, Others(k, ns));
    SyncListMissesOther(run, Others(k, ns), RoleBindingWant(k, ns).key);
    good := ReplaceOne(SyncList(run, Others(k, ns)).state, RoleBindingWant(k, ns), bad);
  }

  /** The first, undisturbed reconcile replaces the binding. */
  lemma FirstReplaces(k: Constants, w: World, ns: string, bad: Object) returns (a: World, good: Object)
    requires ns !in w.caches.namespaces && HistoryOf(w.run.objects, RoleBindingWant(k, ns).key) == [Some(bad)]
    requires bad.roleRef != RoleBindingWant(k, ns).form.roleRef
    ensures a == Step(k, w, Reconciling(SomeJob(ns), []))
    ensures forall v <- NamespaceWants(k, ns) :: Holds(a.run.objects, v)
    ensures HistoryOf(a.run.objects, RoleBindingWant(k, ns).key) == [Some(bad), None, Some(good)]
  {
    var run := w.run.(plan := []);
    a := Step(k, w, Reconciling(SomeJob(ns), []));
    SomeJobReconciles(k, w, ns, []);
    NamespaceSyncs(k, run, ns);
    good := NamespaceReplaces(k, run, ns, bad);
  }

  // The reads of the Flow and of the four other objects, and then what happens to the binding.
  function After4(rest: Plan): Plan { NoFaults(5) + rest }

  lemma OthersHoldOn(k: Constants, w: World, ns: string, rest: Plan)
    requires ns !in w.caches.namespaces && forall v <- Others(k, ns) :: Holds(w.run.objects, v)
    ensures var d := SyncOne(w.run.(plan := rest), RoleBindingWant(k, ns));
      var a := Step(k, w, Reconciling(SomeJob(ns), After4(rest)));
      && a.run.objects == d.state.objects
      && a.caches == if d.ok then w.caches.(namespaces := w.caches.namespaces + {ns}) else w.caches
  {
    TakeOne(5, rest);
    SomeJobReconciles(k, w, ns, After4(rest));
    var run := w.run.(plan := NoFaults(4) + rest);
    NamespaceSplits(k, ns);
    HoldingListTakesItsReads(run, Others(k, ns), rest);
    ListThenOne(run, Others(k, ns), RoleBindingWant(k, ns));
  }

  /** A stale read shows the old binding; the new one is deleted, and creating it anew fails. */
  lemma SecondDeletes(k: Constants, w: World, ns: string, bad: Object, good: Object) returns (a: World)
    requires ns !in w.caches.namespaces && forall v <- Others(k, ns) :: Holds(w.run.objects, v)
    requires HistoryOf(w.run.objects, RoleBindingWant(k, ns).key) == [Some(bad), None, Some(good)]
    requires bad.roleRef != RoleBindingWant(k, ns).form.roleRef
    ensures a == Step(k, w, Reconciling(SomeJob(ns), After4([Stale(0), NoFault, FailBefore])))
    ensures forall v <- Others(k, ns) :: Holds(a.run.objects, v)
    ensures HistoryOf(a.run.objects, RoleBindingWant(k, ns).key) == [Some(bad), None, Some(good), None]
    ensures a.caches == w.caches
  {
    var rest := [Stale(0), NoFault, FailBefore];
    var binding, run := RoleBindingWant(k, ns), w.run.(plan := rest);
    a := Step(k, w, Reconciling(SomeJob(ns), After4(rest)));
    OthersHoldOn(k, w, ns, rest);
    DeleteOne(run, binding, bad, good);
    NamespaceSplits(k, ns);
    forall v | v in Others(k, ns) ensures Holds(a.run.objects, v) { SyncOneMissesOther(run, binding, v.key); }
  }

  /** A stale read shows the binding that was there in between, and the namespace is remembered. */
  lemma ThirdRemembers(k: Constants, w: World, ns: string, bad: Object, good: Object) returns (a: World)
    requires ns !in w.caches.namespaces && forall v <- Others(k, ns) :: Holds(w.run.objects, v)
    requires HistoryOf(w.run.objects, RoleBindingWant(k, ns).key) == [Some(bad), None, Some(good), None]
    requires IsAsWanted(Some(good), RoleBindingWant(k, ns))
    ensures a == Step(k, w, Reconciling(SomeJob(ns), After4([Stale(2)])))
    ensures ns in a.caches.namespaces && !Holds(a.run.objects, RoleBindingWant(k, ns))
  {
    OthersHoldOn(k, w, ns, [Stale(2)]);
    a := Step(k, w, Reconciling(SomeJob(ns), After4([Stale(2)])));
  }

  function TheRun(ns: string): seq<Event> {
    [Reconciling(SomeJob(ns), []), Restart,
     Reconciling(SomeJob(ns), After4([Stale(0), NoFault, FailBefore])), Reconciling(SomeJob(ns), After4([Stale(2)]))]
  }

  lemma TheRunIsOfJobs(ns: string)
    ensures AllJobs(TheRun(ns))
  {
    var job := SomeJob(ns);
    assert IsJob(job);
    forall e | e in TheRun(ns) && e.Reconciling? ensures e.job == job {}
  }

  lemma TheRunLosesIt(k: Constants, w: World, ns: string, bad: Object)
    requires ns !in w.caches.namespaces && HistoryOf(w.run.objects, RoleBindingWant(k, ns).key) == [Some(bad)]
    requires bad.roleRef != RoleBindingWant(k, ns).form.roleRef
    ensures var w1 := Step(k, w, Reconciling(SomeJob(ns), []));
      var w3 := Step(
        k, w1.(caches := NO_CACHES), Reconciling(SomeJob(ns), After4([Stale(0), NoFault, FailBefore])));
      var w4 := Step(k, w3, Reconciling(SomeJob(ns), After4([Stale(2)])));
      ns in w4.caches.namespaces && !Holds(w4.run.objects, RoleBindingWant(k, ns))
  {
    NamespaceSplits(k, ns);
    var w1, good := FirstReplaces(k, w, ns, bad);
    assert RoleBindingWant(k, ns) in NamespaceWants(k, ns) && Holds(w1.run.objects, RoleBindingWant(k, ns));
    var w3 := SecondDeletes(k, w1.(caches := NO_CACHES), ns, bad, good);
    var w4 := ThirdRemembers(k, w3, ns, bad, good);
  }

  /** For every cluster with a wrong binding: a run after which the namespace is remembered and has no binding. */
  lemma TheBindingGetsLost(k: Constants, w: World, ns: string)
    requires Starts(w) && !BindingIsGood(k, w, ns)
    ensures AllJobs(TheRun(ns)) && !NamespaceSound(k, Play(k, w, TheRun(ns)), ns)
  {
    var key := RoleBindingWant(k, ns).key;
    assert |HistoryOf(w.run.objects, key)| == 1;
    TheRunLosesIt(k, w, ns, Now(w.run.objects, key).value);
    TheRunIsOfJobs(ns);
    PlayFour(
      k, w, Reconciling(SomeJob(ns), []), Restart,
      Reconciling(SomeJob(ns), After4([Stale(0), NoFault, FailBefore])), Reconciling(SomeJob(ns), After4([Stale(2)])));
    assert RoleBindingWant(k, ns) in NamespaceWants(k, ns);
  }

  lemma PlayFour(k: Constants, w: World, a: Event, b: Event, c: Event, d: Event)
    ensures Play(k, w, [a, b, c, d]) == Step(k, Step(k, Step(k, Step(k, w, a), b), c), d)
  {
    var e := [a, b, c, d];
    assert e[..3] == [a, b, c] && [a, b, c][..2] == [a, b] && [a, b][..1] == [a] && [a][..0] == [];
    assert Play(k, w, [a]) == Step(k, w, a);
    assert Play(k, w, [a, b]) == Step(k, Step(k, w, a), b);
    assert Play(k, w, [a, b, c]) == Step(k, Step(k, Step(k, w, a), b), c);
  }

  /**
   The exact condition: the cache of a namespace is right in every run, whichever calls fail and whichever reads are
   stale, if and only if the namespace's role binding was absent or had the right role at the start.
   */
  lemma NamespacesAreSoundExactly(k: Constants, w: World, ns: string)
    requires Starts(w)
    ensures (forall events | AllJobs(events) :: NamespaceSound(k, Play(k, w, events), ns)) <==> BindingIsGood(k, w, ns)
  {
    if BindingIsGood(k, w, ns) {
      forall events | AllJobs(events) ensures NamespaceSound(k, Play(k, w, events), ns) {
        NamespaceIsSound(k, w, events, ns);
      }
    } else {
      TheBindingGetsLost(k, w, ns);
    }
  }
}

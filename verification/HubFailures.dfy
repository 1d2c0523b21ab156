/** Concrete runs in which the hub is lost, and exactly which senders can meet a closed channel. */
module HubFailures {
  import opened Messages
  import opened HubExceptions
  import opened HubModel
  import opened HubProtocol
  import opened HubSafety
  import opened HubProgress

  lemma Take(s: State, step: Step) returns (s': State)
    requires Reachable(s) && Enabled(s, step)
    ensures s' == Do(s, step) && Reachable(s')
  {
    ReachableStep(s, step);
    s' := Do(s, step);
  }

  /**
   A failed List during registration: the initial sender sends to unregister while the hub, its only
   receiver, waits for that sender.
   */
  lemma FailedListWedges() returns (s: State)
    ensures Reachable(s) && Wedged(s) && !CanReturn(s)
    ensures forall c <- s.peers :: !s.peers[c].writer.Complaining?
  {
    s := Init([]);
    ReachableInit([]);
    s := Take(s, Registration(Register(0, false)));
    s := Take(s, Registration(ListFail(FlowKind)));
    assert HasFailed(s.hub.senders[FlowKind]);
    ReturnsExactlyWhenNotWedged(s);
  }

  lemma ItsPodListCannotBeWritten(t: Topic) returns (s: State)
    requires t.PodsOf?
    ensures Reachable(s) && s.hub == Select && Subs(s.subs, t) == {0} && 0 in s.conns
    ensures Complains(s, 0) && s.queues == map[]
  {
    var none := Limits(iset{}, iset{});
    s := AnAuxConnectionAsks(t, none);
    WithinIsReachable(s, none);
    assert IsListing([], StoreOf(s, t));
    s := Take(s, Service(PodListOk([])));
    s := Take(s, Service(HubHands));
    s := Take(s, Outer(WriteFail(0)));
  }

  /**
   A failed WriteJSON: the writer sends to unregister while the hub, its only receiver, has already taken
   a pod event and offers it to that same writer. All List calls succeed.
   */
  lemma FailedWriteWedges() returns (s: State)
    ensures Reachable(s) && Wedged(s) && !CanReturn(s)
    ensures s.hub.Round?
  {
    var t := PodsOf("team", "app");
    s := ItsPodListCannotBeWritten(t);
    var e := Event(t, Item("team/pod", "body", false));
    s := Take(s, Outer(Change(t, e.item)));
    assert Queue(s, PodSource) == [e];
    s := Take(s, Service(Receive(PodSource)));
    assert s.hub == Round(e, {0});
    assert Complains(s, 0);
    ReturnsExactlyWhenNotWedged(s);
  }

  /** A request goroutine that passed the check of its context and is about to select on a closed channel. */
  predicate IsLate(s: State, id: nat) {
    TaskIn(s, id, Entering) && !s.peers[s.tasks[id].conn].open
  }

  lemma OuterPanics(s: State, step: OuterStep)
    requires OuterEnabled(s, step)
    ensures DoOuter(s, step).panics <= s.panics + {}
  {
  }

  lemma RegisterPanics(s: State, step: RegisterStep)
    requires RegisterEnabled(s, step)
    ensures DoRegister(s, step).panics <= s.panics + {InitialSend}
  {
  }

  lemma ServePanics(s: State, step: ServeStep)
    requires ServeEnabled(s, step)
    ensures DoServe(s, step).panics <= s.panics + {HubSend}
  {
    match step
    case Next(c) =>
    case HubPanics =>
    case _ =>
  }

  lemma UnregisterPanics(s: State, step: UnregisterStep)
    requires UnregisterEnabled(s, step)
    ensures DoUnregister(s, step).panics <= s.panics + {DoubleClose, BlockedSend}
  {
  }

  lemma OnlyLateTasksPanic(s: State, step: Step)
    requires Reachable(s) && Enabled(s, step) && s.panics == {}
    ensures Do(s, step).panics != {} <==> step.Request? && step.task.TaskPanics?
  {
    ReachableIsSafe(s);
    StepKeepsSafe(s, step);
    match step
    case Outer(o) => OuterPanics(s, o);
    case Registration(r) => RegisterPanics(s, r);
    case Service(v) => ServePanics(s, v);
    case Unregistration(u) => UnregisterPanics(s, u);
    case Request(t) =>
  }

  /**
   sendConn is not atomic for request goroutines. The next step of a state without panics can be a send on a
   closed channel exactly when some request goroutine is late.
   */
  lemma PanicsExactlyWhenSomeoneIsLate(s: State)
    requires Reachable(s) && s.panics == {}
    ensures (exists step :: Enabled(s, step) && Do(s, step).panics != {}) <==> exists id :: IsLate(s, id)
  {
    if id :| IsLate(s, id) {
      var step := Request(TaskPanics(id));
      assert Enabled(s, step) && Do(s, step).panics != {};
    }
    forall step | Enabled(s, step) && Do(s, step).panics != {} ensures exists id :: IsLate(s, id) {
      OnlyLateTasksPanic(s, step);
      assert IsLate(s, step.task.id);
    }
  }

  lemma ALateSenderPanics() returns (s: State)
    ensures Reachable(s) && s.panics == {LateSend}
  {
    s := Init([]);
    ReachableInit([]);
    s := Take(s, Registration(Register(0, true)));
    s := Take(s, Outer(Spawn(0, 7, Direct("log lines"), false)));
    s := Take(s, Request(TaskChecks(7)));
    s := Take(s, Outer(Hangup(0)));
    s := Take(s, Unregistration(ReaderReports(0)));
    s := Take(s, Unregistration(Delete));
    s := Take(s, Unregistration(CloseChannel));
    s := Take(s, Request(TaskPanics(7)));
  }
}

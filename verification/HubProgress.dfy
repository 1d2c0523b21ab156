/**
 When can the hub get back to its select? Never again once it offers to, or waits for, a goroutine that
 waits for the hub (`Wedged`); in every other reachable state it can, handing over all it still owes.
 */
module HubProgress {
  import opened Messages
  import opened HubProtocol
  import opened HubSafety

  /** The writer of `c` failed to write and waits for the hub to receive its unregister. */
  predicate Complains(s: State, c: Conn) { c in s.peers && s.peers[c].writer.Complaining? }

  /** Somebody this round still has to be handed the event has a complaining writer. */
  predicate OwedToComplainer(s: State, e: Event, rest: set<Conn>) {
    exists c <- rest :: Complains(s, c) && c in s.conns && (e.topic.All? ==> !s.peers[c].aux)
  }

  predicate Wedged(s: State) {
    match s.hub
    case Select => false
    case Registering(c, senders) =>
      || (exists k <- senders :: HasFailed(senders[k]))
      || (Complains(s, c) && exists k <- senders :: !senders[k].Returned?)
    case PodListing(c, t) => Complains(s, c) && c in s.conns
    case Offering(c, m, next) =>
      || Complains(s, c)
      || next.ThenSelfReport?
      || (next.ThenRound? && OwedToComplainer(s, next.event, next.rest))
    case Round(e, rest) => OwedToComplainer(s, e, rest)
    case SelfReporting(c) => true
    case Cancelled(_) => false
    case Deleted(_) => false
  }

  // ------------------------------------------------------------------ wedged is for ever

  lemma OwedStays(s: State, s': State, e: Event, rest: set<Conn>, rest': set<Conn>)
    requires OwedToComplainer(s, e, rest)
    requires s'.conns == s.conns
    requires forall c <- rest | Complains(s, c) && c in s.conns :: Complains(s', c) && s'.peers[c].aux == s.peers[c].aux
    requires forall c <- rest | Complains(s, c) && c in s.conns && (e.topic.All? ==> !s.peers[c].aux) :: c in rest'
    ensures OwedToComplainer(s', e, rest')
  {
    var c :| c in rest && Complains(s, c) && c in s.conns && (e.topic.All? ==> !s.peers[c].aux);
    assert c in rest';
  }

  lemma OuterStaysWedged(s: State, step: OuterStep)
    requires Safe(s) && Wedged(s) && OuterEnabled(s, step)
    ensures Wedged(DoOuter(s, step))
  {
    var s' := DoOuter(s, step);
    if s.hub.Round? && OwedToComplainer(s, s.hub.event, s.hub.rest) {
      OwedStays(s, s', s.hub.event, s.hub.rest, s.hub.rest);
    }
    if s.hub.Offering? && s.hub.next.ThenRound? && OwedToComplainer(s, s.hub.next.event, s.hub.next.rest) {
      OwedStays(s, s', s.hub.next.event, s.hub.next.rest, s.hub.next.rest);
    }
  }

  lemma RegisterStaysWedged(s: State, step: RegisterStep)
    requires Safe(s) && Wedged(s) && RegisterEnabled(s, step)
    ensures Wedged(DoRegister(s, step))
  {
    var s' := DoRegister(s, step);
    var c, senders := s.hub.conn, s.hub.senders;
    assert PeerOk(s, c);
    if k :| k in senders && HasFailed(senders[k]) {
      assert HasFailed(s'.hub.senders[k]);
    } else {
      var k :| k in senders && !senders[k].Returned?;
      assert Complains(s', c) && !s'.hub.senders[k].Returned?;
    }
  }

  lemma ServeStaysWedged(s: State, step: ServeStep)
    requires Safe(s) && Wedged(s) && ServeEnabled(s, step)
    ensures Wedged(DoServe(s, step))
  {
    if s.hub.Offering? || s.hub.PodListing? { assert PeerOk(s, s.hub.conn); }
    match step
    case HubHands => HubHandsStaysWedged(s);
    case Next(c) => NextStaysWedged(s, c);
    case _ =>
  }

  lemma HubHandsStaysWedged(s: State)
    requires Safe(s) && Wedged(s) && ServeEnabled(s, HubHands)
    ensures Wedged(DoServe(s, HubHands))
  {
    if s.hub.next.ThenRound? {
      OwedStays(s, DoServe(s, HubHands), s.hub.next.event, s.hub.next.rest, s.hub.next.rest);
    }
  }

  lemma NextStaysWedged(s: State, c: Conn)
    requires Safe(s) && Wedged(s) && ServeEnabled(s, Next(c))
    ensures Wedged(DoServe(s, Next(c)))
  {
    var s' := DoServe(s, Next(c));
    assert PeerOk(s, c);
    if !(s'.hub.Offering? && Complains(s', c)) {
      OwedStays(s, s', s.hub.event, s.hub.rest, s.hub.rest - {c});
    }
  }

  lemma TaskStaysWedged(s: State, step: TaskStep)
    requires Safe(s) && Wedged(s) && TaskEnabled(s, step)
    ensures Wedged(DoTask(s, step))
  {
    var s' := DoTask(s, step);
    if s.hub.Round? {
      OwedStays(s, s', s.hub.event, s.hub.rest, s.hub.rest);
    }
    if s.hub.Offering? && s.hub.next.ThenRound? && OwedToComplainer(s, s.hub.next.event, s.hub.next.rest) {
      OwedStays(s, s', s.hub.next.event, s.hub.next.rest, s.hub.next.rest);
    }
  }

  lemma StaysWedged(s: State, step: Step)
    requires Safe(s) && Wedged(s) && Enabled(s, step)
    ensures Wedged(Do(s, step))
  {
    match step
    case Outer(o) => OuterStaysWedged(s, o);
    case Registration(r) => RegisterStaysWedged(s, r);
    case Service(v) => ServeStaysWedged(s, v);
    case Unregistration(u) =>
    case Request(t) => TaskStaysWedged(s, t);
  }

  // ------------------------------------------------------------------ otherwise there is a way back

  function Busy(s: State, c: Conn): nat { if c in s.peers && s.peers[c].writer.Writing? then 1 else 0 }

  function SenderWork(x: Sender): nat { if x.Listing? then 4 else if x.Sending? then 2 else 0 }

  function Work(senders: map<Kind, Sender>, k: Kind): nat { if k in senders then SenderWork(senders[k]) else 0 }

  /** How much the hub still has to do before it is back at its select. */
  function Backlog(s: State): nat {
    match s.hub
    case Select => 0
    case Registering(c, senders) =>
      1 + Busy(s, c) + AllWork(senders)
    case PodListing(_, _) => 6
    case Offering(c, _, next) => 3 + Busy(s, c) + if next.ThenRound? then 5 * |next.rest| else 0
    case Round(_, rest) => 5 * |rest| + 1
    case SelfReporting(_) => 0
    case Cancelled(_) => 2
    case Deleted(_) => 1
  }

  ghost predicate Advances(s: State, step: Step) {
    && Enabled(s, step)
    && !Wedged(Do(s, step))
    && Backlog(Do(s, step)) < Backlog(s)
  }

  lemma AdvanceListing(s: State, k: Kind) returns (step: Step)
    requires Safe(s) && !Wedged(s) && s.hub.Registering? && k in s.hub.senders && s.hub.senders[k].Listing?
    ensures Advances(s, step)
  {
    var items := ListingExists(StoreOf(s, All(k)));
    step := Registration(ListOk(k, items));
    var s' := DoRegister(s, ListOk(k, items));
    assert forall j <- s'.hub.senders :: !HasFailed(s'.hub.senders[j]);
    assert !Complains(s, s.hub.conn);
    LessWork(s.hub.senders, k, s'.hub.senders[k]);
  }

  function AllWork(senders: map<Kind, Sender>): nat {
    Work(senders, FlowKind) + Work(senders, ApplicationKind) + Work(senders, RolloutKind) + Work(senders, WorkflowKind)
  }

  lemma LessWork(senders: map<Kind, Sender>, k: Kind, x: Sender)
    requires k in senders && SenderWork(x) <= SenderWork(senders[k])
    ensures AllWork(senders[k := x]) + SenderWork(senders[k]) == AllWork(senders) + SenderWork(x)
  {
    assert forall j :: j != k ==> Work(senders[k := x], j) == Work(senders, j);
    match k
    case FlowKind =>
    case ApplicationKind =>
    case RolloutKind =>
    case WorkflowKind =>
  }

  // Finishing the write in progress frees the writer the hub waits for.
  lemma AdvanceWriting(s: State, c: Conn)
    requires Safe(s) && !Wedged(s) && c in s.peers && s.peers[c].writer.Writing?
    requires (s.hub.Registering? || s.hub.Offering?) && s.hub.conn == c
    ensures Advances(s, Outer(WriteOk(c)))
  {
    var s' := DoOuter(s, WriteOk(c));
    assert s'.hub == s.hub && Busy(s', c) == 0 && Busy(s, c) == 1;
    if s.hub.Offering? && s.hub.next.ThenRound? {
      var e, rest := s.hub.next.event, s.hub.next.rest;
      assert forall d <- rest :: Complains(s', d) ==> Complains(s, d) && s'.peers[d].aux == s.peers[d].aux;
      assert !OwedToComplainer(s', e, rest);
    }
  }

  lemma AdvanceSending(s: State, k: Kind)
    requires Safe(s) && !Wedged(s) && IsSending(s, k) && s.peers[s.hub.conn].writer.Ready?
    ensures Advances(s, Registration(SenderHands(k)))
  {
    var c, senders := s.hub.conn, s.hub.senders;
    assert PeerOk(s, c);
    assert !HasFailed(senders[k]);
    var s' := DoRegister(s, SenderHands(k));
    assert s'.hub == Registering(c, senders[k := Returned]);
    assert forall j <- s'.hub.senders :: !HasFailed(s'.hub.senders[j]);
    LessWork(senders, k, Returned);
  }

  lemma AdvanceRegistration(s: State) returns (step: Step)
    requires Safe(s) && !Wedged(s) && s.hub.Registering?
    ensures Advances(s, step)
  {
    var senders := s.hub.senders;
    if k :| k in senders && senders[k].Listing? {
      step := AdvanceListing(s, k);
    } else if k :| k in senders && senders[k].Sending? {
      assert PeerOk(s, s.hub.conn) && !Complains(s, s.hub.conn);
      if s.peers[s.hub.conn].writer.Writing? {
        step := Outer(WriteOk(s.hub.conn));
        AdvanceWriting(s, s.hub.conn);
      } else {
        step := Registration(SenderHands(k));
        AdvanceSending(s, k);
      }
    } else {
      assert forall k <- senders :: !HasFailed(senders[k]);
      step := Registration(RegisterDone);
    }
  }

  lemma AdvanceOffer(s: State) returns (step: Step)
    requires Safe(s) && !Wedged(s) && s.hub.Offering?
    ensures Advances(s, step)
  {
    var c := s.hub.conn;
    assert PeerOk(s, c);
    if s.peers[c].writer.Writing? {
      step := Outer(WriteOk(c));
      AdvanceWriting(s, c);
    } else {
      step := Service(HubHands);
      HandingShrinks(s);
      HandingIsNotWedged(s);
    }
  }

  lemma HandingIsNotWedged(s: State)
    requires !Wedged(s) && ServeEnabled(s, HubHands)
    ensures !Wedged(DoServe(s, HubHands))
  {
    var s' := DoServe(s, HubHands);
    if s.hub.next.ThenRound? {
      var e, rest := s.hub.next.event, s.hub.next.rest;
      assert forall d <- rest :: Complains(s', d) ==> Complains(s, d) && s'.peers[d].aux == s.peers[d].aux;
      assert !OwedToComplainer(s', e, rest);
    }
  }

  lemma AdvanceRound(s: State) returns (step: Step)
    requires Safe(s) && !Wedged(s) && s.hub.Round?
    ensures Advances(s, step)
  {
    if c :| c in s.hub.rest {
      step := Service(Next(c));
      AdvanceNext(s, c);
    } else {
      step := Service(RoundDone);
    }
  }

  lemma AdvanceNext(s: State, c: Conn)
    requires Safe(s) && !Wedged(s) && s.hub.Round? && c in s.hub.rest
    ensures Advances(s, Service(Next(c)))
  {
    var e, rest := s.hub.event, s.hub.rest;
    assert c in s.peers;
    assert PeerOk(s, c);
    NextShrinks(s, c);
    var s' := DoServe(s, Next(c));
    assert !OwedToComplainer(s', e, rest - {c});
    assert !(Complains(s, c) && c in s.conns && (e.topic.All? ==> !s.peers[c].aux));
  }

  lemma AdvancePodListing(s: State) returns (step: Step)
    requires Safe(s) && !Wedged(s) && s.hub.PodListing?
    ensures Advances(s, step)
  {
    assert PeerOk(s, s.hub.conn);
    var items := ListingExists(StoreOf(s, s.hub.topic));
    step := Service(PodListOk(items));
  }

  lemma Advance(s: State) returns (step: Step)
    requires Safe(s) && !Wedged(s) && !s.hub.Select?
    ensures Advances(s, step)
  {
    match s.hub
    case Registering(_, _) => step := AdvanceRegistration(s);
    case PodListing(_, _) => step := AdvancePodListing(s);
    case Offering(_, _, _) => step := AdvanceOffer(s);
    case Round(_, _) => step := AdvanceRound(s);
    case Cancelled(_) => step := Unregistration(Delete);
    case Deleted(_) => step := Unregistration(CloseChannel);
  }

  lemma {:induction false} StepThenRun(s: State, step: Step, steps: seq<Step>)
    requires Enabled(s, step) && Legal(Do(s, step), steps)
    ensures Legal(s, [step] + steps) && Exec(s, [step] + steps) == Exec(Do(s, step), steps)
    decreases |steps|
  {
    var all := [step] + steps;
    if steps == [] {
      assert all == [step] && all[..|all| - 1] == [];
      assert Exec(s, []) == s;
    } else {
      var front, last := [step] + steps[..|steps| - 1], steps[|steps| - 1];
      StepThenRun(s, step, steps[..|steps| - 1]);
      assert all[..|all| - 1] == front && all[|all| - 1] == last;
      assert Exec(s, front) == Exec(Do(s, step), steps[..|steps| - 1]);
    }
  }

  ghost predicate CanReturn(s: State) {
    exists steps :: Legal(s, steps) && Exec(s, steps).hub.Select?
  }

  lemma {:induction false} WayBack(s: State) returns (steps: seq<Step>)
    requires Safe(s) && !Wedged(s)
    ensures Legal(s, steps) && Exec(s, steps).hub.Select?
    ensures |steps| <= Backlog(s)
    decreases Backlog(s)
  {
    if s.hub.Select? {
      steps := [];
      assert Legal(s, steps) && Exec(s, steps) == s;
    } else {
      var step := Advance(s);
      StepKeepsSafe(s, step);
      var rest := WayBack(Do(s, step));
      StepThenRun(s, step, rest);
      steps := [step] + rest;
      assert Exec(s, steps) == Exec(Do(s, step), rest);
    }
  }

  lemma {:induction false} WedgedForEver(s: State, steps: seq<Step>)
    requires Safe(s) && Wedged(s) && Legal(s, steps)
    ensures Safe(Exec(s, steps)) && Wedged(Exec(s, steps))
    decreases |steps|
  {
    if steps != [] {
      WedgedForEver(s, steps[..|steps| - 1]);
      StaysWedged(Exec(s, steps[..|steps| - 1]), steps[|steps| - 1]);
      StepKeepsSafe(Exec(s, steps[..|steps| - 1]), steps[|steps| - 1]);
    }
  }

  /** The hub can come back to its select exactly when it is not wedged. */
  lemma ReturnsExactlyWhenNotWedged(s: State)
    requires Reachable(s)
    ensures CanReturn(s) <==> !Wedged(s)
  {
    ReachableIsSafe(s);
    if Wedged(s) {
      forall steps | Legal(s, steps) ensures !Exec(s, steps).hub.Select? {
        WedgedForEver(s, steps);
      }
    } else {
      var steps := WayBack(s);
    }
  }

  // ------------------------------------------------------------------ whatever the scheduler does

  /** A step of the hub, or of a sender that the hub waits for. */
  predicate IsHubStep(step: Step) { step.Registration? || step.Service? || step.Unregistration? }

  /** A request goroutine takes a turn of a writer. */
  predicate TakesTurn(step: Step) { step.Request? && step.task.TaskHands? }

  lemma RegisterShrinks(s: State, step: RegisterStep)
    requires Safe(s) && !s.hub.Select? && RegisterEnabled(s, step)
    ensures Backlog(DoRegister(s, step)) < Backlog(s)
  {
    assert PeerOk(s, s.hub.conn);
    var s' := DoRegister(s, step);
    if !step.RegisterDone? && !step.SenderPanics? {
      assert SenderWork(s'.hub.senders[step.kind]) <= SenderWork(s.hub.senders[step.kind]) - 2;
      LessWork(s.hub.senders, step.kind, s'.hub.senders[step.kind]);
    }
  }

  lemma ServeShrinks(s: State, step: ServeStep)
    requires Safe(s) && !s.hub.Select? && ServeEnabled(s, step)
    ensures Backlog(DoServe(s, step)) < Backlog(s)
  {
    if s.hub.Offering? || s.hub.PodListing? { assert PeerOk(s, s.hub.conn); }
    match step
    case Next(c) => NextShrinks(s, c);
    case HubHands => HandingShrinks(s);
    case _ =>
  }

  lemma NextShrinks(s: State, c: Conn)
    requires Safe(s) && ServeEnabled(s, Next(c))
    ensures Backlog(DoServe(s, Next(c))) < Backlog(s)
  {
    assert PeerOk(s, c);
    assert |s.hub.rest - {c}| == |s.hub.rest| - 1;
  }

  lemma HandingShrinks(s: State)
    requires ServeEnabled(s, HubHands)
    ensures Backlog(DoServe(s, HubHands)) < Backlog(s)
  {
  }

  lemma OuterDoesNotGrow(s: State, step: OuterStep)
    requires OuterEnabled(s, step)
    ensures Backlog(DoOuter(s, step)) <= Backlog(s)
  {
  }

  lemma TaskGrowsByOne(s: State, step: TaskStep)
    requires TaskEnabled(s, step)
    ensures Backlog(DoTask(s, step)) <= Backlog(s) + if step.TaskHands? then 1 else 0
  {
  }

  lemma StepShrinks(s: State, step: Step)
    requires Safe(s) && !s.hub.Select? && Enabled(s, step)
    ensures Backlog(Do(s, step)) + (if IsHubStep(step) then 1 else 0) <= Backlog(s) + if TakesTurn(step) then 1 else 0
  {
    match step
    case Outer(o) => OuterDoesNotGrow(s, o);
    case Registration(r) => RegisterShrinks(s, r);
    case Service(v) => ServeShrinks(s, v);
    case Unregistration(u) =>
    case Request(t) => TaskGrowsByOne(s, t);
  }

  function Count(steps: seq<Step>, p: Step -> bool): nat {
    if steps == [] then 0 else Count(steps[..|steps| - 1], p) + if p(steps[|steps| - 1]) then 1 else 0
  }

  /** A run that is not at the hub's select before its end. */
  ghost predicate Away(s: State, steps: seq<Step>)
    decreases |steps|
  {
    Legal(s, steps) &&
    (steps == [] || (Away(s, steps[..|steps| - 1]) && !Exec(s, steps[..|steps| - 1]).hub.Select?))
  }

  /**
   Under every scheduler: away from its select the hub takes no more steps than its backlog, plus one for each
   turn of a writer that a request goroutine took from it meanwhile.
   */
  lemma {:induction false} AwayIsBounded(s: State, steps: seq<Step>)
    requires Safe(s) && Away(s, steps)
    ensures Safe(Exec(s, steps))
    ensures Count(steps, IsHubStep) + Backlog(Exec(s, steps)) <= Backlog(s) + Count(steps, TakesTurn)
    decreases |steps|
  {
    if steps != [] {
      var front, last := steps[..|steps| - 1], steps[|steps| - 1];
      AwayIsBounded(s, front);
      StepShrinks(Exec(s, front), last);
      StepKeepsSafe(Exec(s, front), last);
    }
  }

  // ------------------------------------------------------------------ how it gets wedged, and how not

  /** WriteJSON and List succeed. */
  predicate Lucky(step: Step) {
    match step
    case Outer(o) => !o.WriteFail?
    case Registration(r) => !r.ListFail?
    case Service(v) => !v.PodListFail?
    case _ => true
  }

  ghost predicate Unspoilt(s: State) {
    && (forall c <- s.peers :: !s.peers[c].writer.Complaining?)
    && (s.hub.Registering? ==> forall k <- s.hub.senders :: !HasFailed(s.hub.senders[k]))
    && (s.hub.Offering? ==> !s.hub.next.ThenSelfReport?)
    && !s.hub.SelfReporting?
  }

  lemma OuterStaysUnspoilt(s: State, step: OuterStep)
    requires Safe(s) && Unspoilt(s) && OuterEnabled(s, step) && Lucky(Outer(step))
    ensures Unspoilt(DoOuter(s, step))
  {
  }

  lemma RegisterStaysUnspoilt(s: State, step: RegisterStep)
    requires Safe(s) && Unspoilt(s) && RegisterEnabled(s, step) && Lucky(Registration(step))
    ensures Unspoilt(DoRegister(s, step))
  {
    match step
    case Register(c, aux) =>
    case RegisterDone =>
    case SenderPanics(k) =>
    case ListOk(k, items) => SetSenderIsUnspoilt(s, k, Sending(Resources(All(k), Archived(s, All(k)) + items), false));
    case SenderHands(k) => HandingIsUnspoilt(s, k);
    case SenderSkips(k) => SetSenderIsUnspoilt(s, k, Returned);
  }

  lemma SetSenderIsUnspoilt(s: State, k: Kind, x: Sender)
    requires Unspoilt(s) && s.hub.Registering? && !HasFailed(x)
    ensures Unspoilt(SetSender(s, k, x))
  {
  }

  lemma HandingIsUnspoilt(s: State, k: Kind)
    requires Unspoilt(s) && RegisterEnabled(s, SenderHands(k))
    ensures Unspoilt(DoRegister(s, SenderHands(k)))
  {
    var handed := HandOver(s, s.hub.conn, s.hub.senders[k].message);
    assert !HasFailed(s.hub.senders[k]);
    assert Unspoilt(handed);
    SetSenderIsUnspoilt(handed, k, Returned);
  }

  lemma ServeStaysUnspoilt(s: State, step: ServeStep)
    requires Safe(s) && Unspoilt(s) && ServeEnabled(s, step) && Lucky(Service(step))
    ensures Unspoilt(DoServe(s, step))
  {
    match step
    case HubHands =>
    case Next(c) => NextStaysUnspoilt(s, c);
    case TakeSubscribe(c) =>
    case PodListOk(items) =>
    case _ =>
  }

  lemma NextStaysUnspoilt(s: State, c: Conn)
    requires Unspoilt(s) && ServeEnabled(s, Next(c))
    ensures Unspoilt(DoServe(s, Next(c)))
  {
  }

  lemma UnregisterStaysUnspoilt(s: State, step: UnregisterStep)
    requires Safe(s) && Unspoilt(s) && UnregisterEnabled(s, step)
    ensures Unspoilt(DoUnregister(s, step))
  {
  }

  lemma TaskStaysUnspoilt(s: State, step: TaskStep)
    requires Safe(s) && Unspoilt(s) && TaskEnabled(s, step)
    ensures Unspoilt(DoTask(s, step))
  {
  }

  lemma LuckyStepStaysUnspoilt(s: State, step: Step)
    requires Safe(s) && Unspoilt(s) && Enabled(s, step) && Lucky(step)
    ensures Unspoilt(Do(s, step))
  {
    match step
    case Outer(o) => OuterStaysUnspoilt(s, o);
    case Registration(r) => RegisterStaysUnspoilt(s, r);
    case Service(v) => ServeStaysUnspoilt(s, v);
    case Unregistration(u) => UnregisterStaysUnspoilt(s, u);
    case Request(t) => TaskStaysUnspoilt(s, t);
  }

  lemma {:induction false} LuckyRunIsUnspoilt(archive: seq<Item>, steps: seq<Step>)
    requires Legal(Init(archive), steps) && forall step <- steps :: Lucky(step)
    ensures Unspoilt(Exec(Init(archive), steps))
    decreases |steps|
  {
    if steps != [] {
      LuckyRunIsUnspoilt(archive, steps[..|steps| - 1]);
      RunIsSafe(archive, steps[..|steps| - 1]);
      LuckyStepStaysUnspoilt(Exec(Init(archive), steps[..|steps| - 1]), steps[|steps| - 1]);
    }
  }

  /** Without failing List or WriteJSON calls the hub is never stuck, whatever else happens. */
  lemma NeverStuckWithoutFailures(archive: seq<Item>, steps: seq<Step>)
    requires Legal(Init(archive), steps) && forall step <- steps :: Lucky(step)
    ensures CanReturn(Exec(Init(archive), steps))
  {
    LuckyRunIsUnspoilt(archive, steps);
    RunIsSafe(archive, steps);
    assert Reachable(Exec(Init(archive), steps));
    ReturnsExactlyWhenNotWedged(Exec(Init(archive), steps));
  }
}

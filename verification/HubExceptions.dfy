/**
 When can a client rely on what it received? Two things come between it and the informer's store: answers of request
 goroutines, which can overtake an event, and changes that no event tells of. The promise holds for a key in every run
 exactly when neither concerns the key.
 */
module HubExceptions {
  import opened Options
  import opened Messages
  import opened HubModel
  import opened HubProtocol
  import opened HubViews
  import opened HubAnswers

  /** The keys that request goroutines may answer about, and those that may change without an event. */
  datatype Limits = Limits(asked: iset<(Topic, string)>, untold: iset<(Topic, string)>)

  ghost predicate AnswersWithin(m: Message, asked: iset<(Topic, string)>) {
    forall t, key :: Mentions(m, t, key) ==> (t, key) in asked
  }

  ghost predicate StepWithin(step: Step, l: Limits) {
    match step
    case Outer(Spawn(_, _, m, _)) => AnswersWithin(m, l.asked)
    case Outer(Missed(t, item)) => (t, item.key) in l.untold
    case _ => true
  }

  ghost predicate RunWithin(steps: seq<Step>, l: Limits) { forall step <- steps :: StepWithin(step, l) }

  /** Once all events have arrived, a client of `c` shows for `key` what the store has, or an archived workflow. */
  ghost predicate Right(s: State, c: Conn, t: Topic, key: string) {
    Follows(s, c, t) && (At(StoreOf(s, t), key).Some? || !Touches(Archived(s, t), key)) ==>
      Settle(None, ReceivedItems(s, c, t) + InFlight(s.hub, c, t) + Pending(s, t), key) == At(StoreOf(s, t), key)
  }

  // ------------------------------------------------------------------ runs within limits

  ghost predicate StateWithin(s: State, l: Limits) {
    && (forall id <- s.tasks :: AnswersWithin(s.tasks[id].message, l.asked))
    && (forall p <- s.missed :: p in l.untold)
  }

  // No task is new, none changes its message, and no more is missed.
  ghost predicate NoMore(s: State, s': State) {
    && (forall id <- s'.tasks :: id in s.tasks && s'.tasks[id].message == s.tasks[id].message)
    && s'.missed <= s.missed
  }

  lemma NoMoreStaysWithin(s: State, s': State, l: Limits)
    requires StateWithin(s, l) && NoMore(s, s')
    ensures StateWithin(s', l)
  {
  }

  lemma OuterStaysWithin(s: State, step: OuterStep, l: Limits)
    requires StateWithin(s, l) && OuterEnabled(s, step) && StepWithin(Outer(step), l)
    ensures StateWithin(DoOuter(s, step), l)
  {
    match step
    case Spawn(c, id, m, closes) =>
    case Missed(t, item) =>
    case _ => NoMoreStaysWithin(s, DoOuter(s, step), l);
  }

  lemma RegisterIsNoMore(s: State, step: RegisterStep)
    requires RegisterEnabled(s, step)
    ensures NoMore(s, DoRegister(s, step))
  {
  }

  lemma ResumeIsNoMore(s: State, c: Conn, m: Message, next: Then)
    ensures Resume(s, c, m, next).tasks == s.tasks && Resume(s, c, m, next).missed == s.missed
    ensures HubSends(s, c, m, next).tasks == s.tasks && HubSends(s, c, m, next).missed == s.missed
  {
  }

  lemma ServeIsNoMore(s: State, step: ServeStep)
    requires ServeEnabled(s, step)
    ensures NoMore(s, DoServe(s, step))
  {
    match step
    case HubHands =>
      ResumeIsNoMore(HandOver(s, s.hub.conn, s.hub.message), s.hub.conn, s.hub.message, s.hub.next);
    case HubSkips => ResumeIsNoMore(s, s.hub.conn, s.hub.message, s.hub.next);
    case PodListOk(items) => ResumeIsNoMore(s, s.hub.conn, Resources(s.hub.topic, items), ThenSubscribe(s.hub.topic));
    case PodListFail => ResumeIsNoMore(s, s.hub.conn, WebError("PodList"), ThenSelfReport);
    case Next(c) => ResumeIsNoMore(s, c, EventMessage(s.hub.event), ThenRound(s.hub.event, s.hub.rest - {c}));
    case _ =>
  }

  lemma UnregisterIsNoMore(s: State, step: UnregisterStep)
    requires UnregisterEnabled(s, step)
    ensures NoMore(s, DoUnregister(s, step))
  {
  }

  lemma TaskIsNoMore(s: State, step: TaskStep)
    requires TaskEnabled(s, step)
    ensures NoMore(s, DoTask(s, step))
  {
  }

  lemma StepStaysWithin(s: State, step: Step, l: Limits)
    requires StateWithin(s, l) && Enabled(s, step) && StepWithin(step, l)
    ensures StateWithin(Do(s, step), l)
  {
    match step
    case Outer(o) => OuterStaysWithin(s, o, l);
    case Registration(r) => RegisterIsNoMore(s, r);
    case Service(v) => ServeIsNoMore(s, v);
    case Unregistration(u) => UnregisterIsNoMore(s, u);
    case Request(t) => TaskIsNoMore(s, t);
  }

  lemma {:induction false} RunStaysWithin(archive: seq<Item>, steps: seq<Step>, l: Limits)
    requires Legal(Init(archive), steps) && RunWithin(steps, l)
    ensures StateWithin(Exec(Init(archive), steps), l)
    decreases |steps|
  {
    if steps != [] {
      var front, last := steps[..|steps| - 1], steps[|steps| - 1];
      assert forall step <- front :: step in steps;
      RunStaysWithin(archive, front, l);
      StepStaysWithin(Exec(Init(archive), front), last, l);
    }
  }

  lemma RunsAreRight(archive: seq<Item>, steps: seq<Step>, c: Conn, t: Topic, key: string, l: Limits)
    requires Legal(Init(archive), steps) && RunWithin(steps, l)
    requires (t, key) !in l.untold && (t.All? || (t, key) !in l.asked)
    ensures Right(Exec(Init(archive), steps), c, t, key)
  {
    var s := Exec(Init(archive), steps);
    RunStaysWithin(archive, steps, l);
    assert Reachable(s);
    if t.All? { OnlyPodsAreAskedAbout(s, c, t.kind, key); }
    if Follows(s, c, t) { NothingIsLost(s, c, t, key); }
  }

  // ------------------------------------------------------------------ building runs

  ghost predicate Within(s: State, l: Limits) {
    exists steps :: Legal(Init([]), steps) && RunWithin(steps, l) && s == Exec(Init([]), steps)
  }

  lemma WithinIsReachable(s: State, l: Limits)
    requires Within(s, l)
    ensures Reachable(s) && StateWithin(s, l)
  {
    var steps :| Legal(Init([]), steps) && RunWithin(steps, l) && s == Exec(Init([]), steps);
    RunStaysWithin([], steps, l);
  }

  lemma Begin(l: Limits) returns (s: State)
    ensures s == Init([]) && Within(s, l)
  {
    s := Init([]);
    assert Legal(Init([]), []) && Exec(Init([]), []) == s;
  }

  lemma Go(s: State, step: Step, l: Limits) returns (s': State)
    requires Within(s, l) && Enabled(s, step) && StepWithin(step, l)
    ensures s' == Do(s, step) && Within(s', l)
  {
    var steps :| Legal(Init([]), steps) && RunWithin(steps, l) && s == Exec(Init([]), steps);
    var longer := steps + [step];
    assert longer[..|longer| - 1] == steps;
    assert Legal(Init([]), longer) && Exec(Init([]), longer) == Do(s, step);
    s' := Do(s, step);
  }

  // ------------------------------------------------------------------ a subscriber to pods

  // Nothing is going on but a subscription of connection 0 to `t`.
  ghost predicate Idle(s: State, t: Topic, l: Limits) {
    && Within(s, l) && s.conns == {0} && Subs(s.subs, t) == {0} && t.PodsOf? && t.app != ""
    && s.peers.Keys == {0} && s.peers[0].live && s.peers[0].open && s.peers[0].writer.Ready?
    && Queue(s, PodSource) == [] && s.missed == {} && s.archive == []
  }

  lemma AnAuxConnectionAsks(t: Topic, l: Limits) returns (s: State)
    requires t.PodsOf?
    ensures Within(s, l) && s.hub == PodListing(0, t) && s.conns == {0} && Subs(s.subs, t) == {}
    ensures s == Init([]).(hub := s.hub, conns := {0}, subs := s.subs, peers := s.peers, history := s.history)
    ensures s.peers.Keys == {0} && s.peers[0] == Peer(true, true, true, 0, Ready, Reading, [], [])
  {
    s := Begin(l);
    s := Go(s, Registration(Register(0, true)), l);
    s := Go(s, Outer(Ask(0, t)), l);
    s := Go(s, Service(TakeSubscribe(0)), l);
  }

  lemma ASubscriberWaits(t: Topic, l: Limits) returns (s: State)
    requires t.PodsOf? && t.app != ""
    ensures Idle(s, t, l) && s.hub == Select && s.stores == map[] && s.tasks == map[]
    ensures s.peers[0].reader.Reading? && s.peers[0].received == [Delivery(Resources(t, []), true)]
  {
    s := AnAuxConnectionAsks(t, l);
    assert IsListing([], StoreOf(s, t));
    s := Go(s, Service(PodListOk([])), l);
    s := Go(s, Service(HubHands), l);
    s := Go(s, Outer(WriteOk(0)), l);
  }

  // The hub takes one event and is about to hand it to the only subscriber.
  lemma AnEventComes(s0: State, t: Topic, item: Item, l: Limits) returns (s: State)
    requires Idle(s0, t, l) && s0.hub == Select
    ensures Idle(s, t, l) && s.hub == Offering(0, Resources(t, [item]), ThenRound(Event(t, item), {}))
    ensures s.tasks == s0.tasks && s.peers == s0.peers && StoreOf(s, t) == StoreAfter(s0, t, item)
  {
    s := Go(s0, Outer(Change(t, item)), l);
    assert Queue(s, PodSource) == [Event(t, item)];
    s := Go(s, Service(Receive(PodSource)), l);
    assert s.hub == Round(Event(t, item), {0});
    s := Go(s, Service(Next(0)), l);
    assert {0} - {0} == {};
  }

  lemma AnEventPasses(s0: State, t: Topic, item: Item, l: Limits) returns (s: State)
    requires Idle(s0, t, l) && s0.hub == Select
    ensures Idle(s, t, l) && s.hub == Select && s.tasks == s0.tasks && s.peers[0].reader == s0.peers[0].reader
    ensures s.peers[0].received == s0.peers[0].received + [Delivery(Resources(t, [item]), true)]
    ensures StoreOf(s, t) == StoreAfter(s0, t, item)
  {
    s := AnEventComes(s0, t, item, l);
    s := Go(s, Service(HubHands), l);
    s := Go(s, Outer(WriteOk(0)), l);
    s := Go(s, Service(RoundDone), l);
  }

  lemma AnswersAbout(t: Topic, pod: Item, l: Limits)
    requires (t, pod.key) in l.asked
    ensures AnswersWithin(Resources(t, [pod]), l.asked)
  {
  }

  lemma ItsPodIsDeleted(t: Topic, pod: Item, l: Limits) returns (s: State)
    requires t.PodsOf? && t.app != "" && !pod.deleted && (t, pod.key) in l.asked
    ensures Idle(s, t, l) && s.hub == Select && StoreOf(s, t) == map[]
    ensures s.tasks == map[7 := Task(0, Resources(t, [pod]), false, Checking)]
    ensures s.peers[0].received == [Delivery(Resources(t, []), true), Delivery(Resources(t, [pod]), true),
                                    Delivery(Resources(t, [pod.(deleted := true)]), true)]
  {
    var s0 := ASubscriberWaits(t, l);
    var s1 := AnEventPasses(s0, t, pod, l);
    AnswersAbout(t, pod, l);
    var s2 := Go(s1, Outer(Spawn(0, 7, Resources(t, [pod]), false)), l);
    assert Queue(s2, PodSource) == Queue(s1, PodSource) && StoreOf(s2, t) == StoreOf(s1, t);
    s := AnEventPasses(s2, t, pod.(deleted := true), l);
  }

  /**
   The answer about a pod overtaken by its deletion: for every topic and pod there is a run after which the hub is
   idle, no event is queued, the store has no such pod, and a subscriber that merges what it received shows it.
   */
  lemma AnAnswerOutlivesItsPod(t: Topic, pod: Item, l: Limits) returns (s: State)
    requires t.PodsOf? && t.app != "" && !pod.deleted && (t, pod.key) in l.asked
    ensures Within(s, l) && s.hub.Select? && Follows(s, 0, t) && Pending(s, t) == [] && s.archive == []
    ensures At(StoreOf(s, t), pod.key) == None
    ensures Settle(None, ReceivedItems(s, 0, t), pod.key) == Some(pod.body)
  {
    s := ItsPodIsDeleted(t, pod, l);
    s := Go(s, Request(TaskChecks(7)), l);
    s := Go(s, Request(TaskHands(7)), l);
    var messages := Everything(s.peers[0].received);
    assert messages == messages[..3] + [Resources(t, [pod])];
    ItemsOfAppend(messages[..3], Resources(t, [pod]), t);
    SettleConcat(None, ItemsOf(messages[..3], t), [pod], pod.key);
    assert [pod][..0] == [];
  }

  // ------------------------------------------------------------------ somebody who follows a broadcast

  // Connection 0 is being registered, and its writer is free.
  ghost predicate Joining(s: State, l: Limits) {
    && Within(s, l) && s.hub.Registering? && s.hub.conn == 0 && s.conns == {}
    && s.peers.Keys == {0} && s.peers[0].live && s.peers[0].open && s.peers[0].writer.Ready? && !s.peers[0].aux
    && s.tasks == map[] && s.missed == {} && s.archive == []
  }

  lemma OneSenderGetsThrough(s0: State, k: Kind, l: Limits) returns (s: State)
    requires Joining(s0, l) && k in s0.hub.senders && s0.hub.senders[k].Listing?
    ensures Joining(s, l) && s.hub.senders == s0.hub.senders[k := Returned]
    ensures s.stores == s0.stores && s.queues == s0.queues
  {
    var items := ListingExists(StoreOf(s0, All(k)));
    s := Go(s0, Registration(ListOk(k, items)), l);
    s := Go(s, Registration(SenderHands(k)), l);
    s := Go(s, Outer(WriteOk(0)), l);
  }

  lemma AllSendersGetThrough(s0: State, l: Limits) returns (s: State)
    requires Joining(s0, l) && s0.hub.senders == StartSenders()
    ensures Within(s, l) && s.hub == Select && s.conns == {0} && 0 in s.peers && !s.peers[0].aux
    ensures s.stores == s0.stores && s.queues == s0.queues && s.tasks == map[] && s.missed == {} && s.archive == []
  {
    s := OneSenderGetsThrough(s0, FlowKind, l);
    s := OneSenderGetsThrough(s, ApplicationKind, l);
    s := OneSenderGetsThrough(s, RolloutKind, l);
    s := OneSenderGetsThrough(s, WorkflowKind, l);
    s := Go(s, Registration(RegisterDone), l);
  }

  // An object is created and nobody is told; then somebody registers.
  lemma SomebodyFollows(k: Kind, item: Item, l: Limits) returns (s: State)
    requires !item.deleted
    ensures Within(s, l) && s.hub == Select && Follows(s, 0, All(k)) && Pending(s, All(k)) == []
    ensures At(StoreOf(s, All(k)), item.key).Some? && s.tasks == map[] && s.missed == {} && s.archive == []
  {
    var t := All(k);
    s := Begin(l);
    s := Go(s, Outer(Change(t, item)), l);
    assert Queue(s, KindSource(k)) == [Event(t, item)];
    s := Go(s, Service(Receive(KindSource(k))), l);
    s := Go(s, Service(RoundDone), l);
    s := Go(s, Registration(Register(0, false)), l);
    s := AllSendersGetThrough(s, l);
  }

  // ------------------------------------------------------------------ a change that no event tells of

  /** Whoever follows an object that goes away without an event keeps showing it. */
  lemma AnObjectGoesUntold(s0: State, c: Conn, t: Topic, key: string, l: Limits) returns (s: State)
    requires Within(s0, l) && s0.hub == Select && Follows(s0, c, t) && Pending(s0, t) == [] && s0.archive == []
    requires At(StoreOf(s0, t), key).Some? && s0.tasks == map[] && s0.missed == {} && (t, key) in l.untold
    ensures Within(s, l) && s.hub == Select && Follows(s, c, t) && Pending(s, t) == [] && s.archive == []
    ensures At(StoreOf(s, t), key) == None && Settle(None, ReceivedItems(s, c, t), key).Some?
  {
    WithinIsReachable(s0, l);
    NothingIsLost(s0, c, t, key);
    var received := ReceivedItems(s0, c, t);
    assert received + InFlight(s0.hub, c, t) + Pending(s0, t) == received;
    s := Go(s0, Outer(Missed(t, Item(key, "", true))), l);
  }

  /** For every topic and key: a run after which a follower shows an object that is gone, with no event to come. */
  lemma AnUntoldDeleteIsNeverSeen(t: Topic, key: string, l: Limits) returns (s: State)
    requires (t.PodsOf? ==> t.app != "") && (t, key) in l.untold
    ensures Within(s, l) && s.hub == Select && Follows(s, 0, t) && Pending(s, t) == [] && s.archive == []
    ensures At(StoreOf(s, t), key) == None && Settle(None, ReceivedItems(s, 0, t), key).Some?
  {
    var item := Item(key, "body", false);
    match t {
      case All(k) =>
        s := SomebodyFollows(k, item, l);
      case PodsOf(_, _) =>
        s := ASubscriberWaits(t, l);
        s := AnEventPasses(s, t, item, l);
    }
    s := AnObjectGoesUntold(s, 0, t, key, l);
  }

  // ------------------------------------------------------------------ exactly

  lemma ShowingWhatIsGoneIsWrong(s: State, t: Topic, key: string)
    requires s.hub == Select && Follows(s, 0, t) && Pending(s, t) == [] && s.archive == []
    requires At(StoreOf(s, t), key) == None && Settle(None, ReceivedItems(s, 0, t), key).Some?
    ensures !Right(s, 0, t, key)
  {
    var received := ReceivedItems(s, 0, t);
    assert received + InFlight(s.hub, 0, t) + Pending(s, t) == received;
  }

  lemma SomeRunIsWrong(t: Topic, key: string, l: Limits) returns (s: State)
    requires t.PodsOf? ==> t.app != ""
    requires (t, key) in l.untold || (t.PodsOf? && (t, key) in l.asked)
    ensures Within(s, l) && !Right(s, 0, t, key)
  {
    if (t, key) in l.untold {
      s := AnUntoldDeleteIsNeverSeen(t, key, l);
    } else {
      s := AnAnswerOutlivesItsPod(t, Item(key, "body", false), l);
    }
    ShowingWhatIsGoneIsWrong(s, t, key);
  }

  /**
   The exact condition: in all runs whose request goroutines answer only about `asked`, and in which only changes of
   `untold` have no event, clients are right about a key exactly when it is neither untold nor a pod that can be asked
   about.
   */
  lemma ClientsAreRightExactly(t: Topic, key: string, l: Limits)
    requires t.PodsOf? ==> t.app != ""
    ensures (forall archive, steps, c | Legal(Init(archive), steps) && RunWithin(steps, l) ::
               Right(Exec(Init(archive), steps), c, t, key))
       <==> (t, key) !in l.untold && (t.All? || (t, key) !in l.asked)
  {
    if (t, key) !in l.untold && (t.All? || (t, key) !in l.asked) {
      forall archive, steps, c | Legal(Init(archive), steps) && RunWithin(steps, l)
        ensures Right(Exec(Init(archive), steps), c, t, key)
      {
        RunsAreRight(archive, steps, c, t, key, l);
      }
    } else {
      var s := SomeRunIsWrong(t, key, l);
      var steps :| Legal(Init([]), steps) && RunWithin(steps, l) && s == Exec(Init([]), steps);
      assert !Right(Exec(Init([]), steps), 0, t, key);
    }
  }
}

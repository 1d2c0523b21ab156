/**
 Request goroutines answer on the same connection as the hub: a client that asks for a pod's logs is also sent a
 list with that pod. What a connection received in all still shows the store, except for pods that the connection
 asked about.
 */
module HubAnswers {
  import opened Options
  import opened Messages
  import opened HubModel
  import opened HubProtocol
  import opened HubViews

  function Everything(received: seq<Delivery>): seq<Message> {
    seq(|received|, i requires 0 <= i < |received| => received[i].message)
  }

  function ByHub(received: seq<Delivery>): seq<Message> {
    if received == [] then []
    else
      var last := received[|received| - 1];
      ByHub(received[..|received| - 1]) + if last.byHub then [last.message] else []
  }

  predicate Mentions(m: Message, t: Topic, key: string) { m.Resources? && m.topic == t && Touches(m.items, key) }

  /** A request goroutine of `c` has, or had, an answer about `key` to send. */
  ghost predicate AskedAbout(s: State, c: Conn, t: Topic, key: string) {
    exists id <- s.tasks :: s.tasks[id].conn == c && Mentions(s.tasks[id].message, t, key)
  }

  // ------------------------------------------------------------------ the two logs of a connection

  ghost predicate OnlyAsked(s: State, c: Conn, received: seq<Delivery>) {
    forall d <- received ::
      !d.byHub ==> exists id <- s.tasks :: s.tasks[id].conn == c && s.tasks[id].message == d.message
  }

  ghost predicate LogsOk(s: State) {
    && (forall c <- s.peers :: ByHub(s.peers[c].received) == s.peers[c].handed && OnlyAsked(s, c, s.peers[c].received))
    && (forall id <- s.tasks :: IsAnswer(s.tasks[id].message))
  }

  lemma ByHubAppend(received: seq<Delivery>, d: Delivery)
    ensures ByHub(received + [d]) == ByHub(received) + if d.byHub then [d.message] else []
  {
    assert (received + [d])[..|received + [d]| - 1] == received;
  }

  // Nothing is received, and no task is forgotten or changes its message.
  ghost predicate Silent(s: State, s': State) {
    && s.peers.Keys <= s'.peers.Keys
    && (forall c <- s'.peers :: if c in s.peers
          then s'.peers[c].received == s.peers[c].received && s'.peers[c].handed == s.peers[c].handed
          else s'.peers[c].received == [] && s'.peers[c].handed == [])
    && TasksGrow(s, s')
  }

  ghost predicate TasksGrow(s: State, s': State) {
    && s.tasks.Keys <= s'.tasks.Keys
    && (forall id <- s.tasks :: s'.tasks[id].conn == s.tasks[id].conn && s'.tasks[id].message == s.tasks[id].message)
    && (forall id <- s'.tasks :: id !in s.tasks ==> IsAnswer(s'.tasks[id].message))
  }

  lemma StillOnlyAsked(s: State, s': State, c: Conn, received: seq<Delivery>)
    requires OnlyAsked(s, c, received) && TasksGrow(s, s')
    ensures OnlyAsked(s', c, received)
  {
    forall d | d in received && !d.byHub
      ensures exists id <- s'.tasks :: s'.tasks[id].conn == c && s'.tasks[id].message == d.message
    {
      var id :| id in s.tasks && s.tasks[id].conn == c && s.tasks[id].message == d.message;
      assert id in s'.tasks;
    }
  }

  lemma SilentKeepsLogs(s: State, s': State)
    requires LogsOk(s) && Silent(s, s')
    ensures LogsOk(s')
  {
    forall c | c in s'.peers
      ensures ByHub(s'.peers[c].received) == s'.peers[c].handed && OnlyAsked(s', c, s'.peers[c].received)
    {
      if c in s.peers { StillOnlyAsked(s, s', c, s.peers[c].received); }
    }
  }

  lemma HandOverKeepsLogs(s: State, c: Conn, m: Message)
    requires LogsOk(s) && c in s.peers
    ensures LogsOk(HandOver(s, c, m))
  {
    ByHubAppend(s.peers[c].received, Delivery(m, true));
  }

  lemma HandAnswerKeepsLogs(s: State, id: nat)
    requires LogsOk(s) && id in s.tasks && s.tasks[id].conn in s.peers
    ensures LogsOk(HandAnswer(s, s.tasks[id].conn, s.tasks[id].message))
  {
    ByHubAppend(s.peers[s.tasks[id].conn].received, Delivery(s.tasks[id].message, false));
  }

  lemma RegisterKeepsLogs(s: State, step: RegisterStep)
    requires LogsOk(s) && RegisterEnabled(s, step)
    ensures LogsOk(DoRegister(s, step))
  {
    match step
    case SenderHands(k) =>
      HandOverKeepsLogs(s, s.hub.conn, s.hub.senders[k].message);
      SilentKeepsLogs(HandOver(s, s.hub.conn, s.hub.senders[k].message), DoRegister(s, step));
    case _ => SilentKeepsLogs(s, DoRegister(s, step));
  }

  // No writer receives anything: the peers differ in what else they do.
  lemma OnlyPeersMove(s: State, s': State)
    requires LogsOk(s) && s'.tasks == s.tasks && s'.peers.Keys == s.peers.Keys
    requires forall c <- s.peers ::
      s'.peers[c].received == s.peers[c].received && s'.peers[c].handed == s.peers[c].handed
    ensures LogsOk(s')
  {
    SilentKeepsLogs(s, s');
  }

  lemma ResumeMovesNoPeers(s: State, c: Conn, m: Message, next: Then)
    ensures Resume(s, c, m, next).peers == s.peers && Resume(s, c, m, next).tasks == s.tasks
    ensures HubSends(s, c, m, next).peers == s.peers && HubSends(s, c, m, next).tasks == s.tasks
  {
  }

  lemma SamePeersKeepLogs(s: State, s': State)
    requires LogsOk(s) && s'.peers == s.peers && s'.tasks == s.tasks
    ensures LogsOk(s')
  {
  }

  lemma HubHandsKeepsLogs(s: State)
    requires LogsOk(s) && ServeEnabled(s, HubHands)
    ensures LogsOk(DoServe(s, HubHands))
  {
    var handed := HandOver(s, s.hub.conn, s.hub.message);
    HandOverKeepsLogs(s, s.hub.conn, s.hub.message);
    ResumeMovesNoPeers(handed, s.hub.conn, s.hub.message, s.hub.next);
    SamePeersKeepLogs(handed, DoServe(s, HubHands));
  }

  lemma ServeMovesNoPeers(s: State, step: ServeStep)
    requires ServeEnabled(s, step) && !step.HubHands? && !step.TakeSubscribe?
    ensures DoServe(s, step).peers == s.peers && DoServe(s, step).tasks == s.tasks
  {
    match step
    case HubSkips => ResumeMovesNoPeers(s, s.hub.conn, s.hub.message, s.hub.next);
    case PodListOk(items) =>
      ResumeMovesNoPeers(s, s.hub.conn, Resources(s.hub.topic, items), ThenSubscribe(s.hub.topic));
    case PodListFail => ResumeMovesNoPeers(s, s.hub.conn, WebError("PodList"), ThenSelfReport);
    case Next(c) =>
      ResumeMovesNoPeers(s, c, EventMessage(s.hub.event), ThenRound(s.hub.event, s.hub.rest - {c}));
    case _ =>
  }

  lemma ServeKeepsLogs(s: State, step: ServeStep)
    requires LogsOk(s) && ServeEnabled(s, step)
    ensures LogsOk(DoServe(s, step))
  {
    match step
    case HubHands => HubHandsKeepsLogs(s);
    case TakeSubscribe(c) => OnlyPeersMove(s, DoServe(s, step));
    case _ =>
      ServeMovesNoPeers(s, step);
      SamePeersKeepLogs(s, DoServe(s, step));
  }

  lemma OuterKeepsLogs(s: State, step: OuterStep)
    requires LogsOk(s) && OuterEnabled(s, step)
    ensures LogsOk(DoOuter(s, step))
  {
    SilentKeepsLogs(s, DoOuter(s, step));
  }

  lemma CancellingKeepsLogs(s: State, c: Conn)
    requires LogsOk(s) && c in s.peers && c in s.conns
    ensures LogsOk(StartUnregister(s, c))
  {
    SilentKeepsLogs(s, StartUnregister(s, c));
  }

  lemma StartUnregisterKeepsLogs(s: State, c: Conn)
    requires LogsOk(s) && c in s.peers
    ensures LogsOk(StartUnregister(s, c))
  {
    if c in s.conns { CancellingKeepsLogs(s, c); }
  }

  lemma UnregisterKeepsLogs(s: State, step: UnregisterStep)
    requires LogsOk(s) && UnregisterEnabled(s, step)
    ensures LogsOk(DoUnregister(s, step))
  {
    match step
    case ReaderReports(c) =>
      var s1 := s.(peers := s.peers[c := s.peers[c].(reader := Left)]);
      OnlyPeersMove(s, s1);
      StartUnregisterKeepsLogs(s1, c);
    case WriterReports(c) =>
      var s1 := s.(peers := s.peers[c := s.peers[c].(writer := Ready)]);
      OnlyPeersMove(s, s1);
      StartUnregisterKeepsLogs(s1, c);
    case TaskReports(id) =>
      var s1 := s.(tasks := s.tasks[id := s.tasks[id].(phase := Over)]);
      SilentKeepsLogs(s, s1);
      StartUnregisterKeepsLogs(s1, s.tasks[id].conn);
    case Delete =>
    case CloseChannel => OnlyPeersMove(s, DoUnregister(s, step));
  }

  lemma TaskKeepsLogs(s: State, step: TaskStep)
    requires LogsOk(s) && TaskEnabled(s, step)
    ensures LogsOk(DoTask(s, step))
  {
    match step
    case TaskHands(id) =>
      HandAnswerKeepsLogs(s, id);
      SilentKeepsLogs(HandAnswer(s, s.tasks[id].conn, s.tasks[id].message), DoTask(s, step));
    case _ => SilentKeepsLogs(s, DoTask(s, step));
  }

  lemma StepKeepsLogs(s: State, step: Step)
    requires LogsOk(s) && Enabled(s, step)
    ensures LogsOk(Do(s, step))
  {
    match step
    case Outer(o) => OuterKeepsLogs(s, o);
    case Registration(r) => RegisterKeepsLogs(s, r);
    case Service(v) => ServeKeepsLogs(s, v);
    case Unregistration(u) => UnregisterKeepsLogs(s, u);
    case Request(t) => TaskKeepsLogs(s, t);
  }

  lemma {:induction false} RunKeepsLogs(archive: seq<Item>, steps: seq<Step>)
    requires Legal(Init(archive), steps)
    ensures LogsOk(Exec(Init(archive), steps))
    decreases |steps|
  {
    if steps != [] {
      RunKeepsLogs(archive, steps[..|steps| - 1]);
      StepKeepsLogs(Exec(Init(archive), steps[..|steps| - 1]), steps[|steps| - 1]);
    }
  }

  /** The messages of the hub among all that a writer received are those that the hub handed over, in order. */
  lemma HandedIsReceivedFromHub(s: State, c: Conn)
    requires Reachable(s) && c in s.peers
    ensures ByHub(s.peers[c].received) == s.peers[c].handed
  {
    var archive, steps :| Legal(Init(archive), steps) && s == Exec(Init(archive), steps);
    RunKeepsLogs(archive, steps);
  }

  // ------------------------------------------------------------------ keys nobody asked about

  lemma SameTail(xs: seq<Item>, ys: seq<Item>, rest: seq<Item>, key: string)
    requires Settle(None, xs, key) == Settle(None, ys, key)
    ensures Settle(None, xs + rest, key) == Settle(None, ys + rest, key)
  {
    SettleConcat(None, xs, rest, key);
    SettleConcat(None, ys, rest, key);
  }

  lemma UntouchedTail(xs: seq<Item>, rest: seq<Item>, key: string)
    requires !Touches(rest, key)
    ensures Settle(None, xs + rest, key) == Settle(None, xs, key)
  {
    SettleConcat(None, xs, rest, key);
    SettleTouched(Settle(None, xs, key), None, rest, key);
  }

  lemma EverythingAppend(received: seq<Delivery>, d: Delivery)
    ensures Everything(received + [d]) == Everything(received) + [d.message]
  {
  }

  lemma {:induction false} BothLogsSettleAlike(received: seq<Delivery>, t: Topic, key: string)
    requires forall d <- received :: !d.byHub ==> !Mentions(d.message, t, key)
    ensures Settle(None, ItemsOf(Everything(received), t), key) == Settle(None, ItemsOf(ByHub(received), t), key)
  {
    if received != [] {
      var front, last := received[..|received| - 1], received[|received| - 1];
      assert received == front + [last];
      BothLogsSettleAlike(front, t, key);
      OneMoreDelivery(front, last, t, key);
    }
  }

  lemma OneMoreDelivery(front: seq<Delivery>, last: Delivery, t: Topic, key: string)
    requires !last.byHub ==> !Mentions(last.message, t, key)
    requires Settle(None, ItemsOf(Everything(front), t), key) == Settle(None, ItemsOf(ByHub(front), t), key)
    ensures Settle(None, ItemsOf(Everything(front + [last]), t), key)
         == Settle(None, ItemsOf(ByHub(front + [last]), t), key)
  {
    var xs, ys, m := ItemsOf(Everything(front), t), ItemsOf(ByHub(front), t), last.message;
    EverythingAppend(front, last);
    ByHubAppend(front, last);
    assert ByHub(front) + [] == ByHub(front);
    ItemsOfAppend(Everything(front), m, t);
    ItemsOfAppend(ByHub(front), m, t);
    var items := if m.Resources? && m.topic == t then m.items else [];
    if last.byHub { SameTail(xs, ys, items, key); } else { UntouchedTail(xs, items, key); }
  }

  function ReceivedItems(s: State, c: Conn, t: Topic): seq<Item>
    requires c in s.peers
  {
    ItemsOf(Everything(s.peers[c].received), t)
  }

  lemma ReceivedAndHanded(s: State, c: Conn, t: Topic, key: string)
    requires Reachable(s) && c in s.peers && !AskedAbout(s, c, t, key)
    ensures Settle(None, ReceivedItems(s, c, t), key) == Settle(None, HandedItems(s.peers, c, t), key)
  {
    var archive, steps :| Legal(Init(archive), steps) && s == Exec(Init(archive), steps);
    RunKeepsLogs(archive, steps);
    forall d | d in s.peers[c].received && !d.byHub ensures !Mentions(d.message, t, key) {
      assert OnlyAsked(s, c, s.peers[c].received);
    }
    BothLogsSettleAlike(s.peers[c].received, t, key);
  }

  /**
   In every reachable state, for every connection, every topic it follows and every key that it did not ask about and
   whose last change an event told of: everything its writer received, in the order received, then the event being
   distributed, then the events still queued, merge to the stored object, or to nothing when nothing is stored and the
   key is not archived.
   */
  lemma NothingIsLost(s: State, c: Conn, t: Topic, key: string)
    requires Reachable(s) && Follows(s, c, t) && !AskedAbout(s, c, t, key) && Told(s, t, key)
    ensures At(StoreOf(s, t), key).Some? || !Touches(Archived(s, t), key) ==>
      Settle(None, ReceivedItems(s, c, t) + InFlight(s.hub, c, t) + Pending(s, t), key) == At(StoreOf(s, t), key)
  {
    var flight, pending := InFlight(s.hub, c, t), Pending(s, t);
    HubLosesNothing(s, c, t, key);
    ReceivedAndHanded(s, c, t, key);
    SameTail(ReceivedItems(s, c, t), HandedItems(s.peers, c, t), flight, key);
    SameTail(ReceivedItems(s, c, t) + flight, HandedItems(s.peers, c, t) + flight, pending, key);
  }

  /** Nobody can ask about a flow, an application, a rollout or a workflow in this way. */
  lemma OnlyPodsAreAskedAbout(s: State, c: Conn, k: Kind, key: string)
    requires Reachable(s)
    ensures !AskedAbout(s, c, All(k), key)
  {
    var archive, steps :| Legal(Init(archive), steps) && s == Exec(Init(archive), steps);
    RunKeepsLogs(archive, steps);
  }
}

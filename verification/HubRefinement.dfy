/**
 The protocol refines the sequential hub: in every reachable state the connections, the subscription sets and
 what each connection was handed are those of replaying the finished requests one at a time, plus the part of
 the event under distribution that has been served.
 */
module HubRefinement {
  import opened Messages
  import opened HubModel
  import opened HubProtocol
  import opened HubSafety
  import opened HubAnswers

  /** The list messages among those that the hub and its initial senders handed over. */
  function ListsOf(messages: seq<Message>): seq<Message> {
    if messages == [] then []
    else
      var last := messages[|messages| - 1];
      ListsOf(messages[..|messages| - 1]) + if last.Resources? then [last] else []
  }

  lemma ListsOfAppend(messages: seq<Message>, m: Message)
    ensures ListsOf(messages + [m]) == ListsOf(messages) + if m.Resources? then [m] else []
  {
    assert (messages + [m])[..|messages + [m]| - 1] == messages;
  }

  function Sent(peers: map<Conn, Peer>, c: Conn): seq<Message> {
    if c in peers then ListsOf(peers[c].handed) else []
  }

  predicate Distributing(hub: HubPoint) { hub.Round? || (hub.Offering? && hub.next.ThenRound?) }

  function EventOf(hub: HubPoint): Event
    requires Distributing(hub)
  {
    if hub.Round? then hub.event else hub.next.event
  }

  /** Who the distribution has not come to yet. */
  function Unserved(hub: HubPoint): set<Conn>
    requires Distributing(hub)
  {
    if hub.Round? then hub.rest else hub.next.rest + {hub.conn}
  }

  predicate Served(m: Hub<Conn>, hub: HubPoint, c: Conn)
    requires Distributing(hub)
  {
    && c in m.conns && c !in Unserved(hub)
    && if EventOf(hub).topic.All? then c !in m.aux else c in Subs(m.subs, EventOf(hub).topic)
  }

  function Extra(m: Hub<Conn>, hub: HubPoint, c: Conn): seq<Message> {
    if Distributing(hub) && Served(m, hub, c) then [EventMessage(EventOf(hub))] else []
  }

  function Joining(hub: HubPoint): set<Conn> { if hub.Registering? then {hub.conn} else {} }

  predicate SubscribersAgree(s: State, m: Hub<Conn>, t: Topic, c: Conn) {
    c in Subs(s.subs, t) <==>
      && c in Subs(m.subs, t)
      && (Distributing(s.hub) && t == EventOf(s.hub).topic && !t.All? ==> c in s.conns || c in Unserved(s.hub))
  }

  predicate ConnAgrees(s: State, m: Hub<Conn>, c: Conn)
    requires c in m.handed
  {
    c in s.peers && (c in m.aux <==> s.peers[c].aux) && Sent(s.peers, c) == m.handed[c] + Extra(m, s.hub, c)
  }

  ghost predicate Agrees(s: State, m: Hub<Conn>) {
    && m.conns == s.conns + (if s.hub.Deleted? then {s.hub.conn} else {})
    && m.handed.Keys == s.peers.Keys - Joining(s.hub)
    && (forall c <- m.handed :: ConnAgrees(s, m, c))
    && (forall t, c :: SubscribersAgree(s, m, t, c))
  }

  ghost predicate Refines(s: State) {
    Orderly(s.history) && Consistent(Replay(s.history)) && Agrees(s, Replay(s.history))
  }

  // ------------------------------------------------------------------ steps that finish no request

  lemma Stutter(s: State, s': State)
    requires Refines(s) && s'.history == s.history
    requires s'.peers.Keys == s.peers.Keys && s'.conns == s.conns
    requires forall t :: Subs(s'.subs, t) == Subs(s.subs, t)
    requires forall c <- s.peers :: s'.peers[c].aux == s.peers[c].aux && Sent(s'.peers, c) == Sent(s.peers, c)
    requires s'.hub.Deleted? <==> s.hub.Deleted?
    requires s.hub.Deleted? ==> s'.hub.conn == s.hub.conn
    requires Joining(s'.hub) == Joining(s.hub)
    requires Distributing(s'.hub) <==> Distributing(s.hub)
    requires Distributing(s.hub) ==> EventOf(s'.hub) == EventOf(s.hub) && Unserved(s'.hub) == Unserved(s.hub)
    ensures Refines(s')
  {
    var m := Replay(s.history);
    forall c | c in m.handed ensures ConnAgrees(s', m, c) {
      assert ConnAgrees(s, m, c) && Extra(m, s'.hub, c) == Extra(m, s.hub, c);
    }
    forall t, c ensures SubscribersAgree(s', m, t, c) {
      assert SubscribersAgree(s, m, t, c);
    }
  }

  lemma PeerStutter(s: State, c: Conn, p: Peer)
    requires Refines(s) && c in s.peers
    requires p.aux == s.peers[c].aux && ListsOf(p.handed) == ListsOf(s.peers[c].handed)
    ensures Refines(s.(peers := s.peers[c := p]))
  {
    Stutter(s, s.(peers := s.peers[c := p]));
  }

  lemma OuterRefines(s: State, step: OuterStep)
    requires Refines(s) && OuterEnabled(s, step)
    ensures Refines(DoOuter(s, step))
  {
    match step
    case Change(t, item) => Stutter(s, DoOuter(s, step));
    case Missed(t, item) => Stutter(s, DoOuter(s, step));
    case Ask(c, t) => PeerStutter(s, c, s.peers[c].(reader := Asking(t)));
    case Spawn(c, id, m, closes) => Stutter(s, DoOuter(s, step));
    case Hangup(c) => PeerStutter(s, c, s.peers[c].(reader := Leaving));
    case WriteOk(c) => PeerStutter(s, c, s.peers[c].(writer := Ready));
    case WriteFail(c) => PeerStutter(s, c, s.peers[c].(writer := Complaining));
    case WriterExits(c) => PeerStutter(s, c, s.peers[c].(writer := Finished));
  }

  lemma TaskRefines(s: State, step: TaskStep)
    requires Safe(s) && Refines(s) && TaskEnabled(s, step)
    ensures Refines(DoTask(s, step))
  {
    assert TaskOk(s, s.tasks[step.id]);
    if step.TaskHands? {
      var c, m := s.tasks[step.id].conn, s.tasks[step.id].message;
      PeerStutter(s, c, HandAnswer(s, c, m).peers[c]);
      Stutter(HandAnswer(s, c, m), DoTask(s, step));
    } else {
      Stutter(s, DoTask(s, step));
    }
  }

  // ------------------------------------------------------------------ finished requests

  lemma Finish(s: State, s': State, r: Request<Conn>)
    requires Refines(s) && s'.history == s.history + [r]
    requires r.Joined? ==> r.conn !in Replay(s.history).handed
    requires r.Subscribed? ==> r.conn in Replay(s.history).handed
    requires Agrees(s', Handle(Replay(s.history), r))
    ensures Refines(s')
  {
    assert s'.history[..|s'.history| - 1] == s.history;
    assert Replay(s'.history) == Handle(Replay(s.history), r);
    ReplayIsConsistent(s'.history);
  }

  // ------------------------------------------------------------------ the four initial lists

  predicate Mentions(messages: seq<Message>, t: Topic) {
    exists m <- messages :: m.Resources? && m.topic == t
  }

  function IsReturned(senders: map<Kind, Sender>, k: Kind): nat {
    if k in senders && senders[k].Returned? then 1 else 0
  }

  function CountReturned(senders: map<Kind, Sender>): nat {
    IsReturned(senders, FlowKind) + IsReturned(senders, ApplicationKind)
    + IsReturned(senders, RolloutKind) + IsReturned(senders, WorkflowKind)
  }

  /** One list of each kind, in whatever order the initial senders got to the writer. */
  ghost predicate FourLists(lists: seq<Message>) {
    && |lists| == 4
    && (forall m <- lists :: m.Resources?)
    && forall k :: Mentions(lists, All(k))
  }

  ghost predicate SendersOk(senders: map<Kind, Sender>, handed: seq<Message>) {
    && (forall k <- senders | senders[k].Sending? && !senders[k].failed ::
          senders[k].message.Resources? && senders[k].message.topic == All(k))
    && ((forall k <- senders :: !HasFailed(senders[k])) ==>
          && (forall m <- handed :: m.Resources?)
          && |handed| == CountReturned(senders)
          && forall k <- senders :: senders[k].Returned? <==> Mentions(handed, All(k)))
  }

  ghost predicate JoinOk(r: Request<Conn>) {
    r.Joined? ==> if r.aux then r.lists == [] else FourLists(r.lists)
  }

  ghost predicate ListsOk(s: State) {
    && (s.hub.Registering? && s.hub.conn in s.peers ==> SendersOk(s.hub.senders, s.peers[s.hub.conn].handed))
    && forall r <- s.history :: JoinOk(r)
  }

  lemma MentionsAppend(messages: seq<Message>, m: Message, t: Topic)
    ensures Mentions(messages + [m], t) <==> Mentions(messages, t) || (m.Resources? && m.topic == t)
  {
    if Mentions(messages, t) {
      var x :| x in messages && x.Resources? && x.topic == t;
      assert x in messages + [m];
    }
    if m.Resources? && m.topic == t { assert m in messages + [m]; }
  }

  lemma NowSending(senders: map<Kind, Sender>, handed: seq<Message>, k: Kind, m: Message, failed: bool)
    requires SendersOk(senders, handed) && k in senders && senders[k].Listing?
    requires failed || (m.Resources? && m.topic == All(k))
    ensures SendersOk(senders[k := Sending(m, failed)], handed)
  {
    var senders' := senders[k := Sending(m, failed)];
    assert CountReturned(senders') == CountReturned(senders);
    if forall j <- senders' :: !HasFailed(senders'[j]) {
      assert !failed by { assert !HasFailed(senders'[k]); }
      forall j | j in senders ensures !HasFailed(senders[j]) {
        assert j in senders' && !HasFailed(senders'[j]);
      }
    }
  }

  lemma NowReturned(senders: map<Kind, Sender>, handed: seq<Message>, k: Kind)
    requires SendersOk(senders, handed) && k in senders && senders[k].Sending?
    ensures SendersOk(senders[k := if senders[k].failed then Resigning else Returned], handed + [senders[k].message])
  {
    var m := senders[k].message;
    var senders' := senders[k := if senders[k].failed then Resigning else Returned];
    if forall j <- senders' :: !HasFailed(senders'[j]) {
      assert !senders[k].failed by { assert k in senders' && !HasFailed(senders'[k]); }
      forall j | j in senders ensures !HasFailed(senders[j]) {
        assert j in senders' && !HasFailed(senders'[j]);
      }
      assert CountReturned(senders') == CountReturned(senders) + 1;
      forall j | j in senders' ensures senders'[j].Returned? <==> Mentions(handed + [m], All(j)) {
        MentionsAppend(handed, m, All(j));
      }
    }
  }

  lemma SenderKeepsLists(s: State, step: RegisterStep)
    requires Safe(s) && ListsOk(s) && RegisterEnabled(s, step)
    requires step.ListOk? || step.ListFail? || step.SenderHands?
    ensures ListsOk(DoRegister(s, step))
  {
    var senders, handed := s.hub.senders, s.peers[s.hub.conn].handed;
    match step
    case ListOk(k, items) => NowSending(senders, handed, k, Resources(All(k), Archived(s, All(k)) + items), false);
    case ListFail(k) => NowSending(senders, handed, k, WebError("List"), true);
    case SenderHands(k) => NowReturned(senders, handed, k);
  }

  lemma RegistrationHandedFour(s: State)
    requires Safe(s) && ListsOk(s) && RegisterEnabled(s, RegisterDone)
    ensures FourLists(s.peers[s.hub.conn].handed)
  {
    var lists := s.peers[s.hub.conn].handed;
    forall k ensures Mentions(lists, All(k)) {
      assert k in s.hub.senders by {
        match k case FlowKind => case ApplicationKind => case RolloutKind => case WorkflowKind =>
      }
    }
  }

  lemma RegisterStartsLists(s: State, c: Conn, aux: bool)
    requires ListsOk(s) && RegisterEnabled(s, Register(c, aux))
    ensures ListsOk(DoRegister(s, Register(c, aux)))
  {
    assert JoinOk(Joined(c, true, []));
  }

  lemma RegisterDoneKeepsLists(s: State)
    requires Safe(s) && ListsOk(s) && RegisterEnabled(s, RegisterDone)
    ensures ListsOk(DoRegister(s, RegisterDone))
  {
    RegistrationHandedFour(s);
  }

  lemma RegisterKeepsLists(s: State, step: RegisterStep)
    requires Safe(s) && ListsOk(s) && RegisterEnabled(s, step)
    ensures ListsOk(DoRegister(s, step))
  {
    if s.hub.Registering? { assert PeerOk(s, s.hub.conn); }
    match step
    case Register(c, aux) => RegisterStartsLists(s, c, aux);
    case RegisterDone => RegisterDoneKeepsLists(s);
    case SenderSkips(k) =>
    case SenderPanics(k) =>
    case _ => SenderKeepsLists(s, step);
  }

  lemma StepKeepsLists(s: State, step: Step)
    requires Safe(s) && ListsOk(s) && Enabled(s, step)
    ensures ListsOk(Do(s, step))
  {
    match step
    case Outer(o) => OuterKeepsLists(s, o);
    case Registration(r) => RegisterKeepsLists(s, r);
    case Service(v) => ServeKeepsLists(s, v);
    case Unregistration(u) => UnregisterKeepsLists(s, u);
    case Request(t) => assert TaskOk(s, s.tasks[t.id]); TaskKeepsLists(s, t);
  }

  lemma OuterKeepsLists(s: State, step: OuterStep)
    requires ListsOk(s) && OuterEnabled(s, step)
    ensures ListsOk(DoOuter(s, step))
  {
  }

  lemma LaterRequest(s: State, s': State, r: Request<Conn>)
    requires ListsOk(s) && !s'.hub.Registering? && !r.Joined?
    requires s'.history == s.history || s'.history == s.history + [r]
    ensures ListsOk(s')
  {
  }

  lemma ServeKeepsLists(s: State, step: ServeStep)
    requires ListsOk(s) && ServeEnabled(s, step)
    ensures ListsOk(DoServe(s, step))
  {
    var last := ServeHistory(s, step);
    LaterRequest(s, DoServe(s, step), last);
  }

  // What the end of a send finishes.
  lemma ResumeHistory(s: State, c: Conn, m: Message, next: Then) returns (r: Request<Conn>)
    ensures !r.Joined? && !Resume(s, c, m, next).hub.Registering?
    ensures Resume(s, c, m, next).history == s.history || Resume(s, c, m, next).history == s.history + [r]
  {
    r := if next.ThenSubscribe? then Subscribed(c, next.topic, m) else Dropped(c);
  }

  lemma ServeHistory(s: State, step: ServeStep) returns (r: Request<Conn>)
    requires ServeEnabled(s, step)
    ensures !r.Joined? && !DoServe(s, step).hub.Registering?
    ensures DoServe(s, step).history == s.history || DoServe(s, step).history == s.history + [r]
  {
    match step
    case TakeSubscribe(c) => r := Subscribed(c, s.peers[c].reader.topic, Resources(s.peers[c].reader.topic, []));
    case PodListOk(items) => r := Subscribed(s.hub.conn, s.hub.topic, Resources(s.hub.topic, items));
    case HubHands => r := ResumeHistory(HandOver(s, s.hub.conn, s.hub.message), s.hub.conn, s.hub.message, s.hub.next);
    case HubSkips => r := ResumeHistory(s, s.hub.conn, s.hub.message, s.hub.next);
    case RoundDone => r := Notified(s.hub.event);
    case Next(c) => r := Dropped(0);
    case _ => r := Dropped(0);
  }

  lemma UnregisterKeepsLists(s: State, step: UnregisterStep)
    requires ListsOk(s) && UnregisterEnabled(s, step)
    ensures ListsOk(DoUnregister(s, step))
  {
  }

  lemma TaskKeepsLists(s: State, step: TaskStep)
    requires Safe(s) && ListsOk(s) && TaskEnabled(s, step)
    ensures ListsOk(DoTask(s, step))
  {
    var c := s.tasks[step.id].conn;
    assert TaskOk(s, s.tasks[step.id]);
    assert PeerOk(s, c);
  }

  // ------------------------------------------------------------------ requests

  lemma JoinConnAgrees(s: State, s': State, m: Hub<Conn>, c: Conn, aux: bool, lists: seq<Message>, d: Conn)
    requires !Distributing(s.hub) && s'.hub == Select && d in s'.peers
    requires if d == c then c !in m.aux && s'.peers[c].aux == aux && Sent(s'.peers, c) == lists
             else d in m.handed && ConnAgrees(s, m, d) && s'.peers[d] == s.peers[d]
    ensures d in Join(m, c, aux, lists).handed && ConnAgrees(s', Join(m, c, aux, lists), d)
  {
  }

  lemma JoinAgrees(s: State, s': State, m: Hub<Conn>, c: Conn, aux: bool, lists: seq<Message>)
    requires Agrees(s, m) && Consistent(m) && c !in s.conns
    requires (s.hub.Select? && c !in s.peers) || (s.hub.Registering? && s.hub.conn == c && c in s.peers)
    requires s'.hub == Select && s'.conns == s.conns + {c} && s'.subs == s.subs
    requires s'.peers.Keys == s.peers.Keys + {c} && s'.peers[c].aux == aux && Sent(s'.peers, c) == lists
    requires forall d <- s.peers :: d != c ==> s'.peers[d] == s.peers[d]
    ensures Agrees(s', Join(m, c, aux, lists)) && c !in m.handed
  {
    var m' := Join(m, c, aux, lists);
    forall t, d ensures SubscribersAgree(s', m', t, d) { assert SubscribersAgree(s, m, t, d); }
    assert c !in m.aux;
    forall d | d in m'.handed ensures ConnAgrees(s', m', d) {
      assert d != c ==> ConnAgrees(s, m, d);
      JoinConnAgrees(s, s', m, c, aux, lists, d);
    }
  }

  lemma JoinRefines(s: State, s': State, c: Conn, aux: bool, lists: seq<Message>)
    requires Refines(s) && c !in s.conns
    requires (s.hub.Select? && c !in s.peers) || (s.hub.Registering? && s.hub.conn == c && c in s.peers)
    requires s'.hub == Select && s'.conns == s.conns + {c} && s'.subs == s.subs
    requires s'.peers.Keys == s.peers.Keys + {c} && s'.peers[c].aux == aux && Sent(s'.peers, c) == lists
    requires forall d <- s.peers :: d != c ==> s'.peers[d] == s.peers[d]
    requires s'.history == s.history + [Joined(c, aux, lists)]
    ensures Refines(s')
  {
    JoinAgrees(s, s', Replay(s.history), c, aux, lists);
    Finish(s, s', Joined(c, aux, lists));
  }

  lemma AllAreLists(messages: seq<Message>)
    requires forall m <- messages :: m.Resources?
    ensures ListsOf(messages) == messages
  {
    if messages != [] {
      AllAreLists(messages[..|messages| - 1]);
      assert messages == messages[..|messages| - 1] + [messages[|messages| - 1]];
    }
  }

  lemma StartingRefines(s: State, c: Conn)
    requires Refines(s) && Safe(s) && RegisterEnabled(s, Register(c, false))
    ensures Refines(DoRegister(s, Register(c, false)))
  {
    var m, s' := Replay(s.history), DoRegister(s, Register(c, false));
    forall t, d ensures SubscribersAgree(s', m, t, d) { assert SubscribersAgree(s, m, t, d); }
    forall d | d in m.handed ensures ConnAgrees(s', m, d) {
      assert ConnAgrees(s, m, d) && Extra(m, s'.hub, d) == Extra(m, s.hub, d);
    }
  }

  lemma SenderRefines(s: State, k: Kind)
    requires Refines(s) && Safe(s) && RegisterEnabled(s, SenderHands(k))
    ensures Refines(DoRegister(s, SenderHands(k)))
  {
    var m, s' := Replay(s.history), DoRegister(s, SenderHands(k));
    forall t, d ensures SubscribersAgree(s', m, t, d) { assert SubscribersAgree(s, m, t, d); }
    forall d | d in m.handed ensures ConnAgrees(s', m, d) {
      assert ConnAgrees(s, m, d) && d != s.hub.conn && Extra(m, s'.hub, d) == Extra(m, s.hub, d);
    }
  }

  lemma AuxRegisterRefines(s: State, c: Conn)
    requires Refines(s) && Safe(s) && RegisterEnabled(s, Register(c, true))
    ensures Refines(DoRegister(s, Register(c, true)))
  {
    JoinRefines(s, DoRegister(s, Register(c, true)), c, true, []);
  }

  lemma RegisterDoneRefines(s: State)
    requires Refines(s) && Safe(s) && ListsOk(s) && RegisterEnabled(s, RegisterDone)
    ensures Refines(DoRegister(s, RegisterDone))
  {
    assert PeerOk(s, s.hub.conn);
    RegistrationHandedFour(s);
    AllAreLists(s.peers[s.hub.conn].handed);
    JoinRefines(s, DoRegister(s, RegisterDone), s.hub.conn, false, s.peers[s.hub.conn].handed);
  }

  lemma RegisterRefines(s: State, step: RegisterStep)
    requires Refines(s) && Safe(s) && ListsOk(s) && RegisterEnabled(s, step)
    ensures Refines(DoRegister(s, step))
  {
    if s.hub.Registering? { assert PeerOk(s, s.hub.conn); }
    match step
    case Register(c, aux) =>
      if aux { AuxRegisterRefines(s, c); } else { StartingRefines(s, c); }
    case RegisterDone => RegisterDoneRefines(s);
    case SenderHands(k) => SenderRefines(s, k);
    case SenderSkips(k) =>
    case SenderPanics(k) =>
    case ListOk(k, items) => Stutter(s, DoRegister(s, step));
    case ListFail(k) => Stutter(s, DoRegister(s, step));
  }

  // ------------------------------------------------------------------ service

  lemma SubscribeHands(s: State, peers': map<Conn, Peer>, m: Hub<Conn>, c: Conn, t: Topic, pods: Message, d: Conn)
    requires Agrees(s, m) && Consistent(m) && Plain(s.hub) && !Distributing(s.hub)
    requires c in m.handed && d in m.handed && ConnAgrees(s, m, d)
    requires Sent(peers', d) ==
      Sent(s.peers, d) + if d == c && c in s.conns && c !in Subs(s.subs, t) then [pods] else []
    ensures Sent(peers', d) == Subscribe(m, c, t, pods).handed[d]
  {
    assert SubscribersAgree(s, m, t, c);
    assert Extra(m, s.hub, d) == [];
    assert d in m.gone <==> d !in s.conns;
  }

  lemma SubscribeSubscribers(s: State, s': State, m: Hub<Conn>, c: Conn, t: Topic, pods: Message, u: Topic, d: Conn)
    requires SubscribersAgree(s, m, u, d) && SubscribersAgree(s, m, t, c)
    requires !Distributing(s.hub) && s'.hub == Select
    requires Subs(s'.subs, u) == Subs(s.subs, u) + if u == t then {c} else {}
    ensures SubscribersAgree(s', Subscribe(m, c, t, pods), u, d)
  {
    SubsUpdate(m.subs, t, Subs(m.subs, t) + {c});
  }

  lemma AllSubscribersAgree(s: State, s': State, m: Hub<Conn>, c: Conn, t: Topic, pods: Message)
    requires !Distributing(s.hub) && s'.hub == Select
    requires forall u, d :: SubscribersAgree(s, m, u, d)
    requires forall u :: Subs(s'.subs, u) == Subs(s.subs, u) + if u == t then {c} else {}
    ensures forall u, d :: SubscribersAgree(s', Subscribe(m, c, t, pods), u, d)
  {
    forall u, d ensures SubscribersAgree(s', Subscribe(m, c, t, pods), u, d) {
      assert SubscribersAgree(s, m, u, d) && SubscribersAgree(s, m, t, c);
      SubscribeSubscribers(s, s', m, c, t, pods, u, d);
    }
  }

  // Connection `d` got the answer to a new subscription, or nothing.
  predicate GotPods(s: State, s': State, c: Conn, t: Topic, pods: Message, d: Conn) {
    Sent(s'.peers, d) ==
      Sent(s.peers, d) + if d == c && c in s.conns && c !in Subs(s.subs, t) then [pods] else []
  }

  lemma SubscribeKeepsKeys(m: Hub<Conn>, c: Conn, t: Topic, pods: Message)
    ensures var m' := Subscribe(m, c, t, pods);
      m'.conns == m.conns && m'.aux == m.aux && m'.handed.Keys == m.handed.Keys
  {
  }

  lemma SubscribeConnAgrees(s: State, s': State, m: Hub<Conn>, c: Conn, t: Topic, pods: Message, d: Conn)
    requires Agrees(s, m) && Consistent(m) && Plain(s.hub) && !Distributing(s.hub)
    requires c in m.handed && d in m.handed
    requires s'.hub == Select && d in s.peers && d in s'.peers && s'.peers[d].aux == s.peers[d].aux
    requires GotPods(s, s', c, t, pods, d)
    ensures d in Subscribe(m, c, t, pods).handed && ConnAgrees(s', Subscribe(m, c, t, pods), d)
  {
    assert ConnAgrees(s, m, d);
    SubscribeKeepsKeys(m, c, t, pods);
    SubscribeHands(s, s'.peers, m, c, t, pods, d);
  }

  lemma SubscribeConns(s: State, s': State, m: Hub<Conn>, c: Conn, t: Topic, pods: Message)
    requires Agrees(s, m) && Consistent(m) && Plain(s.hub) && !Distributing(s.hub)
    requires c in m.handed
    requires s'.hub == Select && s'.peers.Keys == s.peers.Keys
    requires forall d <- s.peers :: s'.peers[d].aux == s.peers[d].aux
    requires forall d <- s.peers :: GotPods(s, s', c, t, pods, d)
    ensures var m' := Subscribe(m, c, t, pods);
      m'.handed.Keys == m.handed.Keys && forall d <- m'.handed :: ConnAgrees(s', m', d)
  {
    SubscribeKeepsKeys(m, c, t, pods);
    forall d | d in m.handed ensures ConnAgrees(s', Subscribe(m, c, t, pods), d) {
      SubscribeConnAgrees(s, s', m, c, t, pods, d);
    }
  }

  lemma SubscribeAgrees(s: State, s': State, m: Hub<Conn>, c: Conn, t: Topic, pods: Message)
    requires Agrees(s, m) && Consistent(m) && Plain(s.hub) && !Distributing(s.hub)
    requires c in m.handed
    requires s'.hub == Select && s'.conns == s.conns && s'.peers.Keys == s.peers.Keys
    requires forall d <- s.peers :: s'.peers[d].aux == s.peers[d].aux
    requires forall d <- s.peers :: GotPods(s, s', c, t, pods, d)
    requires forall u :: Subs(s'.subs, u) == Subs(s.subs, u) + if u == t then {c} else {}
    ensures Agrees(s', Subscribe(m, c, t, pods))
  {
    SubscribeKeepsKeys(m, c, t, pods);
    SubscribeConns(s, s', m, c, t, pods);
    AllSubscribersAgree(s, s', m, c, t, pods);
  }

  lemma ResumeSubscribeRefines(s: State, s': State, c: Conn, t: Topic, pods: Message)
    requires Refines(s) && Plain(s.hub) && !Distributing(s.hub) && c in s.peers && pods.Resources?
    requires s'.hub == Select && s'.conns == s.conns && s'.peers.Keys == s.peers.Keys
    requires forall d <- s.peers :: s'.peers[d].aux == s.peers[d].aux
    requires forall d <- s.peers :: GotPods(s, s', c, t, pods, d)
    requires forall u :: Subs(s'.subs, u) == Subs(s.subs, u) + if u == t then {c} else {}
    requires s'.history == s.history + [Subscribed(c, t, pods)]
    ensures Refines(s')
  {
    SubscribeAgrees(s, s', Replay(s.history), c, t, pods);
    Finish(s, s', Subscribed(c, t, pods));
  }

  lemma AskAgainRefines(s: State, s': State, c: Conn, t: Topic)
    requires Refines(s) && s.hub.Select? && c in s.peers && c in Subs(s.subs, t)
    requires s' == s.(subs := s.subs[t := Subs(s.subs, t)], history := s.history + [Subscribed(c, t, Resources(t, []))])
    ensures Refines(s')
  {
    SubsUpdate(s.subs, t, Subs(s.subs, t));
    ResumeSubscribeRefines(s, s', c, t, Resources(t, []));
  }

  lemma AskFirstRefines(s: State, s': State, c: Conn, t: Topic)
    requires Refines(s) && s.hub.Select?
    requires s' == s.(subs := s.subs[t := Subs(s.subs, t)], hub := PodListing(c, t))
    ensures Refines(s')
  {
    SubsUpdate(s.subs, t, Subs(s.subs, t));
    Stutter(s, s');
  }

  lemma TakeSubscribeRefines(s: State, c: Conn)
    requires Refines(s) && ServeEnabled(s, TakeSubscribe(c))
    ensures Refines(DoServe(s, TakeSubscribe(c)))
  {
    var t, p := s.peers[c].reader.topic, s.peers[c].(reader := Reading);
    PeerStutter(s, c, p);
    if c in Subs(s.subs, t) {
      AskAgainRefines(s.(peers := s.peers[c := p]), DoServe(s, TakeSubscribe(c)), c, t);
    } else {
      AskFirstRefines(s.(peers := s.peers[c := p]), DoServe(s, TakeSubscribe(c)), c, t);
    }
  }

  lemma PodListRefines(s: State, items: seq<Item>)
    requires Refines(s) && Safe(s) && ServeEnabled(s, PodListOk(items))
    ensures Refines(DoServe(s, PodListOk(items)))
  {
    var s', c, t := DoServe(s, PodListOk(items)), s.hub.conn, s.hub.topic;
    assert PeerOk(s, c);
    if IsLive(s, c) {
      Stutter(s, s');
    } else {
      SkippedPodListRefines(s, items);
    }
  }

  lemma SkippedPodListRefines(s: State, items: seq<Item>)
    requires Refines(s) && Safe(s) && ServeEnabled(s, PodListOk(items)) && !IsLive(s, s.hub.conn)
    ensures Refines(DoServe(s, PodListOk(items)))
  {
    var c, t := s.hub.conn, s.hub.topic;
    assert PeerOk(s, c);
    SubsUpdate(s.subs, t, Subs(s.subs, t) + {c});
    ResumeSubscribeRefines(s, DoServe(s, PodListOk(items)), c, t, Resources(t, items));
  }

  lemma ReceiveRefines(s: State, src: Source)
    requires Refines(s) && ServeEnabled(s, Receive(src))
    ensures Refines(DoServe(s, Receive(src)))
  {
    var m, s' := Replay(s.history), DoServe(s, Receive(src));
    forall t, c ensures SubscribersAgree(s', m, t, c) { assert SubscribersAgree(s, m, t, c); }
    forall c | c in m.handed ensures ConnAgrees(s', m, c) {
      assert ConnAgrees(s, m, c) && Extra(m, s.hub, c) == [];
      if c in m.conns && !s'.hub.event.topic.All? {
        assert SubscribersAgree(s, m, s'.hub.event.topic, c);
      }
      assert Extra(m, s'.hub, c) == [];
    }
  }

  lemma PassOverRefines(s: State, c: Conn)
    requires Refines(s) && Safe(s) && ServeEnabled(s, Next(c))
    requires if s.hub.event.topic.All? then s.peers[c].aux else c !in s.conns
    ensures Refines(DoServe(s, Next(c)))
  {
    var m, s', e := Replay(s.history), DoServe(s, Next(c)), s.hub.event;
    SubsUpdate(s.subs, e.topic, Subs(s.subs, e.topic) - {c});
    forall t, d ensures SubscribersAgree(s', m, t, d) { assert SubscribersAgree(s, m, t, d); }
    forall d | d in m.handed ensures ConnAgrees(s', m, d) {
      assert ConnAgrees(s, m, d);
      assert Served(m, s'.hub, d) <==> Served(m, s.hub, d);
    }
  }

  lemma NextRefines(s: State, c: Conn)
    requires Refines(s) && Safe(s) && ServeEnabled(s, Next(c))
    ensures Refines(DoServe(s, Next(c)))
  {
    var m, s' := Replay(s.history), DoServe(s, Next(c));
    var e, rest := s.hub.event, s.hub.rest - {c};
    assert PeerOk(s, c);
    if (e.topic.All? && s.peers[c].aux) || (!e.topic.All? && c !in s.conns) {
      PassOverRefines(s, c);
    } else {
      assert IsLive(s, c);
      assert Unserved(s'.hub) == rest + {c} == s.hub.rest;
      Stutter(s, s');
    }
  }

  lemma RoundHandsAgrees(s: State, s': State, m: Hub<Conn>)
    requires Agrees(s, m) && s.hub.Offering? && s.hub.next.ThenRound? && s.hub.conn in s.conns
    requires var c, e, rest := s.hub.conn, s.hub.next.event, s.hub.next.rest;
      && c in m.handed && c !in rest && s'.hub == Round(e, rest)
      && (if e.topic.All? then !s.peers[c].aux else c in Subs(s.subs, e.topic))
      && s'.peers.Keys == s.peers.Keys && s'.conns == s.conns && s'.subs == s.subs
      && (forall d <- s.peers :: s'.peers[d].aux == s.peers[d].aux)
      && (forall d <- s.peers :: Sent(s'.peers, d) == Sent(s.peers, d) + if d == c then [EventMessage(e)] else [])
    ensures Agrees(s', m)
  {
    var c, e := s.hub.conn, s.hub.next.event;
    assert SubscribersAgree(s, m, e.topic, c);
    forall t, d ensures SubscribersAgree(s', m, t, d) { assert SubscribersAgree(s, m, t, d); }
    forall d | d in m.handed ensures ConnAgrees(s', m, d) {
      assert ConnAgrees(s, m, d);
      if d == c {
        assert Served(m, s'.hub, c) && !Served(m, s.hub, c);
      } else {
        assert Served(m, s'.hub, d) <==> Served(m, s.hub, d);
      }
    }
  }

  lemma HandOverSendsTo(s: State, c: Conn, m: Message, d: Conn)
    requires c in s.peers && d in s.peers
    ensures Sent(HandOver(s, c, m).peers, d) == Sent(s.peers, d) + if d == c && m.Resources? then [m] else []
  {
    if d == c { ListsOfAppend(s.peers[c].handed, m); }
  }

  lemma HandOverSends(s: State, c: Conn, m: Message)
    requires c in s.peers
    ensures forall d <- s.peers :: HandOver(s, c, m).peers[d].aux == s.peers[d].aux
    ensures forall d <- s.peers ::
      Sent(HandOver(s, c, m).peers, d) == Sent(s.peers, d) + if d == c && m.Resources? then [m] else []
  {
    forall d | d in s.peers
      ensures Sent(HandOver(s, c, m).peers, d) == Sent(s.peers, d) + if d == c && m.Resources? then [m] else []
    {
      HandOverSendsTo(s, c, m, d);
    }
  }

  lemma RoundHandsRefines(s: State)
    requires Refines(s) && HubOk(s) && s.conns <= s.peers.Keys && ServeEnabled(s, HubHands) && s.hub.next.ThenRound?
    ensures Refines(DoServe(s, HubHands))
  {
    var c, m, e, rest := s.hub.conn, s.hub.message, s.hub.next.event, s.hub.next.rest;
    HandOverSends(s, c, m);
    var s' := HandOver(s, c, m).(hub := Round(e, rest));
    RoundHandsAgrees(s, s', Replay(s.history));
    assert Refines(s');
    assert s' == DoServe(s, HubHands);
  }

  lemma SubscribeHandsRefines(s: State, c: Conn, m: Message, t: Topic)
    requires Refines(s) && Plain(s.hub) && !Distributing(s.hub)
    requires c in s.peers && c in s.conns && c !in Subs(s.subs, t) && m.Resources?
    ensures Refines(Resume(HandOver(s, c, m), c, m, ThenSubscribe(t)))
  {
    HandOverSends(s, c, m);
    SubsUpdate(s.subs, t, Subs(s.subs, t) + {c});
    ResumeSubscribeRefines(s, Resume(HandOver(s, c, m), c, m, ThenSubscribe(t)), c, t, m);
  }

  lemma SelfReportRefines(s: State, c: Conn, m: Message)
    requires Refines(s) && Plain(s.hub) && !Distributing(s.hub) && c in s.peers && !m.Resources?
    ensures Refines(Resume(HandOver(s, c, m), c, m, ThenSelfReport))
  {
    ListsOfAppend(s.peers[c].handed, m);
    PeerStutter(s, c, HandOver(s, c, m).peers[c]);
    Stutter(HandOver(s, c, m), HandOver(s, c, m).(hub := SelfReporting(c)));
  }

  lemma HubHandsRefines(s: State)
    requires Refines(s) && HubOk(s) && s.conns <= s.peers.Keys && ServeEnabled(s, HubHands)
    ensures Refines(DoServe(s, HubHands))
  {
    match s.hub.next
    case ThenRound(_, _) => RoundHandsRefines(s);
    case ThenSubscribe(t) => SubscribeHandsRefines(s, s.hub.conn, s.hub.message, t);
    case ThenSelfReport => SelfReportRefines(s, s.hub.conn, s.hub.message);
  }

  lemma RoundDoneHands(s: State, m: Hub<Conn>, c: Conn)
    requires Agrees(s, m) && Consistent(m) && s.hub.Round? && s.hub.rest == {} && c in m.handed
    ensures Sent(s.peers, c) == Handle(m, Notified(s.hub.event)).handed[c]
  {
    assert c in m.conns ==> c !in m.gone;
    assert ConnAgrees(s, m, c);
  }

  lemma RoundDoneSubscribers(s: State, s': State, m: Hub<Conn>, t: Topic, c: Conn)
    requires Agrees(s, m) && s.hub.Round? && s.hub.rest == {} && s'.hub == Select && s'.subs == s.subs
    ensures SubscribersAgree(s', Handle(m, Notified(s.hub.event)), t, c)
  {
    var e := s.hub.event;
    assert SubscribersAgree(s, m, t, c);
    if !e.topic.All? && e.topic in m.subs { SubsUpdate(m.subs, e.topic, Subs(m.subs, e.topic) * m.conns); }
  }

  lemma RoundDoneAgrees(s: State, s': State, m: Hub<Conn>)
    requires Agrees(s, m) && Consistent(m) && s.hub.Round? && s.hub.rest == {}
    requires s'.hub == Select && s'.conns == s.conns && s'.subs == s.subs && s'.peers == s.peers
    ensures Agrees(s', Handle(m, Notified(s.hub.event)))
  {
    var m' := Handle(m, Notified(s.hub.event));
    assert m'.conns == m.conns && m'.aux == m.aux && m'.handed.Keys == m.handed.Keys;
    forall t, c ensures SubscribersAgree(s', m', t, c) { RoundDoneSubscribers(s, s', m, t, c); }
    forall c | c in m'.handed ensures ConnAgrees(s', m', c) {
      assert ConnAgrees(s, m, c);
      RoundDoneHands(s, m, c);
    }
  }

  lemma RoundDoneRefines(s: State)
    requires Refines(s) && ServeEnabled(s, RoundDone)
    ensures Refines(DoServe(s, RoundDone))
  {
    var m, e, s' := Replay(s.history), s.hub.event, DoServe(s, RoundDone);
    RoundDoneAgrees(s, s', m);
    Finish(s, s', Notified(e));
  }

  lemma PodListFailRefines(s: State)
    requires Refines(s) && ServeEnabled(s, PodListFail)
    ensures Refines(DoServe(s, PodListFail))
  {
    Stutter(s, DoServe(s, PodListFail));
  }

  lemma ServeRefines(s: State, step: ServeStep)
    requires Refines(s) && Safe(s) && ServeEnabled(s, step)
    ensures Refines(DoServe(s, step))
  {
    if s.hub.Offering? { assert PeerOk(s, s.hub.conn); }
    match step
    case TakeSubscribe(c) => TakeSubscribeRefines(s, c);
    case PodListOk(items) => PodListRefines(s, items);
    case PodListFail => PodListFailRefines(s);
    case HubHands => HubHandsRefines(s);
    case HubSkips =>
    case HubPanics =>
    case Receive(src) => ReceiveRefines(s, src);
    case Next(c) => NextRefines(s, c);
    case RoundDone => RoundDoneRefines(s);
  }

  // ------------------------------------------------------------------ unregistration

  lemma DropSubscribers(s: State, s': State, m: Hub<Conn>, c: Conn, t: Topic, d: Conn)
    requires SubscribersAgree(s, m, t, d) && !Distributing(s.hub) && s'.hub == Select && s'.subs == s.subs
    ensures SubscribersAgree(s', Handle(m, Dropped(c)), t, d)
  {
  }

  lemma DropConnAgrees(s: State, s': State, m: Hub<Conn>, c: Conn, d: Conn)
    requires d in m.handed && ConnAgrees(s, m, d) && !Distributing(s.hub) && s'.hub == Select && d in s'.peers
    requires s'.peers[d].aux == s.peers[d].aux && Sent(s'.peers, d) == Sent(s.peers, d)
    ensures d in Handle(m, Dropped(c)).handed && ConnAgrees(s', Handle(m, Dropped(c)), d)
  {
  }

  lemma DropKeepsRest(m: Hub<Conn>, c: Conn)
    ensures var m' := Handle(m, Dropped(c)); m'.conns == m.conns - {c} && m'.handed == m.handed
  {
  }

  lemma DropConns(s: State, s': State, m: Hub<Conn>, c: Conn)
    requires Agrees(s, m) && !Distributing(s.hub) && s'.hub == Select && s'.peers.Keys == s.peers.Keys
    requires forall d <- s.peers :: s'.peers[d].aux == s.peers[d].aux && Sent(s'.peers, d) == Sent(s.peers, d)
    ensures forall d <- m.handed :: d in Handle(m, Dropped(c)).handed && ConnAgrees(s', Handle(m, Dropped(c)), d)
  {
    forall d | d in m.handed
      ensures d in Handle(m, Dropped(c)).handed && ConnAgrees(s', Handle(m, Dropped(c)), d)
    {
      assert ConnAgrees(s, m, d);
      DropConnAgrees(s, s', m, c, d);
    }
  }

  lemma DropAgrees(s: State, s': State, m: Hub<Conn>, c: Conn)
    requires Agrees(s, m) && Consistent(m)
    requires (s.hub.Select? && c !in s.conns) || s.hub == Deleted(c)
    requires s'.hub == Select && s'.conns == s.conns - {c} && s'.subs == s.subs && s'.peers.Keys == s.peers.Keys
    requires forall d <- s.peers :: s'.peers[d].aux == s.peers[d].aux && Sent(s'.peers, d) == Sent(s.peers, d)
    ensures Agrees(s', Handle(m, Dropped(c)))
  {
    DropKeepsRest(m, c);
    DropConns(s, s', m, c);
    forall t, d ensures SubscribersAgree(s', Handle(m, Dropped(c)), t, d) {
      assert SubscribersAgree(s, m, t, d);
      DropSubscribers(s, s', m, c, t, d);
    }
  }

  lemma StartUnregisterRefines(s: State, c: Conn)
    requires Refines(s) && s.hub.Select? && c in s.peers
    ensures Refines(StartUnregister(s, c))
  {
    var s' := StartUnregister(s, c);
    if c !in s.conns {
      DropAgrees(s, s', Replay(s.history), c);
      Finish(s, s', Dropped(c));
    } else {
      CancelRefines(s, c, s'.tasks);
    }
  }

  lemma CancelRefines(s: State, c: Conn, tasks: map<nat, Task>)
    requires Refines(s) && s.hub.Select? && c in s.peers
    ensures Refines(s.(hub := Cancelled(c), peers := s.peers[c := s.peers[c].(live := false)], tasks := tasks))
  {
    PeerStutter(s, c, s.peers[c].(live := false));
    var s1 := s.(peers := s.peers[c := s.peers[c].(live := false)]);
    Stutter(s1, s1.(hub := Cancelled(c), tasks := tasks));
  }

  lemma DeleteRefines(s: State)
    requires Refines(s) && Safe(s) && UnregisterEnabled(s, Delete)
    ensures Refines(DoUnregister(s, Delete))
  {
    var m, s' := Replay(s.history), DoUnregister(s, Delete);
    forall t, c ensures SubscribersAgree(s', m, t, c) { assert SubscribersAgree(s, m, t, c); }
    forall c | c in m.handed ensures ConnAgrees(s', m, c) {
      assert ConnAgrees(s, m, c) && Extra(m, s.hub, c) == [];
    }
  }

  lemma UnregisterRefines(s: State, step: UnregisterStep)
    requires Refines(s) && Safe(s) && UnregisterEnabled(s, step)
    ensures Refines(DoUnregister(s, step))
  {
    match step
    case ReaderReports(c) =>
      PeerStutter(s, c, s.peers[c].(reader := Left));
      StartUnregisterRefines(s.(peers := s.peers[c := s.peers[c].(reader := Left)]), c);
    case WriterReports(c) =>
      PeerStutter(s, c, s.peers[c].(writer := Ready));
      StartUnregisterRefines(s.(peers := s.peers[c := s.peers[c].(writer := Ready)]), c);
    case TaskReports(id) =>
      var s1 := s.(tasks := s.tasks[id := s.tasks[id].(phase := Over)]);
      Stutter(s, s1);
      StartUnregisterRefines(s1, s.tasks[id].conn);
    case Delete => DeleteRefines(s);
    case CloseChannel => CloseRefines(s);
  }

  lemma CloseRefines(s: State)
    requires Refines(s) && Safe(s) && UnregisterEnabled(s, CloseChannel)
    ensures Refines(DoUnregister(s, CloseChannel))
  {
    var s' := DoUnregister(s, CloseChannel);
    DropAgrees(s, s', Replay(s.history), s.hub.conn);
    Finish(s, s', Dropped(s.hub.conn));
  }

  // ------------------------------------------------------------------ whole runs

  lemma StepRefines(s: State, step: Step)
    requires Refines(s) && Safe(s) && ListsOk(s) && Enabled(s, step)
    ensures Refines(Do(s, step))
  {
    match step
    case Outer(o) => OuterRefines(s, o);
    case Registration(r) => RegisterRefines(s, r);
    case Service(v) => ServeRefines(s, v);
    case Unregistration(u) => UnregisterRefines(s, u);
    case Request(t) => TaskRefines(s, t);
  }

  lemma {:induction false} RunRefines(archive: seq<Item>, steps: seq<Step>)
    requires Legal(Init(archive), steps)
    ensures Refines(Exec(Init(archive), steps)) && ListsOk(Exec(Init(archive), steps))
    decreases |steps|
  {
    if steps != [] {
      var s := Exec(Init(archive), steps[..|steps| - 1]);
      RunRefines(archive, steps[..|steps| - 1]);
      RunIsSafe(archive, steps[..|steps| - 1]);
      StepRefines(s, steps[|steps| - 1]);
      StepKeepsLists(s, steps[|steps| - 1]);
    }
  }

  /**
   Whenever the hub is at its select, however the goroutines were interleaved: its connections and subscription
   sets, and the list messages each writer was handed, are those of the sequential hub on the finished requests;
   and every registration handed over one list of each kind (none on an aux connection).
   */
  lemma ProtocolRefinesHub(s: State)
    requires Reachable(s) && s.hub.Select?
    ensures Orderly(s.history) && (forall r <- s.history :: JoinOk(r))
    ensures s.conns == Replay(s.history).conns
    ensures forall t, c :: c in Subs(s.subs, t) <==> c in Subs(Replay(s.history).subs, t)
    ensures forall c <- s.peers :: ListsOf(s.peers[c].handed) == HandedTo(Replay(s.history), c)
  {
    var archive, steps :| Legal(Init(archive), steps) && s == Exec(Init(archive), steps);
    RunRefines(archive, steps);
    var m := Replay(s.history);
    forall t, c ensures c in Subs(s.subs, t) <==> c in Subs(m.subs, t) { assert SubscribersAgree(s, m, t, c); }
    forall c | c in s.peers ensures ListsOf(s.peers[c].handed) == HandedTo(m, c) {
      assert c in m.handed && ConnAgrees(s, m, c);
    }
  }

  /**
   In every run each connection was handed exactly what its own life says, in hub order and each message once,
   and exactly what a hub with eagerly cleaned subscriptions would have handed it.
   */
  lemma EveryRunHandsEachConnectionItsLife(s: State, c: Conn)
    requires Reachable(s) && s.hub.Select? && c in s.peers
    ensures var l := LifeOf(c, s.history);
      && !l.Unborn? && ListsOf(ByHub(s.peers[c].received)) == l.got
      && (l.Live? <==> c in s.conns)
      && (l.Live? ==> l.aux == s.peers[c].aux && forall t :: t in l.topics <==> c in Subs(s.subs, t))
    ensures ListsOf(ByHub(s.peers[c].received)) == HandedTo(ReplayEagerly(s.history), c)
  {
    ProtocolRefinesHub(s);
    HandedIsReceivedFromHub(s, c);
    EachConnectionGetsItsOwnLife(s.history, c);
    LazyHandsWhatEagerHands(s.history);
    var archive, steps :| Legal(Init(archive), steps) && s == Exec(Init(archive), steps);
    RunRefines(archive, steps);
  }
}

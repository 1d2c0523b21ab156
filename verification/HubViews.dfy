/**
 Snapshot-then-stream loses nothing: whatever a registered connection was handed, merged by key and followed
 by the events still on their way to the hub, is the informer's store.
 */
module HubViews {
  import opened Options
  import opened Messages
  import opened HubModel
  import opened HubProtocol
  import opened HubSafety

  /** Events about `t` that the hub has not received yet. */
  function Pending(s: State, t: Topic): seq<Item> { ItemsFor(Queue(s, SourceOf(t)), t) }

  /** The event the hub has received and `c` is still to be handed. */
  function InFlight(hub: HubPoint, c: Conn, t: Topic): seq<Item> {
    match hub
    case Round(e, rest) => if e.topic == t && c in rest then [e.item] else []
    case Offering(d, _, ThenRound(e, rest)) => if e.topic == t && (c == d || c in rest) then [e.item] else []
    case _ => []
  }

  predicate Follows(s: State, c: Conn, t: Topic) {
    && c in s.peers && c in s.conns
    && if t.All? then !s.peers[c].aux else c in Subs(s.subs, t)
  }

  /**
   Merging `shown` and then the pending events gives the store, where events told of it; archived workflows may show on
   top of it.
   */
  ghost predicate Shows(s: State, shown: seq<Item>, t: Topic) {
    forall key :: Told(s, t, key) && (At(StoreOf(s, t), key).Some? || !Touches(Archived(s, t), key)) ==>
      Settle(None, shown + Pending(s, t), key) == At(StoreOf(s, t), key)
  }

  /** A key that some pending event mentions ends up, by these events alone, as it is in the store. */
  ghost predicate PendingDecides(s: State, t: Topic) {
    forall key :: Told(s, t, key) && Touches(Pending(s, t), key) ==>
      Settle(None, Pending(s, t), key) == At(StoreOf(s, t), key)
  }

  function HandedItems(peers: map<Conn, Peer>, c: Conn, t: Topic): seq<Item> {
    if c in peers then ItemsOf(peers[c].handed, t) else []
  }

  ghost predicate SenderViewOk(s: State, c: Conn, k: Kind, x: Sender) {
    match x
    case Listing => HandedItems(s.peers, c, All(k)) == []
    case Sending(m, failed) =>
      && HandedItems(s.peers, c, All(k)) == []
      && if failed then !m.Resources? else m.Resources? && m.topic == All(k) && Shows(s, m.items, All(k))
    case Resigning => true
    case Returned => Shows(s, HandedItems(s.peers, c, All(k)), All(k))
  }

  ghost predicate ViewsOk(s: State) {
    && (forall src, i | 0 <= i < |Queue(s, src)| :: SourceOf(Queue(s, src)[i].topic) == src)
    && (forall t :: PendingDecides(s, t))
    && (forall c, t | Follows(s, c, t) :: Shows(s, HandedItems(s.peers, c, t) + InFlight(s.hub, c, t), t))
    && (forall c, t: Topic | t.PodsOf? && IsLive(s, c) && c !in Subs(s.subs, t) :: HandedItems(s.peers, c, t) == [])
    && (s.hub.Registering? ==> forall k <- s.hub.senders :: SenderViewOk(s, s.hub.conn, k, s.hub.senders[k]))
    && (s.hub.Offering? && s.hub.next.ThenSubscribe? ==>
          s.hub.message.Resources? && Shows(s, s.hub.message.items, s.hub.next.topic))
  }

  // ------------------------------------------------------------------ steps that show nothing new

  ghost predicate SameWorld(s: State, s': State) {
    s'.stores == s.stores && s'.missed == s.missed && s'.queues == s.queues && s'.archive == s.archive
  }

  lemma SameWorldShows(s: State, s': State)
    requires SameWorld(s, s')
    ensures forall items, t :: Shows(s, items, t) ==> Shows(s', items, t)
    ensures forall t :: PendingDecides(s, t) ==> PendingDecides(s', t)
    ensures forall src :: Queue(s', src) == Queue(s, src)
  {
    forall items, t | Shows(s, items, t) ensures Shows(s', items, t) {
      assert Pending(s', t) == Pending(s, t) && StoreOf(s', t) == StoreOf(s, t);
    }
    forall t | PendingDecides(s, t) ensures PendingDecides(s', t) {
      assert Pending(s', t) == Pending(s, t) && StoreOf(s', t) == StoreOf(s, t);
    }
  }

  /** No item was handed over, nobody new follows anything, and the hub owes the same events. */
  lemma Quiet(s: State, s': State)
    requires ViewsOk(s) && SameWorld(s, s')
    requires forall c, t :: HandedItems(s'.peers, c, t) == HandedItems(s.peers, c, t)
    requires forall c, t | Follows(s', c, t) :: Follows(s, c, t) && InFlight(s'.hub, c, t) == InFlight(s.hub, c, t)
    requires forall c, t | IsLive(s', c) && c !in Subs(s'.subs, t) ::
      HandedItems(s.peers, c, t) == [] || (IsLive(s, c) && c !in Subs(s.subs, t))
    requires s'.hub == s.hub || (!s'.hub.Registering? && !(s'.hub.Offering? && s'.hub.next.ThenSubscribe?))
    ensures ViewsOk(s')
  {
    SameWorldShows(s, s');
    forall c, t | Follows(s', c, t)
      ensures Shows(s', HandedItems(s'.peers, c, t) + InFlight(s'.hub, c, t), t)
    {
      assert Shows(s, HandedItems(s.peers, c, t) + InFlight(s.hub, c, t), t);
    }
    if s'.hub.Registering? {
      forall k | k in s'.hub.senders ensures SenderViewOk(s', s'.hub.conn, k, s'.hub.senders[k]) {
        assert SenderViewOk(s, s.hub.conn, k, s.hub.senders[k]);
      }
    }
  }

  lemma NoItems(handed: seq<Message>, m: Message)
    requires !m.Resources?
    ensures forall t :: ItemsOf(handed + [m], t) == ItemsOf(handed, t)
  {
    forall t ensures ItemsOf(handed + [m], t) == ItemsOf(handed, t) { ItemsOfAppend(handed, m, t); }
  }

  // ------------------------------------------------------------------ the world changes

  lemma SettleGrown(before: seq<Item>, pending: seq<Item>, item: Item, key: string)
    ensures Settle(None, before + (pending + [item]), key)
         == if key == item.key then if item.deleted then None else Some(item.body)
            else Settle(None, before + pending, key)
  {
    var all := before + (pending + [item]);
    assert all[|all| - 1] == item && all[..|all| - 1] == before + pending;
  }

  lemma ChangedPending(s: State, t: Topic, item: Item, u: Topic)
    requires OuterEnabled(s, Change(t, item))
    ensures Pending(DoOuter(s, Change(t, item)), u) == Pending(s, u) + if u == t then [item] else []
    ensures forall key ::
      Told(DoOuter(s, Change(t, item)), u, key) <==> Told(s, u, key) || (u == t && key == item.key)
    ensures forall key ::
      At(StoreOf(DoOuter(s, Change(t, item)), u), key) ==
      if u == t && key == item.key then if item.deleted then None else Some(item.body)
      else At(StoreOf(s, u), key)
  {
    ItemsForAppend(Queue(s, SourceOf(t)), Event(t, item), u);
  }

  lemma ChangeShows(s: State, t: Topic, item: Item, shown: seq<Item>, u: Topic)
    requires OuterEnabled(s, Change(t, item)) && Shows(s, shown, u)
    ensures Shows(DoOuter(s, Change(t, item)), shown, u)
  {
    var s' := DoOuter(s, Change(t, item));
    ChangedPending(s, t, item, u);
    forall key | Told(s', u, key) && (At(StoreOf(s', u), key).Some? || !Touches(Archived(s', u), key))
      ensures Settle(None, shown + Pending(s', u), key) == At(StoreOf(s', u), key)
    {
      if u == t {
        SettleGrown(shown, Pending(s, t), item, key);
      } else {
        assert Pending(s, u) + [] == Pending(s, u);
      }
    }
  }

  lemma TouchesGrown(pending: seq<Item>, item: Item, key: string)
    requires Touches(pending + [item], key) && key != item.key
    ensures Touches(pending, key)
  {
    var i :| 0 <= i < |pending + [item]| && (pending + [item])[i].key == key;
    assert pending[i].key == key;
  }

  lemma ChangeDecides(s: State, t: Topic, item: Item, u: Topic)
    requires OuterEnabled(s, Change(t, item)) && PendingDecides(s, u)
    ensures PendingDecides(DoOuter(s, Change(t, item)), u)
  {
    var p, p' := Pending(s, u), Pending(DoOuter(s, Change(t, item)), u);
    var store, store' := StoreOf(s, u), StoreOf(DoOuter(s, Change(t, item)), u);
    ChangedPending(s, t, item, u);
    forall key | Told(DoOuter(s, Change(t, item)), u, key) && Touches(p', key)
      ensures Settle(None, p', key) == At(store', key)
    {
      if u != t {
        assert p' == p;
      } else {
        assert p' == [] + (p + [item]) && [] + p == p;
        SettleGrown([], p, item, key);
        if key != item.key { TouchesGrown(p, item, key); }
      }
    }
  }

  lemma ChangeKeepsViews(s: State, t: Topic, item: Item)
    requires ViewsOk(s) && OuterEnabled(s, Change(t, item))
    ensures ViewsOk(DoOuter(s, Change(t, item)))
  {
    var s' := DoOuter(s, Change(t, item));
    forall shown, u | Shows(s, shown, u) ensures Shows(s', shown, u) { ChangeShows(s, t, item, shown, u); }
    forall u ensures PendingDecides(s', u) { ChangeDecides(s, t, item, u); }
    forall src, i | 0 <= i < |Queue(s', src)| ensures SourceOf(Queue(s', src)[i].topic) == src {
      if i < |Queue(s, src)| { assert Queue(s', src)[i] == Queue(s, src)[i]; }
    }
    forall c, u | Follows(s', c, u) ensures Shows(s', HandedItems(s'.peers, c, u) + InFlight(s'.hub, c, u), u) {
      assert Follows(s, c, u);
    }
    assert forall c, u: Topic :: HandedItems(s'.peers, c, u) == HandedItems(s.peers, c, u);
    if s'.hub.Registering? {
      forall k | k in s'.hub.senders ensures SenderViewOk(s', s'.hub.conn, k, s'.hub.senders[k]) {
        assert SenderViewOk(s, s.hub.conn, k, s.hub.senders[k]);
      }
    }
  }

  /** A change that no event tells of leaves every other key as it was. */
  lemma MissedShows(s: State, t: Topic, item: Item, shown: seq<Item>, u: Topic)
    requires OuterEnabled(s, Missed(t, item))
    ensures Shows(s, shown, u) ==> Shows(DoOuter(s, Missed(t, item)), shown, u)
    ensures PendingDecides(s, u) ==> PendingDecides(DoOuter(s, Missed(t, item)), u)
  {
    var s' := DoOuter(s, Missed(t, item));
    assert Pending(s', u) == Pending(s, u) && s'.archive == s.archive;
    forall key ensures Told(s', u, key) ==> Told(s, u, key) && At(StoreOf(s', u), key) == At(StoreOf(s, u), key) {}
  }

  lemma MissedKeepsViews(s: State, t: Topic, item: Item)
    requires ViewsOk(s) && OuterEnabled(s, Missed(t, item))
    ensures ViewsOk(DoOuter(s, Missed(t, item)))
  {
    var s' := DoOuter(s, Missed(t, item));
    assert forall q :: Queue(s', q) == Queue(s, q);
    forall shown, u | Shows(s, shown, u) ensures Shows(s', shown, u) { MissedShows(s, t, item, shown, u); }
    forall u ensures PendingDecides(s', u) { MissedShows(s, t, item, [], u); }
    forall c, u | Follows(s', c, u) ensures Shows(s', HandedItems(s'.peers, c, u) + InFlight(s'.hub, c, u), u) {
      assert Follows(s, c, u);
    }
    if s'.hub.Registering? {
      forall k | k in s'.hub.senders ensures SenderViewOk(s', s'.hub.conn, k, s'.hub.senders[k]) {
        assert SenderViewOk(s, s.hub.conn, k, s.hub.senders[k]);
      }
    }
  }

  /** A List answer, put behind the archive, already contains what the pending events will tell again. */
  lemma SnapshotShows(s: State, t: Topic, items: seq<Item>)
    requires PendingDecides(s, t) && IsListing(items, StoreOf(s, t))
    ensures Shows(s, Archived(s, t) + items, t)
  {
    var shown, store, p := Archived(s, t) + items, StoreOf(s, t), Pending(s, t);
    forall key | Told(s, t, key) && (At(store, key).Some? || !Touches(Archived(s, t), key))
      ensures Settle(None, shown + p, key) == At(store, key)
    {
      SettleConcat(None, shown, p, key);
      SettleTouched(Settle(None, shown, key), None, p, key);
      SettleConcat(None, Archived(s, t), items, key);
      SettleTouched(Settle(None, Archived(s, t), key), None, items, key);
      SettleTouched(None, None, Archived(s, t), key);
      SettleTouched(None, None, items, key);
    }
  }

  lemma PeerKeepsViews(s: State, c: Conn, p: Peer)
    requires ViewsOk(s) && c in s.peers
    requires p.handed == s.peers[c].handed && p.aux == s.peers[c].aux && (p.live ==> s.peers[c].live)
    ensures ViewsOk(s.(peers := s.peers[c := p]))
  {
    Quiet(s, s.(peers := s.peers[c := p]));
  }

  lemma OuterKeepsViews(s: State, step: OuterStep)
    requires ViewsOk(s) && OuterEnabled(s, step)
    ensures ViewsOk(DoOuter(s, step))
  {
    match step
    case Change(t, item) => ChangeKeepsViews(s, t, item);
    case Missed(t, item) => MissedKeepsViews(s, t, item);
    case Ask(c, t) => PeerKeepsViews(s, c, s.peers[c].(reader := Asking(t)));
    case Spawn(c, id, m, closes) => Quiet(s, DoOuter(s, step));
    case Hangup(c) => PeerKeepsViews(s, c, s.peers[c].(reader := Leaving));
    case WriteOk(c) => PeerKeepsViews(s, c, s.peers[c].(writer := Ready));
    case WriteFail(c) => PeerKeepsViews(s, c, s.peers[c].(writer := Complaining));
    case WriterExits(c) => PeerKeepsViews(s, c, s.peers[c].(writer := Finished));
  }

  // ------------------------------------------------------------------ registration

  lemma JoiningKeepsViews(s: State, c: Conn, aux: bool)
    requires Safe(s) && ViewsOk(s) && RegisterEnabled(s, Register(c, aux))
    ensures ViewsOk(DoRegister(s, Register(c, aux)))
  {
    var s' := DoRegister(s, Register(c, aux));
    SameWorldShows(s, s');
    forall d, t ensures HandedItems(s'.peers, d, t) == HandedItems(s.peers, d, t) {}
    forall d, t | Follows(s', d, t) ensures Follows(s, d, t) {
      assert d == c ==> c !in s.peers && c !in Subs(s.subs, t);
    }
    forall d, t | Follows(s', d, t) ensures Shows(s', HandedItems(s'.peers, d, t) + InFlight(s'.hub, d, t), t) {
      assert Shows(s, HandedItems(s.peers, d, t) + InFlight(s.hub, d, t), t);
      assert InFlight(s'.hub, d, t) == [] == InFlight(s.hub, d, t);
    }
  }

  lemma NowSendingKeepsViews(s: State, k: Kind, m: Message, failed: bool)
    requires ViewsOk(s) && s.hub.Registering? && k in s.hub.senders && s.hub.senders[k].Listing?
    requires if failed then !m.Resources? else m.Resources? && m.topic == All(k) && Shows(s, m.items, All(k))
    ensures ViewsOk(SetSender(s, k, Sending(m, failed)))
  {
    var s', c := SetSender(s, k, Sending(m, failed)), s.hub.conn;
    SameWorldShows(s, s');
    forall j | j in s'.hub.senders ensures SenderViewOk(s', c, j, s'.hub.senders[j]) {
      assert SenderViewOk(s, c, j, s.hub.senders[j]);
    }
    forall d, t | Follows(s', d, t) ensures Shows(s', HandedItems(s'.peers, d, t) + InFlight(s'.hub, d, t), t) {
      assert Shows(s, HandedItems(s.peers, d, t) + InFlight(s.hub, d, t), t);
    }
  }

  lemma HandOverItems(s: State, c: Conn, m: Message, d: Conn, t: Topic)
    requires c in s.peers
    ensures var had := HandedItems(s.peers, d, t);
      HandedItems(HandOver(s, c, m).peers, d, t) ==
        if d == c && m.Resources? && m.topic == t then had + m.items else had
  {
    ItemsOfAppend(s.peers[c].handed, m, t);
  }

  // Only what the sender was sending is new.
  lemma SenderHandsItems(s: State, k: Kind, d: Conn, t: Topic)
    requires RegisterEnabled(s, SenderHands(k))
    ensures var s', m := DoRegister(s, SenderHands(k)), s.hub.senders[k].message;
      var had := HandedItems(s.peers, d, t);
      HandedItems(s'.peers, d, t) == if d == s.hub.conn && m.Resources? && m.topic == t then had + m.items else had
  {
    HandOverItems(s, s.hub.conn, s.hub.senders[k].message, d, t);
  }

  lemma SenderHandsKeepsSender(s: State, k: Kind, j: Kind)
    requires ViewsOk(s) && RegisterEnabled(s, SenderHands(k)) && j in s.hub.senders
    ensures var s' := DoRegister(s, SenderHands(k)); SenderViewOk(s', s.hub.conn, j, s'.hub.senders[j])
  {
    var s', c := DoRegister(s, SenderHands(k)), s.hub.conn;
    assert SenderViewOk(s, c, j, s.hub.senders[j]) && SenderViewOk(s, c, k, s.hub.senders[k]);
    SenderHandsItems(s, k, c, All(j));
    SameWorldShows(s, s');
    if j == k && !s.hub.senders[k].failed {
      assert [] + s.hub.senders[k].message.items == s.hub.senders[k].message.items;
    }
  }

  lemma SenderHandsKeepsViews(s: State, k: Kind)
    requires Safe(s) && ViewsOk(s) && RegisterEnabled(s, SenderHands(k))
    ensures ViewsOk(DoRegister(s, SenderHands(k)))
  {
    var s', c := DoRegister(s, SenderHands(k)), s.hub.conn;
    assert SenderViewOk(s, c, k, s.hub.senders[k]);
    SameWorldShows(s, s');
    forall d, t { SenderHandsItems(s, k, d, t); }
    forall j | j in s'.hub.senders ensures SenderViewOk(s', c, j, s'.hub.senders[j]) {
      SenderHandsKeepsSender(s, k, j);
    }
    forall d, t | Follows(s', d, t) ensures Shows(s', HandedItems(s'.peers, d, t) + InFlight(s'.hub, d, t), t) {
      assert Follows(s, d, t) && d != c && InFlight(s'.hub, d, t) == InFlight(s.hub, d, t);
    }
  }

  lemma EveryKindHasASender(k: Kind)
    ensures k in StartSenders()
  {
    match k
    case FlowKind =>
    case ApplicationKind =>
    case RolloutKind =>
    case WorkflowKind =>
  }

  lemma RegisteredKeepsViews(s: State)
    requires Safe(s) && ViewsOk(s) && RegisterEnabled(s, RegisterDone)
    ensures ViewsOk(DoRegister(s, RegisterDone))
  {
    var s', c := DoRegister(s, RegisterDone), s.hub.conn;
    SameWorldShows(s, s');
    forall d, t ensures HandedItems(s'.peers, d, t) == HandedItems(s.peers, d, t) {}
    forall d, t | Follows(s', d, t) ensures Shows(s', HandedItems(s'.peers, d, t) + InFlight(s'.hub, d, t), t) {
      assert InFlight(s'.hub, d, t) == [];
      assert HandedItems(s.peers, d, t) + [] == HandedItems(s.peers, d, t);
      if d != c {
        assert Follows(s, d, t);
      } else if t.All? {
        EveryKindHasASender(t.kind);
        assert SenderViewOk(s, c, t.kind, s.hub.senders[t.kind]);
      }
    }
  }

  lemma RegisterKeepsViews(s: State, step: RegisterStep)
    requires Safe(s) && ViewsOk(s) && RegisterEnabled(s, step)
    ensures ViewsOk(DoRegister(s, step))
  {
    if s.hub.Registering? { assert PeerOk(s, s.hub.conn); }
    match step
    case Register(c, aux) => JoiningKeepsViews(s, c, aux);
    case RegisterDone => RegisteredKeepsViews(s);
    case SenderSkips(k) =>
    case SenderPanics(k) =>
    case ListOk(k, items) =>
      SnapshotShows(s, All(k), items);
      NowSendingKeepsViews(s, k, Resources(All(k), Archived(s, All(k)) + items), false);
    case ListFail(k) => NowSendingKeepsViews(s, k, WebError("List"), true);
    case SenderHands(k) => SenderHandsKeepsViews(s, k);
  }

  // ------------------------------------------------------------------ service

  lemma ReceivedPending(s: State, src: Source, t: Topic)
    requires ViewsOk(s) && ServeEnabled(s, Receive(src))
    ensures var e, s' := Queue(s, src)[0], DoServe(s, Receive(src));
      Pending(s, t) == (if e.topic == t then [e.item] else []) + Pending(s', t)
  {
    var e, s' := Queue(s, src)[0], DoServe(s, Receive(src));
    assert SourceOf(e.topic) == src;
    if SourceOf(t) != src {
      assert [] + Pending(s', t) == Pending(s', t);
    }
  }

  lemma RestDecides(first: seq<Item>, rest: seq<Item>, key: string)
    requires Touches(rest, key)
    ensures Touches(first + rest, key) && Settle(None, first + rest, key) == Settle(None, rest, key)
  {
    var i :| 0 <= i < |rest| && rest[i].key == key;
    assert (first + rest)[|first| + i].key == key;
    SettleConcat(None, first, rest, key);
    SettleTouched(Settle(None, first, key), None, rest, key);
  }

  lemma ReceiveDecides(s: State, src: Source, t: Topic)
    requires ViewsOk(s) && ServeEnabled(s, Receive(src))
    ensures PendingDecides(DoServe(s, Receive(src)), t)
  {
    var e, s' := Queue(s, src)[0], DoServe(s, Receive(src));
    ReceivedPending(s, src, t);
    assert PendingDecides(s, t) && StoreOf(s', t) == StoreOf(s, t);
    var first := if e.topic == t then [e.item] else [];
    forall key | Told(s', t, key) && Touches(Pending(s', t), key)
      ensures Settle(None, Pending(s', t), key) == At(StoreOf(s', t), key)
    {
      RestDecides(first, Pending(s', t), key);
    }
  }

  lemma MovedOver(s: State, s': State, shown: seq<Item>, first: seq<Item>, t: Topic)
    requires StoreOf(s', t) == StoreOf(s, t) && s'.missed == s.missed && s'.archive == s.archive
    requires Pending(s, t) == first + Pending(s', t) && Shows(s, shown, t)
    ensures Shows(s', shown + first, t)
  {
    assert shown + (first + Pending(s', t)) == shown + first + Pending(s', t);
  }

  lemma ReceiveShows(s: State, src: Source, shown: seq<Item>, t: Topic)
    requires ViewsOk(s) && ServeEnabled(s, Receive(src)) && Shows(s, shown, t)
    ensures var e := Queue(s, src)[0];
      Shows(DoServe(s, Receive(src)), shown + if e.topic == t then [e.item] else [], t)
  {
    ReceivedPending(s, src, t);
    var e := Queue(s, src)[0];
    MovedOver(s, DoServe(s, Receive(src)), shown, if e.topic == t then [e.item] else [], t);
  }

  lemma ReceiveKeepsViews(s: State, src: Source)
    requires Safe(s) && ViewsOk(s) && ServeEnabled(s, Receive(src))
    ensures ViewsOk(DoServe(s, Receive(src)))
  {
    var e, s' := Queue(s, src)[0], DoServe(s, Receive(src));
    forall t ensures PendingDecides(s', t) { ReceiveDecides(s, src, t); }
    forall c, t | Follows(s', c, t) ensures Shows(s', HandedItems(s'.peers, c, t) + InFlight(s'.hub, c, t), t) {
      assert Follows(s, c, t);
      assert HandedItems(s.peers, c, t) + InFlight(s.hub, c, t) == HandedItems(s.peers, c, t);
      ReceiveShows(s, src, HandedItems(s.peers, c, t), t);
      assert InFlight(s'.hub, c, t) == if e.topic == t then [e.item] else [];
    }
    forall q, i | 0 <= i < |Queue(s', q)| ensures SourceOf(Queue(s', q)[i].topic) == q {
      assert Queue(s', q)[i] == if q == src then Queue(s, q)[i + 1] else Queue(s, q)[i];
    }
    assert s'.peers == s.peers && s'.subs == s.subs;
  }

  lemma RoundHandsKeepsViews(s: State)
    requires Safe(s) && ViewsOk(s) && ServeEnabled(s, HubHands) && s.hub.next.ThenRound?
    ensures ViewsOk(DoServe(s, HubHands))
  {
    var s' := DoServe(s, HubHands);
    SameWorldShows(s, s');
    forall d, t | Follows(s', d, t) ensures Shows(s', HandedItems(s'.peers, d, t) + InFlight(s'.hub, d, t), t) {
      RoundHandsItems(s, d, t);
      assert Shows(s, HandedItems(s.peers, d, t) + InFlight(s.hub, d, t), t);
    }
    forall d, t: Topic | t.PodsOf? && IsLive(s', d) && d !in Subs(s'.subs, t)
      ensures HandedItems(s'.peers, d, t) == []
    {
      RoundHandsItems(s, d, t);
    }
  }

  // What was in flight has arrived, and only with those it was in flight to.
  lemma RoundHandsItems(s: State, d: Conn, t: Topic)
    requires HubOk(s) && ServeEnabled(s, HubHands) && s.hub.next.ThenRound?
    ensures var s' := DoServe(s, HubHands);
      && (Follows(s', d, t) ==> Follows(s, d, t))
      && (IsLive(s', d) <==> IsLive(s, d)) && s'.subs == s.subs
      && HandedItems(s'.peers, d, t) + InFlight(s'.hub, d, t) == HandedItems(s.peers, d, t) + InFlight(s.hub, d, t)
      && (t.PodsOf? && d !in Subs(s.subs, t) ==> HandedItems(s'.peers, d, t) == HandedItems(s.peers, d, t))
  {
    HandOverItems(s, s.hub.conn, s.hub.message, d, t);
  }

  lemma SubscribeHandsKeepsViews(s: State)
    requires Safe(s) && ViewsOk(s) && ServeEnabled(s, HubHands) && s.hub.next.ThenSubscribe?
    ensures ViewsOk(DoServe(s, HubHands))
  {
    var s', c, m, u := DoServe(s, HubHands), s.hub.conn, s.hub.message, s.hub.next.topic;
    SameWorldShows(s, s');
    forall d, t ensures HandedItems(s'.peers, d, t)
      == HandedItems(s.peers, d, t) + if d == c && t == u then m.items else []
    {
      ItemsOfAppend(s.peers[c].handed, m, t);
    }
    SubsUpdate(s.subs, u, Subs(s.subs, u) + {c});
    assert PeerOk(s, c);
    assert HandedItems(s.peers, c, u) == [];
    forall d, t | Follows(s', d, t) ensures Shows(s', HandedItems(s'.peers, d, t) + InFlight(s'.hub, d, t), t) {
      if d == c && t == u {
        assert HandedItems(s'.peers, c, u) + InFlight(s'.hub, c, u) == m.items;
      } else {
        assert Follows(s, d, t);
        assert HandedItems(s'.peers, d, t) + InFlight(s'.hub, d, t)
            == HandedItems(s.peers, d, t) + InFlight(s.hub, d, t);
      }
    }
  }

  lemma HubHandsKeepsViews(s: State)
    requires Safe(s) && ViewsOk(s) && ServeEnabled(s, HubHands)
    ensures ViewsOk(DoServe(s, HubHands))
  {
    match s.hub.next
    case ThenRound(_, _) => RoundHandsKeepsViews(s);
    case ThenSubscribe(_) => SubscribeHandsKeepsViews(s);
    case ThenSelfReport =>
      NoItems(s.peers[s.hub.conn].handed, s.hub.message);
      Quiet(s, DoServe(s, HubHands));
  }

  lemma PodListKeepsViews(s: State, items: seq<Item>)
    requires Safe(s) && ViewsOk(s) && ServeEnabled(s, PodListOk(items))
    ensures ViewsOk(DoServe(s, PodListOk(items)))
  {
    var s', c, t := DoServe(s, PodListOk(items)), s.hub.conn, s.hub.topic;
    assert PeerOk(s, c);
    if IsLive(s, c) {
      SnapshotShows(s, t, items);
      assert Archived(s, t) + items == items;
      OfferedPodListKeepsViews(s, s', Resources(t, items), t);
    } else {
      SkippedPodListKeepsViews(s, items);
    }
  }

  lemma OfferedPodListKeepsViews(s: State, s': State, m: Message, t: Topic)
    requires ViewsOk(s) && s.hub.PodListing? && m.Resources? && Shows(s, m.items, t)
    requires s' == s.(hub := Offering(s.hub.conn, m, ThenSubscribe(t)))
    ensures ViewsOk(s')
  {
    SameWorldShows(s, s');
    forall d, u | Follows(s', d, u) ensures Shows(s', HandedItems(s'.peers, d, u) + InFlight(s'.hub, d, u), u) {
      assert Shows(s, HandedItems(s.peers, d, u) + InFlight(s.hub, d, u), u);
    }
  }

  lemma SkippedPodListKeepsViews(s: State, items: seq<Item>)
    requires Safe(s) && ViewsOk(s) && ServeEnabled(s, PodListOk(items)) && !IsLive(s, s.hub.conn)
    ensures ViewsOk(DoServe(s, PodListOk(items)))
  {
    var c, t := s.hub.conn, s.hub.topic;
    assert PeerOk(s, c);
    SubsUpdate(s.subs, t, Subs(s.subs, t) + {c});
    Quiet(s, DoServe(s, PodListOk(items)));
  }

  lemma SendKeepsViews(s: State, c: Conn, e: Event)
    requires Safe(s) && ViewsOk(s) && s.hub.Round? && s.hub.event == e && c in s.hub.rest && c in s.conns
    ensures ViewsOk(HubSends(s, c, EventMessage(e), ThenRound(e, s.hub.rest - {c})))
  {
    var s' := HubSends(s, c, EventMessage(e), ThenRound(e, s.hub.rest - {c}));
    assert PeerOk(s, c);
    assert s' == s.(hub := Offering(c, EventMessage(e), ThenRound(e, s.hub.rest - {c})));
    forall d, t ensures InFlight(s'.hub, d, t) == InFlight(s.hub, d, t) {}
    Quiet(s, s');
  }

  lemma NextKeepsViews(s: State, c: Conn)
    requires Safe(s) && ViewsOk(s) && ServeEnabled(s, Next(c))
    ensures ViewsOk(DoServe(s, Next(c)))
  {
    var e, rest := s.hub.event, s.hub.rest - {c};
    assert PeerOk(s, c);
    if e.topic.All? && s.peers[c].aux {
      Quiet(s, s.(hub := Round(e, rest)));
    } else if !e.topic.All? && c !in s.conns {
      var subs := s.subs[e.topic := Subs(s.subs, e.topic) - {c}];
      SubsUpdate(s.subs, e.topic, Subs(s.subs, e.topic) - {c});
      Quiet(s, s.(hub := Round(e, rest), subs := subs));
    } else {
      SendKeepsViews(s, c, e);
    }
  }

  lemma TakeSubscribeKeepsViews(s: State, c: Conn)
    requires Safe(s) && ViewsOk(s) && ServeEnabled(s, TakeSubscribe(c))
    ensures ViewsOk(DoServe(s, TakeSubscribe(c)))
  {
    var t := s.peers[c].reader.topic;
    var p := s.peers[c].(reader := Reading);
    PeerKeepsViews(s, c, p);
    SubsUpdate(s.subs, t, Subs(s.subs, t));
    Quiet(s.(peers := s.peers[c := p]), DoServe(s, TakeSubscribe(c)));
  }

  lemma PodListFailKeepsViews(s: State)
    requires ViewsOk(s) && ServeEnabled(s, PodListFail)
    ensures ViewsOk(DoServe(s, PodListFail))
  {
    Quiet(s, DoServe(s, PodListFail));
  }

  lemma ServeKeepsViews(s: State, step: ServeStep)
    requires Safe(s) && ViewsOk(s) && ServeEnabled(s, step)
    ensures ViewsOk(DoServe(s, step))
  {
    if s.hub.Offering? { assert PeerOk(s, s.hub.conn); }
    match step
    case HubHands => HubHandsKeepsViews(s);
    case HubSkips =>
    case HubPanics =>
    case Receive(src) => ReceiveKeepsViews(s, src);
    case TakeSubscribe(c) => TakeSubscribeKeepsViews(s, c);
    case PodListOk(items) => PodListKeepsViews(s, items);
    case PodListFail => PodListFailKeepsViews(s);
    case Next(c) => NextKeepsViews(s, c);
    case RoundDone => Quiet(s, DoServe(s, RoundDone));
  }

  // ------------------------------------------------------------------ the other goroutines

  lemma StartUnregisterKeepsViews(s: State, c: Conn)
    requires ViewsOk(s) && c in s.peers && s.hub.Select?
    ensures ViewsOk(StartUnregister(s, c))
  {
    var s' := StartUnregister(s, c);
    assert forall d, t :: HandedItems(s'.peers, d, t) == HandedItems(s.peers, d, t);
    Quiet(s, s');
  }

  lemma UnregisterKeepsViews(s: State, step: UnregisterStep)
    requires Safe(s) && ViewsOk(s) && UnregisterEnabled(s, step)
    ensures ViewsOk(DoUnregister(s, step))
  {
    match step
    case ReaderReports(c) =>
      PeerKeepsViews(s, c, s.peers[c].(reader := Left));
      StartUnregisterKeepsViews(s.(peers := s.peers[c := s.peers[c].(reader := Left)]), c);
    case WriterReports(c) =>
      PeerKeepsViews(s, c, s.peers[c].(writer := Ready));
      StartUnregisterKeepsViews(s.(peers := s.peers[c := s.peers[c].(writer := Ready)]), c);
    case TaskReports(id) =>
      var s1 := s.(tasks := s.tasks[id := s.tasks[id].(phase := Over)]);
      Quiet(s, s1);
      StartUnregisterKeepsViews(s1, s.tasks[id].conn);
    case Delete => Quiet(s, DoUnregister(s, Delete));
    case CloseChannel => CloseKeepsViews(s);
  }

  lemma CloseKeepsViews(s: State)
    requires ViewsOk(s) && UnregisterEnabled(s, CloseChannel)
    ensures ViewsOk(DoUnregister(s, CloseChannel))
  {
    var c := s.hub.conn;
    var p := s.peers[c].(open := false, closed := s.peers[c].closed + 1);
    PeerKeepsViews(s, c, p);
    Quiet(s.(peers := s.peers[c := p]), DoUnregister(s, CloseChannel));
  }

  lemma TaskKeepsViews(s: State, step: TaskStep)
    requires Safe(s) && ViewsOk(s) && TaskEnabled(s, step)
    ensures ViewsOk(DoTask(s, step))
  {
    var s' := DoTask(s, step);
    assert TaskOk(s, s.tasks[step.id]);
    assert forall c, t :: HandedItems(s'.peers, c, t) == HandedItems(s.peers, c, t);
    Quiet(s, s');
  }

  lemma StepKeepsViews(s: State, step: Step)
    requires Safe(s) && ViewsOk(s) && Enabled(s, step)
    ensures ViewsOk(Do(s, step))
  {
    match step
    case Outer(o) => OuterKeepsViews(s, o);
    case Registration(r) => RegisterKeepsViews(s, r);
    case Service(v) => ServeKeepsViews(s, v);
    case Unregistration(u) => UnregisterKeepsViews(s, u);
    case Request(t) => TaskKeepsViews(s, t);
  }

  lemma {:induction false} RunKeepsViews(archive: seq<Item>, steps: seq<Step>)
    requires Legal(Init(archive), steps)
    ensures ViewsOk(Exec(Init(archive), steps))
    decreases |steps|
  {
    if steps != [] {
      RunKeepsViews(archive, steps[..|steps| - 1]);
      RunIsSafe(archive, steps[..|steps| - 1]);
      StepKeepsViews(Exec(Init(archive), steps[..|steps| - 1]), steps[|steps| - 1]);
    }
  }

  /**
   In every reachable state, for every connection, every topic it follows and every key whose last change an event told
   of: what the hub and its initial senders handed to the connection, then the event the hub is distributing, then the
   events still queued, merge to the stored object, or to nothing when nothing is stored and the key is not an archived
   workflow's.
   */
  lemma HubLosesNothing(s: State, c: Conn, t: Topic, key: string)
    requires Reachable(s) && Follows(s, c, t)
    ensures Told(s, t, key) && (At(StoreOf(s, t), key).Some? || !Touches(Archived(s, t), key)) ==>
      Settle(None, HandedItems(s.peers, c, t) + InFlight(s.hub, c, t) + Pending(s, t), key) == At(StoreOf(s, t), key)
  {
    var archive, steps :| Legal(Init(archive), steps) && s == Exec(Init(archive), steps);
    RunKeepsViews(archive, steps);
    assert Shows(s, HandedItems(s.peers, c, t) + InFlight(s.hub, c, t), t);
  }
}

/**
 The hub with each request handled in one step: what `run` promises a sequential reader.
 `C` is the type of connections. The hub of the source cleans its subscription sets lazily;
 `HandleEagerly` is the hub one would write first, and both are shown to send the same messages.
 */
module HubModel {
  import opened Messages

  datatype Request<C(==)> =
    | Joined(conn: C, aux: bool, lists: seq<Message>)         // register, with the initial lists sent
    | Dropped(conn: C)                                        // unregister
    | Subscribed(conn: C, topic: Topic, pods: Message)        // subscribe, with the answer of List
    | Notified(event: Event)                                  // notifyAll or notifySubscriptions

  datatype Hub<C(==)> = Hub(
    conns: set<C>,                      // registered connections
    aux: set<C>,                        // connections opened with aux=true
    gone: set<C>,                       // connections whose context is cancelled
    subs: map<Topic, set<C>>,           // connSubscriptions
    handed: map<C, seq<Message>>)       // what each connection's writer was handed

  function Empty<C>(): Hub<C> { Hub({}, {}, {}, map[], map[]) }

  function Subs<C(==)>(subs: map<Topic, set<C>>, topic: Topic): set<C> {
    if topic in subs then subs[topic] else {}
  }

  lemma SubsUpdate<C(!new)>(subs: map<Topic, set<C>>, topic: Topic, members: set<C>)
    ensures forall t :: Subs(subs[topic := members], t) == if t == topic then members else Subs(subs, t)
  {
    forall t ensures Subs(subs[topic := members], t) == if t == topic then members else Subs(subs, t) {
      assert t != topic ==> (t in subs[topic := members] <==> t in subs);
    }
  }

  function HandedTo<C(==)>(h: Hub<C>, c: C): seq<Message> {
    if c in h.handed then h.handed[c] else []
  }

  /** sendConn to every member of `to`: a cancelled connection is skipped. */
  function Deliver<C(==)>(h: Hub<C>, to: set<C>, m: Message): map<C, seq<Message>> {
    map c | c in h.handed :: if c in to && c !in h.gone then h.handed[c] + [m] else h.handed[c]
  }

  function EventMessage(e: Event): Message { Resources(e.topic, [e.item]) }

  function Join<C(==)>(h: Hub<C>, c: C, aux: bool, lists: seq<Message>): Hub<C> {
    h.(conns := h.conns + {c}, aux := if aux then h.aux + {c} else h.aux, handed := h.handed[c := lists])
  }

  function Subscribe<C(==)>(h: Hub<C>, c: C, topic: Topic, pods: Message): Hub<C> {
    if c in Subs(h.subs, topic) then h
    else h.(handed := Deliver(h, {c}, pods), subs := h.subs[topic := Subs(h.subs, topic) + {c}])
  }

  function Handle<C(==)>(h: Hub<C>, r: Request<C>): Hub<C> {
    match r
    case Joined(c, aux, lists) => Join(h, c, aux, lists)
    case Dropped(c) =>
      if c !in h.conns then h else h.(conns := h.conns - {c}, gone := h.gone + {c})
    case Subscribed(c, topic, pods) => Subscribe(h, c, topic, pods)
    case Notified(e) =>
      if e.topic.All? then
        h.(handed := Deliver(h, h.conns - h.aux, EventMessage(e)))
      else
        var kept := Subs(h.subs, e.topic) * h.conns;
        h.(subs := if e.topic in h.subs then h.subs[e.topic := kept] else h.subs,
           handed := Deliver(h, kept, EventMessage(e)))
  }

  function HandleEagerly<C(==)>(h: Hub<C>, r: Request<C>): Hub<C> {
    match r
    case Joined(c, aux, lists) => Join(h, c, aux, lists)
    case Dropped(c) =>
      if c !in h.conns then h
      else h.(conns := h.conns - {c}, gone := h.gone + {c},
              subs := map t | t in h.subs :: h.subs[t] - {c})
    case Subscribed(c, topic, pods) => Subscribe(h, c, topic, pods)
    case Notified(e) =>
      h.(handed := Deliver(h, if e.topic.All? then h.conns - h.aux else Subs(h.subs, e.topic), EventMessage(e)))
  }

  function Replay<C(==)>(requests: seq<Request<C>>): Hub<C> {
    if requests == [] then Empty()
    else Handle(Replay(requests[..|requests| - 1]), requests[|requests| - 1])
  }

  function ReplayEagerly<C(==)>(requests: seq<Request<C>>): Hub<C> {
    if requests == [] then Empty()
    else HandleEagerly(ReplayEagerly(requests[..|requests| - 1]), requests[|requests| - 1])
  }

  /** The order the goroutines keep: a connection registers once, and subscribes only afterwards. */
  predicate Orderly<C(==)>(requests: seq<Request<C>>) {
    requests == [] ||
    var front, last := requests[..|requests| - 1], requests[|requests| - 1];
    && Orderly(front)
    && (last.Joined? ==> last.conn !in Replay(front).handed)
    && (last.Subscribed? ==> last.conn in Replay(front).handed)
  }

  ghost predicate Consistent<C(!new)>(h: Hub<C>) {
    && h.handed.Keys == h.conns + h.gone
    && h.conns !! h.gone
    && h.aux <= h.handed.Keys
    && (forall t <- h.subs :: h.subs[t] <= h.handed.Keys)
  }

  lemma {:induction false} ReplayIsConsistent<C(!new)>(requests: seq<Request<C>>)
    requires Orderly(requests)
    ensures Consistent(Replay(requests))
  {
    if requests != [] {
      ReplayIsConsistent(requests[..|requests| - 1]);
    }
  }

  /** The two hubs agree on everything but the cancelled members of the subscription sets. */
  ghost predicate SameForTheLiving<C(!new)>(lazyHub: Hub<C>, eager: Hub<C>) {
    && lazyHub.conns == eager.conns && lazyHub.aux == eager.aux
    && lazyHub.gone == eager.gone && lazyHub.handed == eager.handed
    && forall t, c | c in lazyHub.conns :: c in Subs(lazyHub.subs, t) <==> c in Subs(eager.subs, t)
  }

  lemma SameHanded<C(!new)>(l: Hub<C>, e: Hub<C>, r: Request<C>)
    requires SameForTheLiving(l, e) && Consistent(l)
    requires r.Subscribed? ==> r.conn in l.handed
    ensures Handle(l, r).handed == HandleEagerly(e, r).handed
  {
    if r.Notified? && !r.event.topic.All? {
      var t := r.event.topic;
      forall c | c in l.handed
        ensures (c in Subs(l.subs, t) * l.conns && c !in l.gone) <==> (c in Subs(e.subs, t) && c !in e.gone)
      {}
    }
  }

  lemma SameStep<C(!new)>(l: Hub<C>, e: Hub<C>, r: Request<C>)
    requires SameForTheLiving(l, e) && Consistent(l)
    requires forall t, c | c in Subs(e.subs, t) :: c in l.handed
    requires r.Joined? ==> r.conn !in l.handed
    requires r.Subscribed? ==> r.conn in l.handed
    ensures SameForTheLiving(Handle(l, r), HandleEagerly(e, r))
    ensures forall t, c | c in Subs(HandleEagerly(e, r).subs, t) :: c in Handle(l, r).handed
  {
    var l', e' := Handle(l, r), HandleEagerly(e, r);
    SameHanded(l, e, r);
    forall t, c | c in l'.conns ensures c in Subs(l'.subs, t) <==> c in Subs(e'.subs, t) {
      assert c in l.conns <==> !(r.Joined? && c == r.conn && c !in l.conns);
      assert r.Joined? && c == r.conn ==> c !in Subs(l.subs, t) && c !in Subs(e.subs, t);
      match r
      case Joined(_, _, _) =>
      case Dropped(d) =>
        assert c in Subs(e'.subs, t) <==> c in Subs(e.subs, t);
      case Subscribed(d, u, _) =>
        assert c in Subs(l'.subs, t) <==> c in Subs(l.subs, t) || (c == d && t == u);
        assert c in Subs(e'.subs, t) <==> c in Subs(e.subs, t) || (c == d && t == u);
      case Notified(_) =>
    }
    forall t, c | c in Subs(e'.subs, t) ensures c in l'.handed {
      assert c in Subs(e.subs, t) || (r.Subscribed? && c == r.conn);
    }
  }

  /** Lazy cleaning refines eager cleaning: every orderly history hands every connection the same messages. */
  lemma {:induction false} LazyHandsWhatEagerHands<C(!new)>(requests: seq<Request<C>>)
    requires Orderly(requests)
    ensures Replay(requests).handed == ReplayEagerly(requests).handed
    ensures Replay(requests).conns == ReplayEagerly(requests).conns
    ensures SameForTheLiving(Replay(requests), ReplayEagerly(requests))
    ensures forall t, c | c in Subs(ReplayEagerly(requests).subs, t) :: c in Replay(requests).handed
  {
    if requests != [] {
      var front := requests[..|requests| - 1];
      LazyHandsWhatEagerHands(front);
      ReplayIsConsistent(front);
      SameStep(Replay(front), ReplayEagerly(front), requests[|requests| - 1]);
    }
  }

  // ---------------------------------------------------------------------------------------
  // One connection seen on its own.

  // Until it registers, while it is registered, and after it is unregistered.
  datatype Life = Unborn | Live(aux: bool, topics: set<Topic>, got: seq<Message>) | Ended(got: seq<Message>)

  /** What one request means to one connection; no other connection is mentioned. */
  function Experience<C(==)>(l: Life, c: C, r: Request<C>): Life {
    match r
    case Joined(d, aux, lists) => if c == d then Live(aux, {}, lists) else l
    case Dropped(d) => if c == d && l.Live? then Ended(l.got) else l
    case Subscribed(d, t, pods) =>
      if c == d && l.Live? && t !in l.topics then l.(topics := l.topics + {t}, got := l.got + [pods]) else l
    case Notified(e) =>
      if l.Live? && (if e.topic.All? then !l.aux else e.topic in l.topics)
      then l.(got := l.got + [EventMessage(e)]) else l
  }

  function LifeOf<C(==)>(c: C, requests: seq<Request<C>>): Life {
    if requests == [] then Unborn
    else Experience(LifeOf(c, requests[..|requests| - 1]), c, requests[|requests| - 1])
  }

  ghost predicate Mirrors<C(!new)>(h: Hub<C>, c: C, l: Life) {
    && (l.Unborn? <==> c !in h.handed)
    && (l.Live? <==> c in h.conns)
    && (!l.Unborn? ==> h.handed[c] == l.got)
    && (l.Live? ==> (l.aux <==> c in h.aux) && forall t :: t in l.topics <==> c in Subs(h.subs, t))
  }

  lemma MirrorsStep<C(!new)>(h: Hub<C>, c: C, l: Life, r: Request<C>)
    requires Mirrors(h, c, l) && Consistent(h)
    requires r.Joined? ==> r.conn !in h.handed
    requires r.Subscribed? ==> r.conn in h.handed
    ensures Mirrors(Handle(h, r), c, Experience(l, c, r))
  {
    var h', l' := Handle(h, r), Experience(l, c, r);
    if l'.Live? {
      forall t ensures t in l'.topics <==> c in Subs(h'.subs, t) {
        if r.Joined? && c == r.conn {
          assert c !in Subs(h.subs, t);
        }
      }
    }
  }

  /**
   Exactly once and in hub order: each connection was handed its initial lists and then precisely the
   broadcasts (unless aux) and the pod messages of topics it had subscribed to by then.
   */
  lemma {:induction false} EachConnectionGetsItsOwnLife<C(!new)>(requests: seq<Request<C>>, c: C)
    requires Orderly(requests)
    ensures Mirrors(Replay(requests), c, LifeOf(c, requests))
  {
    if requests != [] {
      var front := requests[..|requests| - 1];
      EachConnectionGetsItsOwnLife(front, c);
      ReplayIsConsistent(front);
      MirrorsStep(Replay(front), c, LifeOf(c, front), requests[|requests| - 1]);
    }
  }
}

/** What every reachable state of the hub protocol keeps about contexts, channels and panics. */
module HubSafety {
  import opened Messages
  import opened HubModel
  import opened HubProtocol

  ghost predicate PeerOk(s: State, c: Conn)
    requires c in s.peers
  {
    var p := s.peers[c];
    var registering := s.hub.Registering? && s.hub.conn == c;
    && (p.live <==> registering || (c in s.conns && s.hub != Cancelled(c)))
    && (p.open <==> p.live || s.hub == Cancelled(c) || s.hub == Deleted(c))
    && p.closed == (if p.open then 0 else 1)
    && (p.reader.Waiting? <==> registering)
    && (p.reader.Asking? ==> p.reader.topic.PodsOf?)
    && (p.writer.Finished? ==> !p.open)
  }

  ghost predicate TaskOk(s: State, t: Task) {
    && t.conn in s.peers
    && !s.peers[t.conn].reader.Waiting?
    && (t.phase.Blocked? ==> s.peers[t.conn].live)
  }

  ghost predicate RoundOk(s: State, e: Event, rest: set<Conn>) {
    rest <= if e.topic.All? then s.conns else Subs(s.subs, e.topic)
  }

  ghost predicate HubOk(s: State) {
    match s.hub
    case Select => true
    case Registering(c, senders) =>
      && c in s.peers && c !in s.conns && senders.Keys == StartSenders().Keys
      && !s.peers[c].aux
    case PodListing(c, t) =>
      c in s.peers && !s.peers[c].reader.Waiting? && t.PodsOf? && c !in Subs(s.subs, t)
    case Offering(c, m, next) =>
      && c in s.conns
      && (match next
          case ThenSubscribe(t) => t.PodsOf? && c !in Subs(s.subs, t) && m.Resources? && m.topic == t
          case ThenSelfReport => !m.Resources?
          case ThenRound(e, rest) =>
            && RoundOk(s, e, rest) && c !in rest && m == EventMessage(e)
            && (if e.topic.All? then c in s.peers && !s.peers[c].aux else c in Subs(s.subs, e.topic)))
    case Round(e, rest) => RoundOk(s, e, rest)
    case SelfReporting(c) => c in s.peers
    case Cancelled(c) => c in s.conns
    case Deleted(c) => c in s.peers && c !in s.conns
  }

  ghost predicate KnownSubscribers(s: State, subs: map<Topic, set<Conn>>) {
    forall t, c | c in Subs(subs, t) :: c in s.peers && !s.peers[c].reader.Waiting?
  }

  ghost predicate Safe(s: State) {
    && s.conns <= s.peers.Keys
    && KnownSubscribers(s, s.subs)
    && (forall c <- s.peers :: PeerOk(s, c))
    && (forall id <- s.tasks :: TaskOk(s, s.tasks[id]))
    && HubOk(s)
    && s.panics <= {LateSend}
  }

  // Every step edits few components; these lemmas say which edits are harmless.

  lemma PeerEdit(s: State, c: Conn, p: Peer)
    requires Safe(s) && c in s.peers
    requires p.aux == s.peers[c].aux && p.live == s.peers[c].live && p.open == s.peers[c].open
    requires p.closed == s.peers[c].closed && (p.reader.Waiting? <==> s.peers[c].reader.Waiting?)
    requires p.reader.Asking? ==> p.reader.topic.PodsOf?
    requires p.writer.Finished? ==> !p.open
    ensures Safe(s.(peers := s.peers[c := p]))
  {
    var s' := s.(peers := s.peers[c := p]);
    forall d | d in s'.peers ensures PeerOk(s', d) {
      assert PeerOk(s, d);
    }
    forall id | id in s'.tasks ensures TaskOk(s', s'.tasks[id]) {
      assert TaskOk(s, s.tasks[id]);
    }
  }

  lemma TaskEdit(s: State, id: nat, t: Task)
    requires Safe(s) && TaskOk(s, t)
    ensures Safe(s.(tasks := s.tasks[id := t]))
  {
    var s' := s.(tasks := s.tasks[id := t]);
    forall d | d in s'.peers ensures PeerOk(s', d) {
      assert PeerOk(s, d);
    }
    forall i | i in s'.tasks ensures TaskOk(s', s'.tasks[i]) {
      if i != id { assert TaskOk(s, s.tasks[i]); }
    }
  }

  lemma SubscribersEdit(s: State, t: Topic, members: set<Conn>)
    requires KnownSubscribers(s, s.subs)
    requires forall c <- members :: c in s.peers && !s.peers[c].reader.Waiting?
    ensures KnownSubscribers(s, s.subs[t := members])
  {
    var subs := s.subs[t := members];
    SubsUpdate(s.subs, t, members);
    forall u, c | c in Subs(subs, u) ensures c in s.peers && !s.peers[c].reader.Waiting? {
      if u == t { assert c in members; } else { assert c in Subs(s.subs, u); }
    }
  }

  predicate Plain(h: HubPoint) { !h.Registering? && !h.Cancelled? && !h.Deleted? }

  lemma HubEdit(s: State, h: HubPoint, subs: map<Topic, set<Conn>>, history: seq<Request<Conn>>)
    requires Safe(s) && Plain(s.hub) && Plain(h)
    requires KnownSubscribers(s, subs)
    requires HubOk(s.(hub := h, subs := subs))
    ensures Safe(s.(hub := h, subs := subs, history := history))
  {
    var s' := s.(hub := h, subs := subs, history := history);
    forall d | d in s'.peers ensures PeerOk(s', d) {
      assert PeerOk(s, d);
    }
    forall i | i in s'.tasks ensures TaskOk(s', s'.tasks[i]) {
      assert TaskOk(s, s.tasks[i]);
    }
    assert HubOk(s');
  }

  lemma QueuesEdit(
    s: State, stores: map<Topic, Store>, missed: set<(Topic, string)>, queues: map<Source, seq<Event>>)
    requires Safe(s)
    ensures Safe(s.(stores := stores, missed := missed, queues := queues))
  {
    var s' := s.(stores := stores, missed := missed, queues := queues);
    forall d | d in s'.peers ensures PeerOk(s', d) {
      assert PeerOk(s, d);
    }
    forall i | i in s'.tasks ensures TaskOk(s', s'.tasks[i]) {
      assert TaskOk(s, s.tasks[i]);
    }
  }

  lemma OuterKeepsSafe(s: State, step: OuterStep)
    requires Safe(s) && OuterEnabled(s, step)
    ensures Safe(DoOuter(s, step))
  {
    match step
    case Change(t, item) => QueuesEdit(s, DoOuter(s, step).stores, DoOuter(s, step).missed, DoOuter(s, step).queues);
    case Missed(t, item) => QueuesEdit(s, DoOuter(s, step).stores, DoOuter(s, step).missed, s.queues);
    case Ask(c, t) => assert PeerOk(s, c); PeerEdit(s, c, s.peers[c].(reader := Asking(t)));
    case Spawn(c, id, m, closes) => TaskEdit(s, id, Task(c, m, closes, Checking));
    case Hangup(c) => assert PeerOk(s, c); PeerEdit(s, c, s.peers[c].(reader := Leaving));
    case WriteOk(c) => assert PeerOk(s, c); PeerEdit(s, c, s.peers[c].(writer := Ready));
    case WriteFail(c) => assert PeerOk(s, c); PeerEdit(s, c, s.peers[c].(writer := Complaining));
    case WriterExits(c) => assert PeerOk(s, c); PeerEdit(s, c, s.peers[c].(writer := Finished));
  }

  lemma HandOverKeepsSafe(s: State, c: Conn, m: Message)
    requires Safe(s) && c in s.peers
    ensures Safe(HandOver(s, c, m))
  {
    assert PeerOk(s, c);
    PeerEdit(s, c, HandOver(s, c, m).peers[c]);
  }

  lemma HandAnswerKeepsSafe(s: State, c: Conn, m: Message)
    requires Safe(s) && c in s.peers
    ensures Safe(HandAnswer(s, c, m))
  {
    assert PeerOk(s, c);
    PeerEdit(s, c, HandAnswer(s, c, m).peers[c]);
  }

  lemma SetSenderKeepsSafe(s: State, k: Kind, x: Sender)
    requires Safe(s) && s.hub.Registering? && k in s.hub.senders
    ensures Safe(SetSender(s, k, x))
  {
    var s' := SetSender(s, k, x);
    forall d | d in s'.peers ensures PeerOk(s', d) {
      assert PeerOk(s, d);
    }
    forall i | i in s'.tasks ensures TaskOk(s', s'.tasks[i]) {
      assert TaskOk(s, s.tasks[i]);
    }
  }

  lemma RegisterKeepsSafe(s: State, step: RegisterStep)
    requires Safe(s) && RegisterEnabled(s, step)
    ensures Safe(DoRegister(s, step))
  {
    var s' := DoRegister(s, step);
    if s.hub.Registering? { assert PeerOk(s, s.hub.conn); }  // so its context is live and its channel open
    match step
    case ListOk(k, items) => SetSenderKeepsSafe(s, k, s'.hub.senders[k]);
    case ListFail(k) => SetSenderKeepsSafe(s, k, s'.hub.senders[k]);
    case SenderHands(k) =>
      HandOverKeepsSafe(s, s.hub.conn, s.hub.senders[k].message);
      SetSenderKeepsSafe(HandOver(s, s.hub.conn, s.hub.senders[k].message), k, s'.hub.senders[k]);
    case SenderSkips(k) =>
    case SenderPanics(k) =>
    case Register(c, aux) => JoinKeepsSafe(s, s', c);
    case RegisterDone => JoinKeepsSafe(s, s', s.hub.conn);
  }

  lemma JoinKeepsSafe(s: State, s': State, c: Conn)
    requires Safe(s) && c !in s.conns
    requires s.hub.Select? || (s.hub.Registering? && s.hub.conn == c)
    requires c !in s.peers || (s.peers[c].live && s.peers[c].open && s.peers[c].closed == 0)
    requires s' == s.(hub := s'.hub, conns := s'.conns, peers := s'.peers, history := s'.history)
    requires s'.peers.Keys == s.peers.Keys + {c}
    requires forall d <- s.peers :: d != c ==> s'.peers[d] == s.peers[d]
    requires s'.peers[c].live && s'.peers[c].open && s'.peers[c].closed == 0 && !s'.peers[c].writer.Finished?
    requires (s'.hub.Select? && s'.conns == s.conns + {c} && s'.peers[c].reader.Reading?)
          || (s'.hub == Registering(c, StartSenders()) && s'.conns == s.conns
              && s'.peers[c].reader.Waiting? && !s'.peers[c].aux)
    ensures Safe(s')
  {
  }

  lemma ResumeKeepsSafe(s: State, c: Conn, m: Message, next: Then)
    requires Safe(s) && Plain(s.hub) && c in s.peers && !s.peers[c].reader.Waiting?
    requires next.ThenSubscribe? ==> next.topic.PodsOf?
    requires next.ThenRound? ==> RoundOk(s, next.event, next.rest)
    ensures Safe(Resume(s, c, m, next))
  {
    var s' := Resume(s, c, m, next);
    if next.ThenSubscribe? { SubscribersEdit(s, next.topic, Subs(s.subs, next.topic) + {c}); }
    HubEdit(s, s'.hub, s'.subs, s'.history);
  }

  lemma SendKeepsSafe(s: State, c: Conn, m: Message, next: Then)
    requires Safe(s) && Plain(s.hub) && c in s.peers && !s.peers[c].reader.Waiting?
    requires HubOk(s.(hub := Offering(c, m, next), conns := s.conns + {c}))
    ensures Safe(HubSends(s, c, m, next))
  {
    assert PeerOk(s, c);
    if IsLive(s, c) {
      HubEdit(s, Offering(c, m, next), s.subs, s.history);
    } else {
      ResumeKeepsSafe(s, c, m, next);
    }
  }

  lemma TakeSubscribeKeepsSafe(s: State, c: Conn)
    requires Safe(s) && ServeEnabled(s, TakeSubscribe(c))
    ensures Safe(DoServe(s, TakeSubscribe(c)))
  {
    var s' := DoServe(s, TakeSubscribe(c));
    assert PeerOk(s, c);
    var s1 := s.(peers := s.peers[c := s.peers[c].(reader := Reading)]);
    PeerEdit(s, c, s.peers[c].(reader := Reading));
    var t := s.peers[c].reader.topic;
    SubscribersEdit(s1, t, Subs(s.subs, t));
    HubEdit(s1, s'.hub, s'.subs, s'.history);
  }

  lemma NextKeepsSafe(s: State, c: Conn)
    requires Safe(s) && ServeEnabled(s, Next(c))
    ensures Safe(DoServe(s, Next(c)))
  {
    var s' := DoServe(s, Next(c));
    assert PeerOk(s, c);
    var e, rest := s.hub.event, s.hub.rest - {c};
    if (e.topic.All? && s.peers[c].aux) || (!e.topic.All? && c !in s.conns) {
      SubscribersEdit(s, e.topic, Subs(s.subs, e.topic) - {c});
      HubEdit(s, s'.hub, s'.subs, s'.history);
    } else {
      SendKeepsSafe(s, c, EventMessage(e), ThenRound(e, rest));
    }
  }

  lemma HubHandsKeepsSafe(s: State)
    requires Safe(s) && ServeEnabled(s, HubHands)
    ensures Safe(DoServe(s, HubHands))
  {
    assert PeerOk(s, s.hub.conn);
    HandOverKeepsSafe(s, s.hub.conn, s.hub.message);
    ResumeKeepsSafe(HandOver(s, s.hub.conn, s.hub.message), s.hub.conn, s.hub.message, s.hub.next);
  }

  lemma ServeKeepsSafe(s: State, step: ServeStep)
    requires Safe(s) && ServeEnabled(s, step)
    ensures Safe(DoServe(s, step))
  {
    var s' := DoServe(s, step);
    if s.hub.Offering? { assert PeerOk(s, s.hub.conn); }
    match step
    case TakeSubscribe(c) => TakeSubscribeKeepsSafe(s, c);
    case PodListOk(items) =>
      SendKeepsSafe(s, s.hub.conn, Resources(s.hub.topic, items), ThenSubscribe(s.hub.topic));
    case PodListFail => SendKeepsSafe(s, s.hub.conn, WebError("PodList"), ThenSelfReport);
    case HubHands => HubHandsKeepsSafe(s);
    case HubSkips =>
    case HubPanics =>
    case Receive(src) =>
      QueuesEdit(s, s'.stores, s'.missed, s'.queues);
      HubEdit(s.(queues := s'.queues), s'.hub, s'.subs, s'.history);
    case Next(c) => NextKeepsSafe(s, c);
    case RoundDone => HubEdit(s, s'.hub, s'.subs, s'.history);
  }

  lemma StartUnregisterKeepsSafe(s: State, c: Conn)
    requires Safe(s) && s.hub.Select? && c in s.peers
    ensures Safe(StartUnregister(s, c))
  {
    assert PeerOk(s, c);
    if c !in s.conns {
      HubEdit(s, s.hub, s.subs, s.history + [Dropped(c)]);
    } else {
      var s' := StartUnregister(s, c);
      forall d | d in s'.peers ensures PeerOk(s', d) {
        assert PeerOk(s, d);
      }
      forall i | i in s'.tasks ensures TaskOk(s', s'.tasks[i]) {
        assert TaskOk(s, s.tasks[i]);
      }
    }
  }

  lemma UnregisterKeepsSafe(s: State, step: UnregisterStep)
    requires Safe(s) && UnregisterEnabled(s, step)
    ensures Safe(DoUnregister(s, step))
  {
    var s' := DoUnregister(s, step);
    match step
    case ReaderReports(c) =>
      assert PeerOk(s, c);
      PeerEdit(s, c, s.peers[c].(reader := Left));
      StartUnregisterKeepsSafe(s.(peers := s.peers[c := s.peers[c].(reader := Left)]), c);
    case WriterReports(c) =>
      assert PeerOk(s, c);
      PeerEdit(s, c, s.peers[c].(writer := Ready));
      StartUnregisterKeepsSafe(s.(peers := s.peers[c := s.peers[c].(writer := Ready)]), c);
    case TaskReports(id) =>
      assert TaskOk(s, s.tasks[id]);
      TaskEdit(s, id, s.tasks[id].(phase := Over));
      StartUnregisterKeepsSafe(s.(tasks := s.tasks[id := s.tasks[id].(phase := Over)]), s.tasks[id].conn);
    case Delete => FinishUnregisterKeepsSafe(s, s');
    case CloseChannel => FinishUnregisterKeepsSafe(s, s');
  }

  lemma FinishUnregisterKeepsSafe(s: State, s': State)
    requires Safe(s)
    requires (UnregisterEnabled(s, Delete) && s' == DoUnregister(s, Delete))
          || (UnregisterEnabled(s, CloseChannel) && s' == DoUnregister(s, CloseChannel))
    ensures Safe(s')
  {
    assert PeerOk(s, s.hub.conn);
    forall d | d in s'.peers ensures PeerOk(s', d) {
      assert PeerOk(s, d);
    }
    forall i | i in s'.tasks ensures TaskOk(s', s'.tasks[i]) {
      assert TaskOk(s, s.tasks[i]);
    }
  }

  lemma TaskKeepsSafe(s: State, step: TaskStep)
    requires Safe(s) && TaskEnabled(s, step)
    ensures Safe(DoTask(s, step))
  {
    assert TaskOk(s, s.tasks[step.id]);
    match step
    case TaskChecks(id) => TaskEdit(s, id, DoTask(s, step).tasks[id]);
    case TaskBlocks(id) => TaskEdit(s, id, DoTask(s, step).tasks[id]);
    case TaskHands(id) =>
      HandAnswerKeepsSafe(s, s.tasks[id].conn, s.tasks[id].message);
      TaskEdit(HandAnswer(s, s.tasks[id].conn, s.tasks[id].message), id, DoTask(s, step).tasks[id]);
    case TaskSkips(id) => TaskEdit(s, id, DoTask(s, step).tasks[id]);
    case TaskPanics(id) =>
  }

  lemma StepKeepsSafe(s: State, step: Step)
    requires Safe(s) && Enabled(s, step)
    ensures Safe(Do(s, step))
  {
    match step
    case Outer(o) => OuterKeepsSafe(s, o);
    case Registration(r) => RegisterKeepsSafe(s, r);
    case Service(v) => ServeKeepsSafe(s, v);
    case Unregistration(u) => UnregisterKeepsSafe(s, u);
    case Request(t) => TaskKeepsSafe(s, t);
  }

  lemma {:induction false} RunIsSafe(archive: seq<Item>, steps: seq<Step>)
    requires Legal(Init(archive), steps)
    ensures Safe(Exec(Init(archive), steps))
    decreases |steps|
  {
    if steps != [] {
      RunIsSafe(archive, steps[..|steps| - 1]);
      StepKeepsSafe(Exec(Init(archive), steps[..|steps| - 1]), steps[|steps| - 1]);
    }
  }

  lemma ReachableIsSafe(s: State)
    requires Reachable(s)
    ensures Safe(s)
  {
    var archive, steps :| Legal(Init(archive), steps) && s == Exec(Init(archive), steps);
    RunIsSafe(archive, steps);
  }

  /** At the hub's select, being registered, having a live context and having an open channel are one thing. */
  lemma RegisteredExactlyWhenOpen(s: State, c: Conn)
    requires Reachable(s) && s.hub.Select? && c in s.peers
    ensures c in s.conns <==> s.peers[c].live
    ensures c in s.conns <==> s.peers[c].open
    ensures s.peers[c].closed == if c in s.conns then 0 else 1
  {
    ReachableIsSafe(s);
    assert PeerOk(s, c);
  }

  /**
   Cancel before close, in any run and however many unregister requests arrive: no channel is closed twice,
   and neither the hub, nor an initial sender, nor a sender already blocked in its select meets a closed one.
   */
  lemma NoSendMeetsAClosedChannel(s: State)
    requires Reachable(s)
    ensures HubSend !in s.panics && InitialSend !in s.panics && BlockedSend !in s.panics && DoubleClose !in s.panics
    ensures forall c <- s.peers :: s.peers[c].closed <= 1
    ensures s.hub.Offering? ==> s.hub.conn in s.peers && s.peers[s.hub.conn].open
    ensures s.hub.Registering? ==> s.hub.conn in s.peers && s.peers[s.hub.conn].open
    ensures forall id <- s.tasks :: s.tasks[id].phase.Blocked? ==>
      s.tasks[id].conn in s.peers && s.peers[s.tasks[id].conn].open
  {
    ReachableIsSafe(s);
    if s.hub.Registering? || s.hub.Offering? { assert PeerOk(s, s.hub.conn); }
    forall c | c in s.peers ensures s.peers[c].closed <= 1 { assert PeerOk(s, c); }
    forall id | id in s.tasks && s.tasks[id].phase.Blocked?
      ensures s.tasks[id].conn in s.peers && s.peers[s.tasks[id].conn].open
    {
      assert TaskOk(s, s.tasks[id]);
      assert PeerOk(s, s.tasks[id].conn);
    }
  }
}

/**
 The archived workflows. They are in no store and no event tells of them, so a client has them only because they stand
 in front of the list of workflows that it is handed when it is registered.
 */
module HubArchive {
  import opened Options
  import opened Messages
  import opened HubModel
  import opened HubProtocol
  import opened HubSafety
  import opened HubViews
  import opened HubAnswers

  const WORKFLOWS := All(WorkflowKind)

  predicate StartsWithArchive(s: State, items: seq<Item>) { s.archive <= items }

  ghost predicate SenderHasArchive(s: State, c: Conn, x: Sender) {
    match x
    case Sending(m, failed) =>
      !failed ==> m.Resources? && m.topic == WORKFLOWS && StartsWithArchive(s, m.items)
    case Returned => StartsWithArchive(s, HandedItems(s.peers, c, WORKFLOWS))
    case _ => true
  }

  predicate Served(s: State, c: Conn) { c in s.conns && c in s.peers && !s.peers[c].aux }

  ghost predicate ArchiveOk(s: State) {
    && (forall c | Served(s, c) :: StartsWithArchive(s, HandedItems(s.peers, c, WORKFLOWS)))
    && (s.hub.Registering? && WorkflowKind in s.hub.senders ==>
          SenderHasArchive(s, s.hub.conn, s.hub.senders[WorkflowKind]))
  }

  // ------------------------------------------------------------------ logs only grow

  // No connection is new, none has lost an item, and nobody is being registered anew.
  ghost predicate Grows(s: State, s': State) {
    && s'.archive == s.archive
    && (forall c | Served(s', c) :: Served(s, c))
    && (forall c :: HandedItems(s.peers, c, WORKFLOWS) <= HandedItems(s'.peers, c, WORKFLOWS))
    && (s'.hub.Registering? ==> s'.hub == s.hub)
  }

  lemma GrowingKeepsArchive(s: State, s': State)
    requires ArchiveOk(s) && Grows(s, s')
    ensures ArchiveOk(s')
  {
    forall c | Served(s', c) ensures StartsWithArchive(s', HandedItems(s'.peers, c, WORKFLOWS)) {
      PrefixThen(s.archive, HandedItems(s.peers, c, WORKFLOWS), HandedItems(s'.peers, c, WORKFLOWS));
    }
    if s'.hub.Registering? && WorkflowKind in s'.hub.senders && s'.hub.senders[WorkflowKind].Returned? {
      var c := s.hub.conn;
      PrefixThen(s.archive, HandedItems(s.peers, c, WORKFLOWS), HandedItems(s'.peers, c, WORKFLOWS));
    }
  }

  lemma PrefixThen(a: seq<Item>, b: seq<Item>, c: seq<Item>)
    requires a <= b <= c
    ensures a <= c
  {
  }

  // The logs of the hub stay as they are.
  predicate SameLogs(s: State, s': State) {
    s'.peers.Keys == s.peers.Keys
    && forall c <- s.peers :: s'.peers[c].handed == s.peers[c].handed && s'.peers[c].aux == s.peers[c].aux
  }

  lemma SameLogsGrow(s: State, s': State)
    requires SameLogs(s, s') && s'.archive == s.archive && s'.conns <= s.conns
    requires s'.hub.Registering? ==> s'.hub == s.hub
    ensures Grows(s, s')
  {
  }

  lemma HandingGrows(s: State, c: Conn, m: Message)
    requires c in s.peers
    ensures Grows(s, HandOver(s, c, m))
  {
    forall d ensures HandedItems(s.peers, d, WORKFLOWS) <= HandedItems(HandOver(s, c, m).peers, d, WORKFLOWS) {
      HandOverItems(s, c, m, d, WORKFLOWS);
    }
  }

  // ------------------------------------------------------------------ steps

  lemma OuterKeepsArchive(s: State, step: OuterStep)
    requires ArchiveOk(s) && OuterEnabled(s, step)
    ensures ArchiveOk(DoOuter(s, step))
  {
    SameLogsGrow(s, DoOuter(s, step));
    GrowingKeepsArchive(s, DoOuter(s, step));
  }

  lemma ListKeepsArchive(s: State, k: Kind, items: seq<Item>)
    requires ArchiveOk(s) && RegisterEnabled(s, ListOk(k, items))
    ensures ArchiveOk(DoRegister(s, ListOk(k, items)))
  {
    var s' := DoRegister(s, ListOk(k, items));
    assert s'.peers == s.peers && s'.conns == s.conns && s'.archive == s.archive;
    if k == WorkflowKind { assert StartsWithArchive(s', s'.hub.senders[k].message.items); }
  }

  lemma HandedKeepsArchive(s: State, k: Kind)
    requires Safe(s) && ViewsOk(s) && ArchiveOk(s) && RegisterEnabled(s, SenderHands(k))
    ensures ArchiveOk(DoRegister(s, SenderHands(k)))
  {
    var s', c, m := DoRegister(s, SenderHands(k)), s.hub.conn, s.hub.senders[k].message;
    assert SenderViewOk(s, c, k, s.hub.senders[k]);
    forall d ensures HandedItems(s.peers, d, WORKFLOWS) <= HandedItems(s'.peers, d, WORKFLOWS) {
      SenderHandsItems(s, k, d, WORKFLOWS);
    }
    forall d | Served(s', d) ensures StartsWithArchive(s', HandedItems(s'.peers, d, WORKFLOWS)) {
      assert Served(s, d);
      PrefixThen(s.archive, HandedItems(s.peers, d, WORKFLOWS), HandedItems(s'.peers, d, WORKFLOWS));
    }
    if WorkflowKind in s.hub.senders { HandedKeepsSender(s, k); }
  }

  lemma HandedKeepsSender(s: State, k: Kind)
    requires ViewsOk(s) && ArchiveOk(s) && RegisterEnabled(s, SenderHands(k)) && WorkflowKind in s.hub.senders
    ensures var s' := DoRegister(s, SenderHands(k));
      SenderHasArchive(s', s.hub.conn, s'.hub.senders[WorkflowKind])
  {
    var s', c := DoRegister(s, SenderHands(k)), s.hub.conn;
    assert SenderViewOk(s, c, k, s.hub.senders[k]);
    SenderHandsItems(s, k, c, WORKFLOWS);
    if k == WorkflowKind && !s.hub.senders[k].failed {
      assert [] + s.hub.senders[k].message.items == s.hub.senders[k].message.items;
    }
  }

  lemma DoneKeepsArchive(s: State)
    requires Safe(s) && ArchiveOk(s) && RegisterEnabled(s, RegisterDone)
    ensures ArchiveOk(DoRegister(s, RegisterDone))
  {
    var s', c := DoRegister(s, RegisterDone), s.hub.conn;
    EveryKindHasASender(WorkflowKind);
    forall d ensures HandedItems(s'.peers, d, WORKFLOWS) == HandedItems(s.peers, d, WORKFLOWS) {}
    forall d | Served(s', d) ensures StartsWithArchive(s', HandedItems(s'.peers, d, WORKFLOWS)) {
      assert d != c ==> Served(s, d);
    }
  }

  lemma StartKeepsArchive(s: State, c: Conn, aux: bool)
    requires Safe(s) && ArchiveOk(s) && RegisterEnabled(s, Register(c, aux))
    ensures ArchiveOk(DoRegister(s, Register(c, aux)))
  {
    var s' := DoRegister(s, Register(c, aux));
    forall d | Served(s', d) ensures StartsWithArchive(s', HandedItems(s'.peers, d, WORKFLOWS)) {
      assert d != c && Served(s, d);
    }
  }

  lemma RegisterKeepsArchive(s: State, step: RegisterStep)
    requires Safe(s) && ViewsOk(s) && ArchiveOk(s) && RegisterEnabled(s, step)
    ensures ArchiveOk(DoRegister(s, step))
  {
    if s.hub.Registering? { assert PeerOk(s, s.hub.conn); }
    match step
    case Register(c, aux) => StartKeepsArchive(s, c, aux);
    case ListOk(k, items) => ListKeepsArchive(s, k, items);
    case ListFail(k) =>
    case SenderHands(k) => HandedKeepsArchive(s, k);
    case SenderSkips(k) =>
    case SenderPanics(k) =>
    case RegisterDone => DoneKeepsArchive(s);
  }

  lemma ResumeGrows(s: State, c: Conn, m: Message, next: Then)
    ensures Grows(s, Resume(s, c, m, next)) && Grows(s, HubSends(s, c, m, next))
  {
  }

  lemma HubHandsKeepsArchive(s: State)
    requires ArchiveOk(s) && ServeEnabled(s, HubHands)
    ensures ArchiveOk(DoServe(s, HubHands))
  {
    var c, m := s.hub.conn, s.hub.message;
    HandingGrows(s, c, m);
    GrowingKeepsArchive(s, HandOver(s, c, m));
    ResumeGrows(HandOver(s, c, m), c, m, s.hub.next);
    GrowingKeepsArchive(HandOver(s, c, m), DoServe(s, HubHands));
  }

  lemma ServeGrows(s: State, step: ServeStep)
    requires ServeEnabled(s, step) && !step.HubHands?
    ensures Grows(s, DoServe(s, step))
  {
    match step
    case HubSkips => ResumeGrows(s, s.hub.conn, s.hub.message, s.hub.next);
    case PodListOk(items) => ResumeGrows(s, s.hub.conn, Resources(s.hub.topic, items), ThenSubscribe(s.hub.topic));
    case PodListFail => ResumeGrows(s, s.hub.conn, WebError("PodList"), ThenSelfReport);
    case Next(c) => ResumeGrows(s, c, EventMessage(s.hub.event), ThenRound(s.hub.event, s.hub.rest - {c}));
    case TakeSubscribe(c) => SameLogsGrow(s, DoServe(s, step));
    case _ =>
  }

  lemma ServeKeepsArchive(s: State, step: ServeStep)
    requires ArchiveOk(s) && ServeEnabled(s, step)
    ensures ArchiveOk(DoServe(s, step))
  {
    if step.HubHands? {
      HubHandsKeepsArchive(s);
    } else {
      ServeGrows(s, step);
      GrowingKeepsArchive(s, DoServe(s, step));
    }
  }

  lemma UnregisterKeepsArchive(s: State, step: UnregisterStep)
    requires ArchiveOk(s) && UnregisterEnabled(s, step)
    ensures ArchiveOk(DoUnregister(s, step))
  {
    UnregisterGrows(s, step);
    GrowingKeepsArchive(s, DoUnregister(s, step));
  }

  lemma StartUnregisterHasSameLogs(s: State, c: Conn)
    requires c in s.peers && s.hub.Select?
    ensures var s' := StartUnregister(s, c);
      SameLogs(s, s') && s'.archive == s.archive && s'.conns == s.conns && !s'.hub.Registering?
  {
  }

  lemma UnregisterHasSameLogs(s: State, step: UnregisterStep)
    requires UnregisterEnabled(s, step)
    ensures var s' := DoUnregister(s, step);
      SameLogs(s, s') && s'.archive == s.archive && s'.conns <= s.conns && !s'.hub.Registering?
  {
    match step {
      case ReaderReports(c) => StartUnregisterHasSameLogs(s.(peers := s.peers[c := s.peers[c].(reader := Left)]), c);
      case WriterReports(c) => StartUnregisterHasSameLogs(s.(peers := s.peers[c := s.peers[c].(writer := Ready)]), c);
      case TaskReports(id) =>
        StartUnregisterHasSameLogs(s.(tasks := s.tasks[id := s.tasks[id].(phase := Over)]), s.tasks[id].conn);
      case Delete =>
      case CloseChannel =>
    }
  }

  lemma UnregisterGrows(s: State, step: UnregisterStep)
    requires UnregisterEnabled(s, step)
    ensures Grows(s, DoUnregister(s, step))
  {
    UnregisterHasSameLogs(s, step);
    SameLogsGrow(s, DoUnregister(s, step));
  }

  lemma TaskKeepsArchive(s: State, step: TaskStep)
    requires ArchiveOk(s) && TaskEnabled(s, step)
    ensures ArchiveOk(DoTask(s, step))
  {
    SameLogsGrow(s, DoTask(s, step));
    GrowingKeepsArchive(s, DoTask(s, step));
  }

  lemma StepKeepsArchive(s: State, step: Step)
    requires Safe(s) && ViewsOk(s) && ArchiveOk(s) && Enabled(s, step)
    ensures ArchiveOk(Do(s, step))
  {
    match step
    case Outer(o) => OuterKeepsArchive(s, o);
    case Registration(r) => RegisterKeepsArchive(s, r);
    case Service(v) => ServeKeepsArchive(s, v);
    case Unregistration(u) => UnregisterKeepsArchive(s, u);
    case Request(t) => TaskKeepsArchive(s, t);
  }

  lemma {:induction false} RunKeepsArchive(archive: seq<Item>, steps: seq<Step>)
    requires Legal(Init(archive), steps)
    ensures ArchiveOk(Exec(Init(archive), steps)) && Exec(Init(archive), steps).archive == archive
    decreases |steps|
  {
    if steps != [] {
      var front, s := steps[..|steps| - 1], Exec(Init(archive), steps[..|steps| - 1]);
      RunKeepsArchive(archive, front);
      RunIsSafe(archive, front);
      RunKeepsViews(archive, front);
      StepKeepsArchive(s, steps[|steps| - 1]);
      StepKeepsTheArchive(s, steps[|steps| - 1]);
    }
  }

  lemma StepKeepsTheArchive(s: State, step: Step)
    requires Enabled(s, step)
    ensures Do(s, step).archive == s.archive
  {
    match step
    case Outer(o) =>
    case Registration(r) => RegisterKeepsTheArchive(s, r);
    case Service(v) => ServeKeepsTheArchive(s, v);
    case Unregistration(u) => UnregisterGrows(s, u);
    case Request(t) =>
  }

  lemma RegisterKeepsTheArchive(s: State, step: RegisterStep)
    requires RegisterEnabled(s, step)
    ensures DoRegister(s, step).archive == s.archive
  {
  }

  lemma ServeKeepsTheArchive(s: State, step: ServeStep)
    requires ServeEnabled(s, step)
    ensures DoServe(s, step).archive == s.archive
  {
    if step.HubHands? {
      ResumeGrows(HandOver(s, s.hub.conn, s.hub.message), s.hub.conn, s.hub.message, s.hub.next);
    } else {
      ServeGrows(s, step);
    }
  }

  // ------------------------------------------------------------------ what followers have

  lemma {:induction false} OnlyHubItems(received: seq<Delivery>, k: Kind)
    requires forall d <- received :: !d.byHub ==> IsAnswer(d.message)
    ensures ItemsOf(Everything(received), All(k)) == ItemsOf(ByHub(received), All(k))
  {
    if received != [] {
      var front, last := received[..|received| - 1], received[|received| - 1];
      assert received == front + [last];
      OnlyHubItems(front, k);
      EverythingAppend(front, last);
      ByHubAppend(front, last);
      ItemsOfAppend(Everything(front), last.message, All(k));
      assert ByHub(front) + [] == ByHub(front);
      if last.byHub { ItemsOfAppend(ByHub(front), last.message, All(k)); }
    }
  }

  lemma FollowersHaveHubItems(s: State, c: Conn, k: Kind)
    requires Reachable(s) && c in s.peers
    ensures ReceivedItems(s, c, All(k)) == HandedItems(s.peers, c, All(k))
  {
    var archive, steps :| Legal(Init(archive), steps) && s == Exec(Init(archive), steps);
    RunKeepsLogs(archive, steps);
    forall d | d in s.peers[c].received && !d.byHub ensures IsAnswer(d.message) {
      assert OnlyAsked(s, c, s.peers[c].received);
    }
    OnlyHubItems(s.peers[c].received, k);
  }

  /** In every run, what a follower of workflows received begins with the archive that the hub started with. */
  lemma TheArchiveComesFirst(archive: seq<Item>, steps: seq<Step>, c: Conn)
    requires Legal(Init(archive), steps)
    requires Follows(Exec(Init(archive), steps), c, All(WorkflowKind))
    ensures archive <= ReceivedItems(Exec(Init(archive), steps), c, All(WorkflowKind))
  {
    var s := Exec(Init(archive), steps);
    RunKeepsArchive(archive, steps);
    assert Reachable(s);
    FollowersHaveHubItems(s, c, WorkflowKind);
    assert Served(s, c);
  }

  /** So a client shows an archived workflow as it was archived, until something it received tells otherwise. */
  lemma ArchivedWorkflowsAreShown(archive: seq<Item>, steps: seq<Step>, c: Conn, key: string)
    requires Legal(Init(archive), steps)
    requires Follows(Exec(Init(archive), steps), c, All(WorkflowKind))
    ensures var s, t := Exec(Init(archive), steps), All(WorkflowKind);
      var received := ReceivedItems(s, c, t);
      && archive <= received
      && var later := received[|archive|..] + InFlight(s.hub, c, t) + Pending(s, t);
         !Touches(later, key) ==>
           Settle(None, received + InFlight(s.hub, c, t) + Pending(s, t), key) == Settle(None, archive, key)
  {
    var s, t := Exec(Init(archive), steps), All(WorkflowKind);
    TheArchiveComesFirst(archive, steps, c);
    var received := ReceivedItems(s, c, t);
    var later := received[|archive|..] + InFlight(s.hub, c, t) + Pending(s, t);
    assert received + InFlight(s.hub, c, t) + Pending(s, t) == archive + later;
    if !Touches(later, key) { UntouchedTail(archive, later, key); }
  }
}

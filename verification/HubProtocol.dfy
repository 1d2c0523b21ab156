/**
 The hub as a protocol of goroutines: the hub loop, one writer and one reader per connection, the four
 initial senders of a registration, the request goroutines that send on their own (log streams, pod
 fetches, syncs), and the informers. Channels are unbuffered, so a send and its receive are one step.
 A select that sends with a cancelled context as its other case is `Skips`; a send on a closed channel
 is `Panics`. `client.List` reads the informer's store and may fail; so may `WriteJSON`.
 */
module HubProtocol {
  import opened Messages
  import opened HubModel

  type Conn = nat

  datatype Source = KindSource(kind: Kind) | PodSource

  datatype Writer =
    | Ready        // receiving from writeChan
    | Writing      // inside WriteJSON
    | Complaining  // WriteJSON failed: blocked sending to unregister
    | Finished     // writeChan closed and drained

  datatype Reader = Waiting | Reading | Asking(topic: Topic) | Leaving | Left

  datatype Peer = Peer(
    aux: bool,
    live: bool,                // ctx not cancelled
    open: bool,                // writeChan not closed
    closed: nat,               // how often writeChan was closed
    writer: Writer,
    reader: Reader,
    handed: seq<Message>,      // what the hub and the initial senders handed to the writer
    received: seq<Delivery>)   // everything the writer received

  // `byHub` tells the messages of `handed` from those of request goroutines.
  datatype Delivery = Delivery(message: Message, byHub: bool)

  // One of the goroutines registerConn waits for.
  datatype Sender = Listing | Sending(message: Message, failed: bool) | Resigning | Returned

  predicate HasFailed(x: Sender) { x.Resigning? || (x.Sending? && x.failed) }

  datatype Then =
    | ThenSubscribe(topic: Topic)
    | ThenSelfReport
    | ThenRound(event: Event, rest: set<Conn>)

  datatype HubPoint =
    | Select
    | Registering(conn: Conn, senders: map<Kind, Sender>)
    | PodListing(conn: Conn, topic: Topic)
    | Offering(conn: Conn, message: Message, next: Then)   // inside sendConn's select
    | Round(event: Event, rest: set<Conn>)                 // ranging over conns or subscribers
    | SelfReporting(conn: Conn)                            // the hub sends to its own unregister
    | Cancelled(conn: Conn)                                // unregisterConn after step 1
    | Deleted(conn: Conn)                                  // unregisterConn after step 2

  datatype Phase = Checking | Entering | Blocked | Reporting | Over

  // A request goroutine calling sendConn once, and then unregister when `closes`.
  datatype Task = Task(conn: Conn, message: Message, closes: bool, phase: Phase)

  datatype Panic = HubSend | InitialSend | BlockedSend | DoubleClose | LateSend

  datatype State = State(
    hub: HubPoint,
    conns: set<Conn>,
    subs: map<Topic, set<Conn>>,
    peers: map<Conn, Peer>,
    tasks: map<nat, Task>,
    stores: map<Topic, Store>,
    missed: set<(Topic, string)>,       // the keys whose last change in the store no event told of
    queues: map<Source, seq<Event>>,
    archive: seq<Item>,                 // mysqlWorkflows
    panics: set<Panic>,
    history: seq<Request<Conn>>)        // the requests the hub has finished, oldest first

  // Informers, readers and writers.
  datatype OuterStep =
    | Change(topic: Topic, item: Item) | Missed(topic: Topic, item: Item)
    | Ask(conn: Conn, topic: Topic) | Spawn(conn: Conn, id: nat, message: Message, closes: bool) | Hangup(conn: Conn)
    | WriteOk(conn: Conn) | WriteFail(conn: Conn) | WriterExits(conn: Conn)

  // registerConn and the senders it waits for.
  datatype RegisterStep =
    | Register(conn: Conn, aux: bool)
    | ListOk(kind: Kind, items: seq<Item>) | ListFail(kind: Kind)
    | SenderHands(kind: Kind) | SenderSkips(kind: Kind) | SenderPanics(kind: Kind)
    | RegisterDone

  // The hub serving subscribe, notifyAll and notifySubscriptions.
  datatype ServeStep =
    | TakeSubscribe(conn: Conn) | PodListOk(items: seq<Item>) | PodListFail
    | HubHands | HubSkips | HubPanics
    | Receive(source: Source) | Next(conn: Conn) | RoundDone

  // unregisterConn, asked for by a reader, a writer or a request goroutine.
  datatype UnregisterStep =
    | ReaderReports(conn: Conn) | WriterReports(conn: Conn) | TaskReports(id: nat)
    | Delete | CloseChannel

  datatype TaskStep =
    | TaskChecks(id: nat) | TaskBlocks(id: nat) | TaskHands(id: nat) | TaskSkips(id: nat) | TaskPanics(id: nat)

  datatype Step =
    | Outer(outer: OuterStep)
    | Registration(register: RegisterStep)
    | Service(serve: ServeStep)
    | Unregistration(unregister: UnregisterStep)
    | Request(task: TaskStep)

  function Init(archive: seq<Item>): State {
    State(Select, {}, map[], map[], map[], map[], {}, map[], archive, {}, [])
  }

  function SourceOf(t: Topic): Source {
    match t
    case All(k) => KindSource(k)
    case PodsOf(_, _) => PodSource
  }

  function StoreOf(s: State, t: Topic): Store { if t in s.stores then s.stores[t] else map[] }

  function StoreAfter(s: State, t: Topic, item: Item): Store {
    if item.deleted then StoreOf(s, t) - {item.key} else StoreOf(s, t)[item.key := item.body]
  }

  /** Events have told of what the store says about this key. */
  predicate Told(s: State, t: Topic, key: string) { (t, key) !in s.missed }

  function Queue(s: State, src: Source): seq<Event> { if src in s.queues then s.queues[src] else [] }

  /** The archived workflows that are put in front of a workflow list. */
  function Archived(s: State, t: Topic): seq<Item> { if t == All(WorkflowKind) then s.archive else [] }

  function StartSenders(): map<Kind, Sender> {
    map[FlowKind := Listing, ApplicationKind := Listing, RolloutKind := Listing, WorkflowKind := Listing]
  }

  predicate IsLive(s: State, c: Conn) { c in s.peers && s.peers[c].live }

  /** The channel send of a select: some writer receives on a channel that is still open. */
  predicate Receives(s: State, c: Conn) { c in s.peers && s.peers[c].open && s.peers[c].writer.Ready? }

  predicate TaskIn(s: State, id: nat, phase: Phase) {
    id in s.tasks && s.tasks[id].phase == phase && s.tasks[id].conn in s.peers
  }

  predicate IsSending(s: State, k: Kind) {
    s.hub.Registering? && k in s.hub.senders && s.hub.senders[k].Sending? && s.hub.conn in s.peers
  }

  /** What a request goroutine may send: sendPod answers with a list of one pod, which it got from the API server. */
  predicate IsAnswer(m: Message) { m.Resources? ==> m.topic.PodsOf? && |m.items| == 1 && !m.items[0].deleted }

  // Missed: a pod that changes its label leaves a topic without an event of that topic, a delete of unknown last state
  // is not handed on, and neither is anything about a pod without a label.
  ghost predicate OuterEnabled(s: State, step: OuterStep) {
    match step
    case Change(t, _) => t.PodsOf? ==> t.app != ""
    case Missed(t, item) => item.deleted || (t.PodsOf? && t.app == "")
    case Ask(c, t) => c in s.peers && s.peers[c].reader.Reading? && t.PodsOf?
    case Spawn(c, id, m, _) => c in s.peers && s.peers[c].reader.Reading? && id !in s.tasks && IsAnswer(m)
    case Hangup(c) => c in s.peers && s.peers[c].reader.Reading?
    case WriteOk(c) => c in s.peers && s.peers[c].writer.Writing?
    case WriteFail(c) => c in s.peers && s.peers[c].writer.Writing?
    case WriterExits(c) => c in s.peers && s.peers[c].writer.Ready? && !s.peers[c].open
  }

  ghost predicate RegisterEnabled(s: State, step: RegisterStep) {
    match step
    case Register(c, _) => s.hub.Select? && c !in s.peers
    case ListOk(k, items) =>
      s.hub.Registering? && k in s.hub.senders && s.hub.senders[k].Listing? && IsListing(items, StoreOf(s, All(k)))
    case ListFail(k) => s.hub.Registering? && k in s.hub.senders && s.hub.senders[k].Listing?
    case SenderHands(k) => IsSending(s, k) && Receives(s, s.hub.conn)
    case SenderSkips(k) => IsSending(s, k) && !s.peers[s.hub.conn].live
    case SenderPanics(k) => IsSending(s, k) && !s.peers[s.hub.conn].open
    case RegisterDone =>
      s.hub.Registering? && s.hub.conn in s.peers && forall k <- s.hub.senders :: s.hub.senders[k].Returned?
  }

  ghost predicate ServeEnabled(s: State, step: ServeStep) {
    match step
    case TakeSubscribe(c) => s.hub.Select? && c in s.peers && s.peers[c].reader.Asking?
    case PodListOk(items) => s.hub.PodListing? && IsListing(items, StoreOf(s, s.hub.topic))
    case PodListFail => s.hub.PodListing?
    case HubHands => s.hub.Offering? && Receives(s, s.hub.conn)
    case HubSkips => s.hub.Offering? && !IsLive(s, s.hub.conn)
    case HubPanics => s.hub.Offering? && s.hub.conn in s.peers && !s.peers[s.hub.conn].open
    case Receive(src) => s.hub.Select? && Queue(s, src) != []
    case Next(c) => s.hub.Round? && c in s.hub.rest && c in s.peers
    case RoundDone => s.hub.Round? && s.hub.rest == {}
  }

  ghost predicate UnregisterEnabled(s: State, step: UnregisterStep) {
    match step
    case ReaderReports(c) => s.hub.Select? && c in s.peers && s.peers[c].reader.Leaving?
    case WriterReports(c) => s.hub.Select? && c in s.peers && s.peers[c].writer.Complaining?
    case TaskReports(id) => s.hub.Select? && TaskIn(s, id, Reporting)
    case Delete => s.hub.Cancelled?
    case CloseChannel => s.hub.Deleted? && s.hub.conn in s.peers
  }

  ghost predicate TaskEnabled(s: State, step: TaskStep) {
    match step
    case TaskChecks(id) => TaskIn(s, id, Checking)
    case TaskBlocks(id) => TaskIn(s, id, Entering) && s.peers[s.tasks[id].conn].live && s.peers[s.tasks[id].conn].open
    case TaskHands(id) => (TaskIn(s, id, Entering) || TaskIn(s, id, Blocked)) && Receives(s, s.tasks[id].conn)
    case TaskSkips(id) => TaskIn(s, id, Entering) && !s.peers[s.tasks[id].conn].live
    case TaskPanics(id) => TaskIn(s, id, Entering) && !s.peers[s.tasks[id].conn].open
  }

  ghost predicate Enabled(s: State, step: Step) {
    match step
    case Outer(o) => OuterEnabled(s, o)
    case Registration(r) => RegisterEnabled(s, r)
    case Service(v) => ServeEnabled(s, v)
    case Unregistration(u) => UnregisterEnabled(s, u)
    case Request(t) => TaskEnabled(s, t)
  }

  function HandOver(s: State, c: Conn, m: Message): State
    requires c in s.peers
  {
    var p := s.peers[c];
    s.(peers := s.peers[c :=
         p.(handed := p.handed + [m], received := p.received + [Delivery(m, true)], writer := Writing)])
  }

  function HandAnswer(s: State, c: Conn, m: Message): State
    requires c in s.peers
  {
    s.(peers := s.peers[c := s.peers[c].(received := s.peers[c].received + [Delivery(m, false)], writer := Writing)])
  }

  function AfterSend(t: Task): Task { t.(phase := if t.closes then Reporting else Over) }

  function SetSender(s: State, k: Kind, x: Sender): State
    requires s.hub.Registering?
  {
    s.(hub := Registering(s.hub.conn, s.hub.senders[k := x]))
  }

  /** What the hub does once its sendConn has returned. */
  function Resume(s: State, c: Conn, m: Message, next: Then): State {
    match next
    case ThenSubscribe(t) =>
      s.(hub := Select, subs := s.subs[t := Subs(s.subs, t) + {c}], history := s.history + [Subscribed(c, t, m)])
    case ThenSelfReport => s.(hub := SelfReporting(c))
    case ThenRound(e, rest) => s.(hub := Round(e, rest))
  }

  /** sendConn from the hub: the check of the context, and then its select or nothing. */
  function HubSends(s: State, c: Conn, m: Message, next: Then): State {
    if IsLive(s, c) then s.(hub := Offering(c, m, next)) else Resume(s, c, m, next)
  }

  /** unregisterConn up to cancelling the context, which ends every select blocked on it. */
  function StartUnregister(s: State, c: Conn): State
    requires c in s.peers
  {
    if c !in s.conns then s.(history := s.history + [Dropped(c)])
    else
      s.(hub := Cancelled(c),
         peers := s.peers[c := s.peers[c].(live := false)],
         tasks := map id | id in s.tasks ::
           if s.tasks[id].conn == c && s.tasks[id].phase.Blocked? then AfterSend(s.tasks[id]) else s.tasks[id])
  }

  ghost predicate SenderBlockedOn(s: State, c: Conn) {
    exists id :: id in s.tasks && s.tasks[id].conn == c && s.tasks[id].phase.Blocked?
  }

  ghost function DoOuter(s: State, step: OuterStep): State
    requires OuterEnabled(s, step)
  {
    match step
    case Change(t, item) =>
      s.(stores := s.stores[t := StoreAfter(s, t, item)], missed := s.missed - {(t, item.key)},
         queues := s.queues[SourceOf(t) := Queue(s, SourceOf(t)) + [Event(t, item)]])
    case Missed(t, item) =>
      s.(stores := s.stores[t := StoreAfter(s, t, item)], missed := s.missed + {(t, item.key)})
    case Ask(c, t) => s.(peers := s.peers[c := s.peers[c].(reader := Asking(t))])
    case Spawn(c, id, m, closes) => s.(tasks := s.tasks[id := Task(c, m, closes, Checking)])
    case Hangup(c) => s.(peers := s.peers[c := s.peers[c].(reader := Leaving)])
    case WriteOk(c) => s.(peers := s.peers[c := s.peers[c].(writer := Ready)])
    case WriteFail(c) => s.(peers := s.peers[c := s.peers[c].(writer := Complaining)])
    case WriterExits(c) => s.(peers := s.peers[c := s.peers[c].(writer := Finished)])
  }

  ghost function DoRegister(s: State, step: RegisterStep): State
    requires RegisterEnabled(s, step)
  {
    match step
    case Register(c, aux) =>
      var p := Peer(aux, true, true, 0, Ready, if aux then Reading else Waiting, [], []);
      if aux then
        s.(peers := s.peers[c := p], conns := s.conns + {c}, history := s.history + [Joined(c, true, [])])
      else
        s.(peers := s.peers[c := p], hub := Registering(c, StartSenders()))
    case ListOk(k, items) =>
      SetSender(s, k, Sending(Resources(All(k), Archived(s, All(k)) + items), false))
    case ListFail(k) => SetSender(s, k, Sending(WebError("List"), true))
    case SenderHands(k) =>
      SetSender(HandOver(s, s.hub.conn, s.hub.senders[k].message), k,
                if s.hub.senders[k].failed then Resigning else Returned)
    case SenderSkips(k) => SetSender(s, k, if s.hub.senders[k].failed then Resigning else Returned)
    case SenderPanics(k) => s.(panics := s.panics + {InitialSend})
    case RegisterDone =>
      var c := s.hub.conn;
      s.(hub := Select, conns := s.conns + {c}, peers := s.peers[c := s.peers[c].(reader := Reading)],
         history := s.history + [Joined(c, false, s.peers[c].handed)])
  }

  ghost function DoServe(s: State, step: ServeStep): State
    requires ServeEnabled(s, step)
  {
    match step
    case TakeSubscribe(c) =>
      var t := s.peers[c].reader.topic;
      var s1 := s.(peers := s.peers[c := s.peers[c].(reader := Reading)], subs := s.subs[t := Subs(s.subs, t)]);
      if c in Subs(s.subs, t) then s1.(history := s.history + [Subscribed(c, t, Resources(t, []))])
      else s1.(hub := PodListing(c, t))
    case PodListOk(items) =>
      HubSends(s, s.hub.conn, Resources(s.hub.topic, items), ThenSubscribe(s.hub.topic))
    case PodListFail => HubSends(s, s.hub.conn, WebError("PodList"), ThenSelfReport)
    case HubHands => Resume(HandOver(s, s.hub.conn, s.hub.message), s.hub.conn, s.hub.message, s.hub.next)
    case HubSkips => Resume(s, s.hub.conn, s.hub.message, s.hub.next)
    case HubPanics => s.(panics := s.panics + {HubSend})
    case Receive(src) =>
      var e := Queue(s, src)[0];
      s.(queues := s.queues[src := Queue(s, src)[1..]],
         hub := Round(e, if e.topic.All? then s.conns else Subs(s.subs, e.topic)))
    case Next(c) =>
      var e, rest := s.hub.event, s.hub.rest - {c};
      if e.topic.All? then
        if s.peers[c].aux then s.(hub := Round(e, rest))
        else HubSends(s, c, EventMessage(e), ThenRound(e, rest))
      else if c !in s.conns then
        s.(hub := Round(e, rest), subs := s.subs[e.topic := Subs(s.subs, e.topic) - {c}])
      else HubSends(s, c, EventMessage(e), ThenRound(e, rest))
    case RoundDone => s.(hub := Select, history := s.history + [Notified(s.hub.event)])
  }

  ghost function DoUnregister(s: State, step: UnregisterStep): State
    requires UnregisterEnabled(s, step)
  {
    match step
    case ReaderReports(c) => StartUnregister(s.(peers := s.peers[c := s.peers[c].(reader := Left)]), c)
    case WriterReports(c) => StartUnregister(s.(peers := s.peers[c := s.peers[c].(writer := Ready)]), c)
    case TaskReports(id) =>
      StartUnregister(s.(tasks := s.tasks[id := s.tasks[id].(phase := Over)]), s.tasks[id].conn)
    case Delete => s.(hub := Deleted(s.hub.conn), conns := s.conns - {s.hub.conn})
    case CloseChannel =>
      var c := s.hub.conn;
      s.(hub := Select,
         peers := s.peers[c := s.peers[c].(open := false, closed := s.peers[c].closed + 1)],
         panics := s.panics + (if s.peers[c].open then {} else {DoubleClose})
                            + (if SenderBlockedOn(s, c) then {BlockedSend} else {}),
         history := s.history + [Dropped(c)])
  }

  ghost function DoTask(s: State, step: TaskStep): State
    requires TaskEnabled(s, step)
  {
    match step
    case TaskChecks(id) =>
      var t := s.tasks[id];
      s.(tasks := s.tasks[id := if s.peers[t.conn].live then t.(phase := Entering) else AfterSend(t)])
    case TaskBlocks(id) => s.(tasks := s.tasks[id := s.tasks[id].(phase := Blocked)])
    case TaskHands(id) =>
      HandAnswer(s, s.tasks[id].conn, s.tasks[id].message).(tasks := s.tasks[id := AfterSend(s.tasks[id])])
    case TaskSkips(id) => s.(tasks := s.tasks[id := AfterSend(s.tasks[id])])
    case TaskPanics(id) => s.(panics := s.panics + {LateSend})
  }

  ghost function Do(s: State, step: Step): State
    requires Enabled(s, step)
  {
    match step
    case Outer(o) => DoOuter(s, o)
    case Registration(r) => DoRegister(s, r)
    case Service(v) => DoServe(s, v)
    case Unregistration(u) => DoUnregister(s, u)
    case Request(t) => DoTask(s, t)
  }

  /** A run: every step is enabled where it is taken. */
  ghost predicate Legal(s: State, steps: seq<Step>)
    decreases |steps|, 0
  {
    steps == [] ||
    (Legal(s, steps[..|steps| - 1]) && Enabled(Exec(s, steps[..|steps| - 1]), steps[|steps| - 1]))
  }

  ghost function Exec(s: State, steps: seq<Step>): State
    requires Legal(s, steps)
    decreases |steps|, 1
  {
    if steps == [] then s
    else Do(Exec(s, steps[..|steps| - 1]), steps[|steps| - 1])
  }

  ghost predicate Reachable(s: State) {
    exists archive, steps :: Legal(Init(archive), steps) && s == Exec(Init(archive), steps)
  }

  lemma ReachableInit(archive: seq<Item>)
    ensures Reachable(Init(archive))
  {
    assert Legal(Init(archive), []) && Exec(Init(archive), []) == Init(archive);
  }

  lemma ReachableStep(s: State, step: Step)
    requires Reachable(s) && Enabled(s, step)
    ensures Reachable(Do(s, step))
  {
    var archive, steps :| Legal(Init(archive), steps) && s == Exec(Init(archive), steps);
    var longer := steps + [step];
    assert longer[..|longer| - 1] == steps;
    assert Legal(Init(archive), longer) && Exec(Init(archive), longer) == Do(s, step);
  }
}

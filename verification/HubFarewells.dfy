/** Connections that ask to be left alone: those that leave, and those opened with aux=true. */
module HubFarewells {
  import opened Messages
  import opened HubProtocol
  import opened HubSafety
  import opened HubAnswers
  import opened HubArchive

  // ------------------------------------------------------------------ leaving

  predicate Cancels(s: State, c: Conn) { c in s.peers && !s.peers[c].live }

  // Contexts stay cancelled, and whoever leaves in this step is cancelled in it.
  ghost predicate PeersFade(s: State, s': State) {
    && (forall c <- s.peers :: c in s'.peers && (s'.peers[c].live ==> s.peers[c].live))
    && (forall c <- s'.peers | s'.peers[c].reader.Left? ::
          (c in s.peers && s.peers[c].reader.Left?) || !s'.peers[c].live)
  }

  // A goroutine that is to close its connection is not over before it has.
  predicate IsDone(t: Task) { t.closes && t.phase.Over? }

  /** A request goroutine whose connection is cancelled, and that is not in its select. */
  predicate IsQuiet(s: State, id: nat) {
    && id in s.tasks && Cancels(s, s.tasks[id].conn)
    && (s.tasks[id].phase.Checking? || s.tasks[id].phase.Reporting? || s.tasks[id].phase.Over?)
  }

  ghost predicate TasksFade(s: State, s': State) {
    && (forall id <- s.tasks :: id in s'.tasks && s'.tasks[id].conn == s.tasks[id].conn)
    && (forall id <- s.tasks :: IsQuiet(s, id) ==> IsQuiet(s', id))
    && (forall id <- s'.tasks | IsDone(s'.tasks[id]) ::
          (id in s.tasks && IsDone(s.tasks[id])) || Cancels(s', s'.tasks[id].conn))
  }

  ghost predicate Fades(s: State, s': State) { PeersFade(s, s') && TasksFade(s, s') }

  lemma SameTasksFade(s: State, s': State)
    requires PeersFade(s, s') && s'.tasks == s.tasks
    ensures Fades(s, s')
  {
  }

  lemma OuterFades(s: State, step: OuterStep)
    requires OuterEnabled(s, step)
    ensures Fades(s, DoOuter(s, step))
  {
  }

  lemma RegisterFades(s: State, step: RegisterStep)
    requires RegisterEnabled(s, step)
    ensures Fades(s, DoRegister(s, step))
  {
    RegisterFadesPeers(s, step);
    SameTasksFade(s, DoRegister(s, step));
  }

  lemma RegisterFadesPeers(s: State, step: RegisterStep)
    requires RegisterEnabled(s, step)
    ensures PeersFade(s, DoRegister(s, step)) && DoRegister(s, step).tasks == s.tasks
  {
  }

  lemma ServeFadesPeers(s: State, step: ServeStep)
    requires ServeEnabled(s, step)
    ensures PeersFade(s, DoServe(s, step)) && DoServe(s, step).tasks == s.tasks
  {
    if step.HubHands? {
      ResumeMovesNoPeers(HandOver(s, s.hub.conn, s.hub.message), s.hub.conn, s.hub.message, s.hub.next);
    } else if !step.TakeSubscribe? {
      ServeMovesNoPeers(s, step);
    }
  }

  lemma ServeFades(s: State, step: ServeStep)
    requires ServeEnabled(s, step)
    ensures Fades(s, DoServe(s, step))
  {
    ServeFadesPeers(s, step);
    SameTasksFade(s, DoServe(s, step));
  }

  // Before an unregistration starts: the report may have changed the reader, the writer or the task that sent it.
  ghost predicate SamePeersBut(s: State, m: State, c: Conn) {
    && m.conns == s.conns && m.peers.Keys == s.peers.Keys
    && forall d <- s.peers ::
         m.peers[d].live == s.peers[d].live && (d != c ==> m.peers[d].reader == s.peers[d].reader)
  }

  ghost predicate SameTasksBut(s: State, m: State, c: Conn) {
    && m.tasks.Keys == s.tasks.Keys
    && forall id <- s.tasks ::
         && m.tasks[id].conn == s.tasks[id].conn && (IsQuiet(s, id) ==> IsQuiet(m, id))
         && (IsDone(m.tasks[id]) ==> IsDone(s.tasks[id]) || m.tasks[id].conn == c)
  }

  // At the select, a connection that is not registered is cancelled; one that is gets cancelled.
  lemma StartFadesPeers(s: State, m: State, c: Conn)
    requires Safe(s) && s.hub.Select? && c in s.peers && SamePeersBut(s, m, c)
    ensures PeersFade(s, StartUnregister(m, c)) && Cancels(StartUnregister(m, c), c)
  {
    assert PeerOk(s, c);
  }

  lemma StartFadesTasks(m: State, c: Conn, id: nat)
    requires c in m.peers && id in m.tasks
    ensures var s' := StartUnregister(m, c);
      && s'.tasks.Keys == m.tasks.Keys && s'.tasks[id].conn == m.tasks[id].conn
      && (IsDone(s'.tasks[id]) ==> IsDone(m.tasks[id])) && (IsQuiet(m, id) ==> IsQuiet(s', id))
  {
  }

  lemma ReportFades(s: State, m: State, c: Conn)
    requires Safe(s) && s.hub.Select? && c in s.peers && SamePeersBut(s, m, c) && SameTasksBut(s, m, c)
    ensures Fades(s, StartUnregister(m, c))
  {
    StartFadesPeers(s, m, c);
    ReportFadesTasks(s, m, c);
  }

  lemma ReportFadesTasks(s: State, m: State, c: Conn)
    requires c in m.peers && SameTasksBut(s, m, c) && Cancels(StartUnregister(m, c), c)
    ensures TasksFade(s, StartUnregister(m, c))
  {
    var s' := StartUnregister(m, c);
    assert s'.tasks.Keys == m.tasks.Keys;
    forall id | id in s.tasks
      ensures s'.tasks[id].conn == s.tasks[id].conn && (IsQuiet(s, id) ==> IsQuiet(s', id))
      ensures IsDone(s'.tasks[id]) ==> IsDone(s.tasks[id]) || s'.tasks[id].conn == c
    {
      StartFadesTasks(m, c, id);
    }
  }

  lemma TaskReportFades(s: State, id: nat)
    requires Safe(s) && UnregisterEnabled(s, TaskReports(id))
    ensures Fades(s, DoUnregister(s, TaskReports(id)))
  {
    ReportFades(s, s.(tasks := s.tasks[id := s.tasks[id].(phase := Over)]), s.tasks[id].conn);
  }

  lemma UnregisterFades(s: State, step: UnregisterStep)
    requires Safe(s) && UnregisterEnabled(s, step)
    ensures Fades(s, DoUnregister(s, step))
  {
    match step {
      case ReaderReports(c) => ReportFades(s, s.(peers := s.peers[c := s.peers[c].(reader := Left)]), c);
      case WriterReports(c) => ReportFades(s, s.(peers := s.peers[c := s.peers[c].(writer := Ready)]), c);
      case TaskReports(id) => TaskReportFades(s, id);
      case Delete => SameTasksFade(s, DoUnregister(s, step));
      case CloseChannel => SameTasksFade(s, DoUnregister(s, step));
    }
  }

  lemma TaskFades(s: State, step: TaskStep)
    requires TaskEnabled(s, step)
    ensures Fades(s, DoTask(s, step))
  {
  }

  lemma StepFades(s: State, step: Step)
    requires Safe(s) && Enabled(s, step)
    ensures Fades(s, Do(s, step))
  {
    match step
    case Outer(o) => OuterFades(s, o);
    case Registration(r) => RegisterFades(s, r);
    case Service(v) => ServeFades(s, v);
    case Unregistration(u) => UnregisterFades(s, u);
    case Request(t) => TaskFades(s, t);
  }

  // Whoever has left is cancelled, and so is every connection that a goroutine has closed.
  ghost predicate PartedOk(s: State) {
    && (forall c <- s.peers | s.peers[c].reader.Left? :: !s.peers[c].live)
    && (forall id <- s.tasks | IsDone(s.tasks[id]) :: Cancels(s, s.tasks[id].conn))
  }

  lemma FadingKeepsParted(s: State, s': State)
    requires PartedOk(s) && Fades(s, s')
    ensures PartedOk(s')
  {
  }

  lemma {:induction false} RunKeepsParted(archive: seq<Item>, steps: seq<Step>)
    requires Legal(Init(archive), steps)
    ensures PartedOk(Exec(Init(archive), steps))
    decreases |steps|
  {
    if steps != [] {
      var front := steps[..|steps| - 1];
      RunKeepsParted(archive, front);
      RunIsSafe(archive, front);
      StepFades(Exec(Init(archive), front), steps[|steps| - 1]);
      FadingKeepsParted(Exec(Init(archive), front), Exec(Init(archive), steps));
    }
  }

  // The reader has left, or a request goroutine that is to close the connection is over.
  ghost predicate Parted(s: State, c: Conn) {
    (c in s.peers && s.peers[c].reader.Left?) || exists id <- s.tasks :: s.tasks[id].conn == c && IsDone(s.tasks[id])
  }

  /**
   In every run: once its reader has left, or a goroutine that failed on it is over, a connection is unregistered
   whenever the hub is back at its select, and its channel is closed.
   */
  lemma PartedConnectionsAreUnregistered(archive: seq<Item>, steps: seq<Step>, c: Conn)
    requires Legal(Init(archive), steps)
    requires Parted(Exec(Init(archive), steps), c) && Exec(Init(archive), steps).hub.Select?
    ensures var s := Exec(Init(archive), steps);
      c !in s.conns && c in s.peers && !s.peers[c].live && !s.peers[c].open && s.peers[c].closed == 1
  {
    var s := Exec(Init(archive), steps);
    RunKeepsParted(archive, steps);
    RunIsSafe(archive, steps);
    assert PeerOk(s, c);
  }

  // ------------------------------------------------------------------ calling sendConn too late

  ghost predicate CannotSend(s: State, id: nat) {
    !Enabled(s, Request(TaskHands(id))) && !Enabled(s, Request(TaskPanics(id)))
  }

  lemma QuietStep(s: State, step: Step, id: nat)
    requires Safe(s) && Enabled(s, step) && IsQuiet(s, id)
    ensures Safe(Do(s, step)) && IsQuiet(Do(s, step), id)
  {
    StepFades(s, step);
    StepKeepsSafe(s, step);
  }

  lemma {:induction false} StaysQuiet(s: State, steps: seq<Step>, id: nat)
    requires Safe(s) && IsQuiet(s, id) && Legal(s, steps)
    ensures Safe(Exec(s, steps)) && IsQuiet(Exec(s, steps), id)
    decreases |steps|
  {
    if steps != [] {
      var front := steps[..|steps| - 1];
      StaysQuiet(s, front, id);
      QuietStep(Exec(s, front), steps[|steps| - 1], id);
    }
  }

  /**
   A request goroutine that finds its connection cancelled when it calls sendConn never gets to send, and never
   panics, however the run goes on.
   */
  lemma WhoChecksInTimeStaysQuiet(s: State, steps: seq<Step>, id: nat)
    requires Safe(s) && IsQuiet(s, id) && Legal(s, steps)
    ensures Safe(Exec(s, steps)) && IsQuiet(Exec(s, steps), id) && CannotSend(Exec(s, steps), id)
  {
    StaysQuiet(s, steps, id);
  }

  // ------------------------------------------------------------------ auxiliary connections

  predicate IsBroadcast(m: Message) { m.Resources? && m.topic.All? }

  predicate Spared(p: Peer) { p.aux ==> forall m <- p.handed :: !IsBroadcast(m) }

  ghost predicate AuxOk(s: State) { forall c <- s.peers :: Spared(s.peers[c]) }

  // No peer becomes auxiliary, and none but `c` is handed anything.
  ghost predicate HandsOnlyTo(s: State, s': State, c: Conn) {
    forall d <- s'.peers ::
      || s'.peers[d].handed == []
      || (d in s.peers && s'.peers[d].aux == s.peers[d].aux && (s'.peers[d].handed == s.peers[d].handed || d == c))
  }

  lemma HandedIsSpared(s: State, s': State, c: Conn)
    requires AuxOk(s) && HandsOnlyTo(s, s', c) && (c in s'.peers ==> Spared(s'.peers[c]))
    ensures AuxOk(s')
  {
  }

  lemma RegisterSpares(s: State, step: RegisterStep)
    requires Safe(s) && AuxOk(s) && RegisterEnabled(s, step)
    ensures AuxOk(DoRegister(s, step))
  {
    HandedIsSpared(s, DoRegister(s, step), if step.Register? then step.conn else s.hub.conn);
  }

  lemma HubHandsSpares(s: State)
    requires Safe(s) && AuxOk(s) && ServeEnabled(s, HubHands)
    ensures AuxOk(DoServe(s, HubHands))
  {
    var c, m := s.hub.conn, s.hub.message;
    ResumeMovesNoPeers(HandOver(s, c, m), c, m, s.hub.next);
    assert Spared(s.peers[c]);
    assert s.peers[c].aux ==> !IsBroadcast(m);
    HandedIsSpared(s, DoServe(s, HubHands), c);
  }

  lemma ServeSpares(s: State, step: ServeStep)
    requires Safe(s) && AuxOk(s) && ServeEnabled(s, step)
    ensures AuxOk(DoServe(s, step))
  {
    if step.HubHands? {
      HubHandsSpares(s);
    } else if !step.TakeSubscribe? {
      ServeMovesNoPeers(s, step);
    }
  }

  lemma SameLogsSpare(s: State, s': State)
    requires AuxOk(s) && SameLogs(s, s')
    ensures AuxOk(s')
  {
  }

  lemma OuterHandsNothing(s: State, step: OuterStep)
    requires OuterEnabled(s, step)
    ensures SameLogs(s, DoOuter(s, step))
  {
  }

  lemma TaskHandsByItself(s: State, step: TaskStep)
    requires TaskEnabled(s, step)
    ensures SameLogs(s, DoTask(s, step))
  {
  }

  lemma StepSpares(s: State, step: Step)
    requires Safe(s) && AuxOk(s) && Enabled(s, step)
    ensures AuxOk(Do(s, step))
  {
    match step
    case Outer(o) =>
      OuterHandsNothing(s, o);
      SameLogsSpare(s, DoOuter(s, o));
    case Registration(r) => RegisterSpares(s, r);
    case Service(v) => ServeSpares(s, v);
    case Unregistration(u) =>
      UnregisterHasSameLogs(s, u);
      SameLogsSpare(s, DoUnregister(s, u));
    case Request(t) =>
      TaskHandsByItself(s, t);
      SameLogsSpare(s, DoTask(s, t));
  }

  lemma {:induction false} RunSpares(archive: seq<Item>, steps: seq<Step>)
    requires Legal(Init(archive), steps)
    ensures AuxOk(Exec(Init(archive), steps))
    decreases |steps|
  {
    if steps != [] {
      var front := steps[..|steps| - 1];
      RunSpares(archive, front);
      RunIsSafe(archive, front);
      StepSpares(Exec(Init(archive), front), steps[|steps| - 1]);
    }
  }

  /** In every run an auxiliary connection receives no list and no event of a broadcast kind, from anyone. */
  lemma AuxiliaryConnectionsAreSpared(archive: seq<Item>, steps: seq<Step>, c: Conn, d: Delivery)
    requires Legal(Init(archive), steps)
    requires var s := Exec(Init(archive), steps); c in s.peers && s.peers[c].aux && d in s.peers[c].received
    ensures !(d.message.Resources? && d.message.topic.All?)
  {
    var s := Exec(Init(archive), steps);
    RunSpares(archive, steps);
    RunKeepsLogs(archive, steps);
    assert Spared(s.peers[c]) && OnlyAsked(s, c, s.peers[c].received);
    if d.byHub { DeliveredByHub(s.peers[c].received, d); }
  }

  lemma {:induction false} DeliveredByHub(received: seq<Delivery>, d: Delivery)
    requires d in received && d.byHub
    ensures d.message in ByHub(received)
  {
    var front, last := received[..|received| - 1], received[|received| - 1];
    assert received == front + [last];
    if d in front { DeliveredByHub(front, d); }
  }
}

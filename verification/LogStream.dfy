/**
 The debounced log streamer: a goroutine that selects over the context, a timer and the channel of a scanning
 goroutine, and hands batches of lines to the connection's writer. `React` is one pass through its select.
 */
module LogStream {

  // Why streamLogLines returned: the stream ended, the scanner failed, or the context was cancelled.
  datatype Exit = Running | Ended | Failed | Abandoned

  datatype Stream = Stream(
    buffer: seq<string>,          // logLines
    armed: bool,                  // the timer will fire
    live: bool,                   // conn.ctx not cancelled
    handed: seq<seq<string>>,     // batches the writer received, with their content at that moment
    exit: Exit)

  // What the select found ready.
  datatype Outcome =
    | ContextDone
    | TimerFired
    | LineRead(line: string)
    // scanChan closed; the context may be cancelled between the last batch and the end marker
    | ScanClosed(failed: bool, cancelledMidway: bool)
    | Cancelled                 // not an arm: the hub cancels the context while the streamer waits

  function Start(live: bool): Stream { Stream([], true, live, [], Running) }

  predicate Ready(st: Stream, o: Outcome) {
    && st.exit.Running?
    && (o.ContextDone? ==> !st.live)
    && (o.TimerFired? ==> st.armed)
    && (o.ScanClosed? && o.cancelledMidway ==> st.live)
  }

  /** sendLogLines: sendConn skips a cancelled connection. */
  function Send(st: Stream, batch: seq<string>): Stream {
    if st.live then st.(handed := st.handed + [batch]) else st
  }

  function Flush(st: Stream): Stream {
    if st.buffer != [] then Send(st, st.buffer).(buffer := []) else st
  }

  function React(st: Stream, o: Outcome): Stream {
    match o
    case ContextDone => st.(exit := Abandoned)
    case TimerFired => Flush(st).(armed := false)
    case LineRead(line) => st.(buffer := st.buffer + [line], armed := true)
    case ScanClosed(failed, midway) =>
      if failed then st.(exit := Failed)
      else
        var flushed := Flush(st);
        Send(if midway then flushed.(live := false) else flushed, []).(exit := Ended)
    case Cancelled => st.(live := false)
  }

  function Lines(batches: seq<seq<string>>): seq<string> {
    if batches == [] then [] else Lines(batches[..|batches| - 1]) + batches[|batches| - 1]
  }

  lemma LinesAppend(batches: seq<seq<string>>, batch: seq<string>)
    ensures Lines(batches + [batch]) == Lines(batches) + batch
  {
    assert (batches + [batch])[..|batches + [batch]| - 1] == batches;
  }

  // ------------------------------------------------------------------ with the scanning goroutine

  // Scanning: past the check of the context, inside scanner.Scan().
  datatype Reader = AtLoopHead | Scanning | Holding(line: string) | Closed

  datatype System = System(
    stream: Stream,
    reader: Reader,
    read: nat,                // how many lines Scan has returned
    scanFailed: bool,         // scanner.Err() != nil
    received: seq<string>)    // what came through scanChan

  datatype Step =
    | Cancel                              // the hub cancels the context
    | Check | CheckFails                  // the loop head of readLogLines: the context, then Scan
    | Scan | ScanEnd | ScanFail
    | ReaderQuits                         // its select takes ctx.Done
    | Take                                // a line goes through scanChan
    | Fire
    | SeeDone
    | SeeClosed(cancelledMidway: bool)

  function Boot(live: bool): System { System(Start(live), AtLoopHead, 0, false, []) }

  /** `lines` is the content of the pod's log. */
  predicate Enabled(s: System, lines: seq<string>, step: Step) {
    match step
    case Cancel => true
    case Check => s.reader.AtLoopHead? && s.stream.live
    case CheckFails => s.reader.AtLoopHead? && !s.stream.live
    case Scan => s.reader.Scanning? && s.read < |lines|
    case ScanEnd => s.reader.Scanning? && (s.stream.live ==> s.read == |lines|)
    case ScanFail => s.reader.Scanning?
    case ReaderQuits => s.reader.Holding? && !s.stream.live
    case Take => s.reader.Holding? && s.stream.exit.Running?
    case Fire => Ready(s.stream, TimerFired)
    case SeeDone => Ready(s.stream, ContextDone)
    case SeeClosed(midway) => s.reader.Closed? && Ready(s.stream, ScanClosed(s.scanFailed, midway))
  }

  function Do(s: System, lines: seq<string>, step: Step): System
    requires Enabled(s, lines, step)
  {
    match step
    case Cancel => s.(stream := s.stream.(live := false))
    case Check => s.(reader := Scanning)
    case CheckFails => s.(reader := Closed)
    case Scan => s.(reader := Holding(lines[s.read]), read := s.read + 1)
    case ScanEnd => s.(reader := Closed)
    case ScanFail => s.(reader := Closed, scanFailed := true)
    case ReaderQuits => s.(reader := Closed)
    case Take =>
      s.(reader := AtLoopHead, received := s.received + [s.reader.line],
         stream := React(s.stream, LineRead(s.reader.line)))
    case Fire => s.(stream := React(s.stream, TimerFired))
    case SeeDone => s.(stream := React(s.stream, ContextDone))
    case SeeClosed(midway) => s.(stream := React(s.stream, ScanClosed(s.scanFailed, midway)))
  }

  predicate Legal(s: System, lines: seq<string>, steps: seq<Step>)
    decreases |steps|, 0
  {
    steps == [] ||
    (Legal(s, lines, steps[..|steps| - 1]) && Enabled(Exec(s, lines, steps[..|steps| - 1]), lines, steps[|steps| - 1]))
  }

  function Exec(s: System, lines: seq<string>, steps: seq<Step>): System
    requires Legal(s, lines, steps)
    decreases |steps|, 1
  {
    if steps == [] then s
    else Do(Exec(s, lines, steps[..|steps| - 1]), lines, steps[|steps| - 1])
  }

  // ------------------------------------------------------------------ what every run keeps

  predicate IsPrefix(a: seq<string>, b: seq<string>) { |a| <= |b| && a == b[..|a|] }

  ghost predicate ReaderOk(s: System, lines: seq<string>) {
    && s.read <= |lines|
    && IsPrefix(s.received, lines)
    && (s.reader.AtLoopHead? || s.reader.Scanning? ==> s.read == |s.received|)
    && (s.reader.Holding? ==> s.read == |s.received| + 1 && s.reader.line == lines[s.read - 1])
    && (s.reader.Closed? && s.stream.live && !s.scanFailed ==> s.received == lines)
  }

  ghost predicate BufferOk(st: Stream, received: seq<string>) {
    && IsPrefix(Lines(st.handed), received)
    && (st.live ==> Lines(st.handed) + st.buffer == received)
    && (st.buffer != [] && st.exit.Running? ==> st.armed)
  }

  ghost predicate MarkerOk(st: Stream, lines: seq<string>) {
    && (forall i :: 0 <= i < |st.handed| && st.handed[i] == [] ==> i == |st.handed| - 1 && st.exit.Ended?)
    && (st.exit.Ended? && st.live ==> st.handed != [] && st.handed[|st.handed| - 1] == [])
    && (st.handed != [] && st.handed[|st.handed| - 1] == [] ==> Lines(st.handed) == lines)
  }

  ghost predicate Conserved(s: System, lines: seq<string>) {
    && ReaderOk(s, lines)
    && BufferOk(s.stream, s.received)
    && MarkerOk(s.stream, lines)
    && (s.stream.exit.Failed? ==> s.scanFailed)
    && (s.stream.exit.Abandoned? ==> !s.stream.live)
    && (s.stream.exit.Ended? || s.stream.exit.Failed? ==> s.reader.Closed?)
  }

  lemma FlushKeepsBuffer(st: Stream, received: seq<string>)
    requires BufferOk(st, received)
    ensures BufferOk(Flush(st), received)
    ensures st.live ==> Lines(Flush(st).handed) == received
  {
    LinesAppend(st.handed, st.buffer);
  }

  lemma FlushKeepsMarker(st: Stream, lines: seq<string>)
    requires MarkerOk(st, lines) && st.exit.Running?
    ensures MarkerOk(Flush(st), lines)
  {
  }

  lemma EndKeepsBuffer(st: Stream, received: seq<string>, midway: bool)
    requires BufferOk(st, received) && st.exit.Running?
    ensures BufferOk(React(st, ScanClosed(false, midway)), received)
  {
    FlushKeepsBuffer(st, received);
    LinesAppend(Flush(st).handed, []);
  }

  lemma SendMarker(st: Stream, lines: seq<string>)
    requires MarkerOk(st, lines) && st.exit.Running? && (st.live ==> Lines(st.handed) == lines)
    ensures MarkerOk(Send(st, []).(exit := Ended), lines)
  {
    LinesAppend(st.handed, []);
    assert lines + [] == lines;
  }

  lemma EndKeepsMarker(st: Stream, lines: seq<string>, midway: bool)
    requires MarkerOk(st, lines) && st.exit.Running? && (st.live ==> BufferOk(st, lines))
    ensures MarkerOk(React(st, ScanClosed(false, midway)), lines)
  {
    FlushKeepsMarker(st, lines);
    if st.live { FlushKeepsBuffer(st, lines); }
    var flushed := Flush(st);
    SendMarker(if midway then flushed.(live := false) else flushed, lines);
  }

  lemma EndConserves(s: System, lines: seq<string>, midway: bool)
    requires Conserved(s, lines) && Enabled(s, lines, SeeClosed(midway))
    ensures Conserved(Do(s, lines, SeeClosed(midway)), lines)
  {
    if !s.scanFailed {
      EndKeepsBuffer(s.stream, s.received, midway);
      EndKeepsMarker(s.stream, lines, midway);
    }
  }

  lemma TakeConserves(s: System, lines: seq<string>)
    requires Conserved(s, lines) && Enabled(s, lines, Take)
    ensures Conserved(Do(s, lines, Take), lines)
  {
    var line := s.reader.line;
    assert Lines(s.stream.handed) + (s.stream.buffer + [line]) == Lines(s.stream.handed) + s.stream.buffer + [line];
  }

  lemma StepConserves(s: System, lines: seq<string>, step: Step)
    requires Conserved(s, lines) && Enabled(s, lines, step)
    ensures Conserved(Do(s, lines, step), lines)
  {
    match step
    case SeeClosed(midway) => EndConserves(s, lines, midway);
    case Take => TakeConserves(s, lines);
    case Fire =>
      FlushKeepsBuffer(s.stream, s.received);
      FlushKeepsMarker(s.stream, lines);
    case _ =>
  }

  lemma {:induction false} RunConserves(live: bool, lines: seq<string>, steps: seq<Step>)
    requires Legal(Boot(live), lines, steps)
    ensures Conserved(Exec(Boot(live), lines, steps), lines)
    decreases |steps|
  {
    if steps != [] {
      RunConserves(live, lines, steps[..|steps| - 1]);
      StepConserves(Exec(Boot(live), lines, steps[..|steps| - 1]), lines, steps[|steps| - 1]);
    }
  }

  /** While the context lives no line is lost or doubled, and a waiting line has a timer to flush it. */
  lemma BatchesPlusBufferAreWhatWasReceived(live: bool, lines: seq<string>, steps: seq<Step>)
    requires Legal(Boot(live), lines, steps)
    ensures var s := Exec(Boot(live), lines, steps);
      && (s.stream.live ==> Lines(s.stream.handed) + s.stream.buffer == s.received)
      && (s.stream.buffer != [] && s.stream.exit.Running? ==> Enabled(s, lines, Fire))
  {
    RunConserves(live, lines, steps);
  }

  /** In every run, cancelled and failing ones included, the batches are a prefix of the log. */
  lemma BatchesAreAPrefix(live: bool, lines: seq<string>, steps: seq<Step>)
    requires Legal(Boot(live), lines, steps)
    ensures IsPrefix(Lines(Exec(Boot(live), lines, steps).stream.handed), lines)
  {
    RunConserves(live, lines, steps);
  }

  /**
   An empty batch is handed over at most once, as the last one, and only after the whole log; a run that ends
   by itself with a live context has handed it over.
   */
  lemma EndMarkerMeansComplete(live: bool, lines: seq<string>, steps: seq<Step>, i: nat)
    requires Legal(Boot(live), lines, steps)
    ensures var st := Exec(Boot(live), lines, steps).stream;
      && (i < |st.handed| && st.handed[i] == [] ==>
            i == |st.handed| - 1 && st.exit.Ended? && Lines(st.handed[..i]) == lines)
      && (st.exit.Ended? && st.live ==>
            |st.handed| > 0 && st.handed[|st.handed| - 1] == [] && Lines(st.handed[..|st.handed| - 1]) == lines)
  {
    RunConserves(live, lines, steps);
    var st := Exec(Boot(live), lines, steps).stream;
    if st.handed != [] {
      var front := st.handed[..|st.handed| - 1];
      assert st.handed == front + [st.handed[|st.handed| - 1]];
      LinesAppend(front, st.handed[|st.handed| - 1]);
      assert Lines(front) + [] == Lines(front);
    }
  }

  /** A scanner error drops exactly the lines still in the buffer. */
  lemma FailureDropsTheBuffer(live: bool, lines: seq<string>, steps: seq<Step>)
    requires Legal(Boot(live), lines, steps)
    ensures var s := Exec(Boot(live), lines, steps);
      s.stream.exit.Failed? && s.stream.live ==> s.scanFailed && Lines(s.stream.handed) + s.stream.buffer == s.received
  {
    RunConserves(live, lines, steps);
  }

  // ------------------------------------------------------------------ debouncing

  /** A line that arrives is only put aside, and the timer is set for it. */
  lemma LinesAreOnlyPutAside(s: System, lines: seq<string>)
    requires Enabled(s, lines, Take)
    ensures var st := Do(s, lines, Take).stream;
      st.handed == s.stream.handed && st.buffer == s.stream.buffer + [s.reader.line] && st.armed
  {
  }

  /** The timer hands over all that was put aside as one batch, or nothing at all. */
  lemma TheTimerHandsOneBatch(s: System, lines: seq<string>)
    requires Enabled(s, lines, Fire) && s.stream.live
    ensures var st := Do(s, lines, Fire).stream;
      && st.handed == (if s.stream.buffer == [] then s.stream.handed else s.stream.handed + [s.stream.buffer])
      && st.buffer == [] && !st.armed
  {
  }

  function Fires(steps: seq<Step>): nat {
    if steps == [] then 0 else Fires(steps[..|steps| - 1]) + if steps[|steps| - 1].Fire? then 1 else 0
  }

  /** However many lines arrive, there is at most one message for each time the timer fires, and two for the end. */
  lemma {:induction false} BatchesAreDebounced(live: bool, lines: seq<string>, steps: seq<Step>)
    requires Legal(Boot(live), lines, steps)
    ensures var st := Exec(Boot(live), lines, steps).stream;
      |st.handed| <= Fires(steps) + if st.exit.Ended? then 2 else 0
    decreases |steps|
  {
    if steps != [] { BatchesAreDebounced(live, lines, steps[..|steps| - 1]); }
  }

  /**
   However streamLogLines returned, the scanning goroutine can return with its next step, wherever it is; and since
   the context is cancelled by then, it cannot go round its loop again.
   */
  lemma ReaderNeverLeaks(live: bool, lines: seq<string>, steps: seq<Step>) returns (last: Step)
    requires Legal(Boot(live), lines, steps)
    requires !Exec(Boot(live), lines, steps).stream.exit.Running? && !Exec(Boot(live), lines, steps).reader.Closed?
    ensures var s := Exec(Boot(live), lines, steps);
      && Enabled(s, lines, last) && Do(s, lines, last).reader.Closed?
      && !Enabled(s, lines, Check) && !Enabled(s, lines, Take)
  {
    var s := Exec(Boot(live), lines, steps);
    RunConserves(live, lines, steps);
    last := if s.reader.AtLoopHead? then CheckFails else if s.reader.Scanning? then ScanEnd else ReaderQuits;
  }

  // ------------------------------------------------------------------ the loop itself

  function Reacted(st: Stream, outcomes: seq<Outcome>): Stream {
    if outcomes == [] then st
    else React(Reacted(st, outcomes[..|outcomes| - 1]), outcomes[|outcomes| - 1])
  }

  class LogStreamer {
    var logLines: seq<string>
    var timerArmed: bool
    var connLive: bool
    var handed: seq<seq<string>>
    var exit: Exit

    function View(): Stream
      reads this
    {
      Stream(logLines, timerArmed, connLive, handed, exit)
    }

    constructor (live: bool)
      ensures View() == Start(live)
    {
      logLines, timerArmed, connLive, handed, exit := [], true, live, [], Running;
    }

    method SendLogLines(lines: seq<string>)
      modifies this`handed
      ensures View() == Send(old(View()), lines)
    {
      if connLive {
        handed := handed + [lines];
      }
    }

    /** The select loop over one sequence of outcomes, up to the one that makes it return. */
    method StreamLogLines(outcomes: seq<Outcome>) returns (n: nat)
      requires View().exit.Running?
      modifies this
      ensures n <= |outcomes| && View() == Reacted(old(View()), outcomes[..n])
      ensures exit.Running? ==> n == |outcomes|
      ensures forall k | 0 <= k < n :: Reacted(old(View()), outcomes[..k]).exit.Running?
    {
      n := 0;
      while n < |outcomes| && exit.Running?
        invariant n <= |outcomes|
        invariant View() == Reacted(old(View()), outcomes[..n])
        invariant forall k | 0 <= k < n :: Reacted(old(View()), outcomes[..k]).exit.Running?
        decreases |outcomes| - n
      {
        ghost var before := View();
        assert outcomes[..n + 1][..n] == outcomes[..n];
        match outcomes[n] {
          case Cancelled =>
            connLive := false;
          case ContextDone =>
            exit := Abandoned;
          case TimerFired =>
            timerArmed := false;
            if |logLines| > 0 {
              SendLogLines(logLines);
              logLines := [];
            }
          case LineRead(line) =>
            logLines := logLines + [line];
            timerArmed := true;
          case ScanClosed(failed, cancelledMidway) =>
            if failed {
              exit := Failed;
            } else {
              if |logLines| > 0 {
                SendLogLines(logLines);
                logLines := [];
              }
              if cancelledMidway {
                connLive := false;
              }
              SendLogLines([]);
              exit := Ended;
            }
        }
        assert View() == React(before, outcomes[n]);
        n := n + 1;
      }
    }
  }
}

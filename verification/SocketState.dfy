/**
 The receiving side of a socket stream: the callbacks of the protocol, and `receive()` of a
 single guarded reader, split where it waits.
 */
module SocketState {
  import opened Tasks
  import opened ByteSearch

  /** The reader in `receive()`: it awaits the read event, or yields once. `due` says that the
      loss of the connection was already scheduled when it yielded. */
  datatype Reader =
    | Nobody
    | Awaiting(task: Task, max: nat)
    | Yielding(task: Task, max: nat, due: bool)

  /** `received` and `delivered` are the bytes that came in and that `receive()` returned.
      `lossDue` says that `connection_lost` is scheduled but has not run, `reading` whether the
      stream last asked the transport to read or to pause. */
  datatype State = State(
    queue: seq<Bytes>,
    event: bool,
    eof: bool,
    lost: bool,
    exception: bool,
    closing: bool,
    closed: bool,
    lossDue: bool,
    reading: bool,
    reader: Reader,
    received: Bytes,
    delivered: Bytes)

  datatype Result =
    | Got(data: Bytes)
    | Blocked
    | Busy
    | Closed
    | Broken
    | EndOfStream
    | Interrupted

  const NEW := State([], false, false, false, false, false, false, false, false, Nobody, [], [])

  // ----- the protocol -----

  function WithTask(r: Reader, task: Task): Reader {
    match r
    case Nobody => r
    case Awaiting(t, max) => Awaiting(task, max)
    case Yielding(t, max, due) => Yielding(task, max, due)
  }

  /** A reader whose event is set. */
  function WokenReader(r: Reader): Reader {
    if r.Awaiting? then WithTask(r, Woken(r.task)) else r
  }

  /** `read_event.set()`. */
  function SetEvent(st: State): State {
    st.(event := true, reader := WokenReader(st.reader))
  }

  function DataReceived(st: State, data: Bytes): State {
    SetEvent(st.(queue := st.queue + [data], received := st.received + data))
  }

  function EofReceived(st: State): State {
    SetEvent(st.(eof := true))
  }

  function ConnectionLost(st: State, error: bool): State {
    SetEvent(st.(exception := st.exception || error, lost := true, lossDue := false))
  }

  // ----- the stream -----

  /** `aclose()` up to its yield: unless the transport already closes, it starts to, and
      reports the loss when its output is flushed. */
  function Close(st: State): State {
    if st.closing then st else st.(closed := true, closing := true)
  }

  /** The transport gives up after a fatal error: it schedules the report of the loss. */
  function ForceClose(st: State): State {
    st.(closing := true, lossDue := !st.lost)
  }

  /** `receive()` up to the point where it waits. */
  function Receive(st: State, max: nat): (State, Result) {
    if !st.reader.Nobody? then (st, Busy)
    else if !st.event && !st.closing && !st.eof then
      (st.(reading := true, reader := Awaiting(Waiting(0), max)), Blocked)
    else (st.(reader := Yielding(Task(Running, NoWaiter, false, 0, 0, 0), max, st.lossDue)), Blocked)
  }

  /** The first chunk, cut to `max` bytes, and what stays queued. */
  function Front(queue: seq<Bytes>, max: nat): (r: (Bytes, seq<Bytes>))
    requires queue != []
    ensures Flat(queue) == r.0 + Flat(r.1) && |r.0| <= max
  {
    var chunk := queue[0];
    if |chunk| > max then
      var rest := [chunk[max..]] + queue[1..];
      assert rest[1..] == queue[1..] && chunk == chunk[..max] + chunk[max..];
      (chunk[..max], rest)
    else (chunk, queue[1..])
  }

  /** The reader runs again without a cancellation, and pauses the transport if it waited. */
  function Awake(st: State): State {
    st.(reader := Nobody, reading := st.reading && !st.reader.Awaiting?)
  }

  /** The end of `receive()`: the next bytes, or why there are none. */
  function Pop(st: State, max: nat): (State, Result) {
    if st.queue == [] then
      (st, if st.closed then Closed else if st.exception then Broken else EndOfStream)
    else
      var (data, queue) := Front(st.queue, max);
      (st.(queue := queue, event := st.event && queue != [], delivered := st.delivered + data), Got(data))
  }

  /** The rest of `receive()`, when its task runs again. */
  function Resume(st: State): (State, Result)
    requires !st.reader.Nobody?
  {
    if IsInterrupted(st.reader.task) then (st.(reader := Nobody), Interrupted)
    else Pop(Awake(st), st.reader.max)
  }

  // ----- runs -----

  datatype Step =
    | DoData(data: Bytes)
    | DoEof
    | DoLost(error: bool)
    | DoClose
    | DoForceClose
    | DoReceive(max: nat)
    | DoResume
    | DoDeliver
    | DoNative

  /** No bytes come after the end; a report that is due comes before a reader that yielded after
      it was scheduled runs again. */
  predicate Enabled(st: State, step: Step) {
    match step
    case DoData(d) => !st.eof && !st.lost
    case DoEof => !st.lost
    case DoLost(e) => st.closing || st.lossDue
    case DoResume =>
      !st.reader.Nobody? && MayResume(st.reader.task) && (st.reader.Yielding? && st.reader.due ==> st.lost)
    case DoDeliver => !st.reader.Nobody?
    case DoNative => !st.reader.Nobody?
    case _ => true
  }

  function Next(st: State, step: Step): (State, Result)
    requires Enabled(st, step)
  {
    match step
    case DoData(d) => (DataReceived(st, d), Blocked)
    case DoEof => (EofReceived(st), Blocked)
    case DoLost(e) => (ConnectionLost(st, e), Blocked)
    case DoClose => (Close(st), Blocked)
    case DoForceClose => (ForceClose(st), Blocked)
    case DoReceive(max) => Receive(st, max)
    case DoResume => Resume(st)
    case DoDeliver => (st.(reader := WithTask(st.reader, Delivered(st.reader.task))), Blocked)
    case DoNative => (st.(reader := WithTask(st.reader, NativelyCancelled(st.reader.task))), Blocked)
  }

  predicate Runs(st: State, steps: seq<Step>)
    decreases |steps|
  {
    steps == [] || (Enabled(st, steps[0]) && Runs(Next(st, steps[0]).0, steps[1..]))
  }

  function After(st: State, steps: seq<Step>): State
    requires Runs(st, steps)
    decreases |steps|
  {
    if steps == [] then st else After(Next(st, steps[0]).0, steps[1..])
  }

  // ----- what every state keeps -----

  /** The bytes have an end: the peer's, or that of the connection. */
  predicate Over(st: State) {
    st.eof || st.lost
  }

  ghost predicate Ok(st: State) {
    && st.delivered + Flat(st.queue) == st.received
    && (st.queue != [] ==> st.event)
    && (st.event ==> st.queue != [] || Over(st))
    && (st.closing ==> st.closed || st.lost || st.lossDue)
    && (st.closed || st.lost || st.lossDue ==> st.closing)
    && (st.exception ==> st.lost)
    && match st.reader
       case Nobody => true
       case Awaiting(task, max) =>
         && st.reading && task.waiter != NoWaiter
         && (task.waiter == Pending ==> !st.event && !Over(st) && !task.mustCancel)
         && (task.waiter == HasResult ==> st.queue != [] || Over(st))
       case Yielding(task, max, due) =>
         && task.waiter == NoWaiter
         && (st.queue != [] || Over(st) || st.closed || due)
  }

  lemma {:induction false} FlatAppend(chunks: seq<Bytes>, data: Bytes)
    ensures Flat(chunks + [data]) == Flat(chunks) + data
  {
    if chunks == [] {
      assert chunks + [data] == [data];
      assert Flat([data]) == data + Flat([]);
    } else {
      assert (chunks + [data])[1..] == chunks[1..] + [data];
      FlatAppend(chunks[1..], data);
    }
  }

  lemma PopKeeps(st: State, max: nat)
    requires Ok(st) && st.reader.Nobody?
    ensures Ok(Pop(st, max).0)
  {
    if st.queue != [] {
      var (data, queue) := Front(st.queue, max);
      assert st.delivered + (data + Flat(queue)) == (st.delivered + data) + Flat(queue);
    }
  }

  lemma ResumeKeeps(st: State)
    requires Ok(st) && !st.reader.Nobody?
    ensures Ok(Awake(st)) && Ok(Resume(st).0)
  {
    PopKeeps(Awake(st), st.reader.max);
  }

  lemma DataKeeps(st: State, data: Bytes)
    requires Ok(st)
    ensures Ok(DataReceived(st, data))
  {
    FlatAppend(st.queue, data);
    assert st.delivered + (Flat(st.queue) + data) == st.received + data;
  }

  /** The end, the loss and the two ways to close. */
  lemma EndingKeeps(st: State, step: Step)
    requires Ok(st) && Enabled(st, step)
    requires step.DoEof? || step.DoLost? || step.DoClose? || step.DoForceClose?
    ensures Ok(Next(st, step).0)
  {
  }

  /** A reader comes, or is cancelled. */
  lemma ReaderKeeps(st: State, step: Step)
    requires Ok(st) && Enabled(st, step) && (step.DoReceive? || step.DoDeliver? || step.DoNative?)
    ensures Ok(Next(st, step).0)
  {
  }

  lemma StepKeeps(st: State, step: Step)
    requires Ok(st) && Enabled(st, step)
    ensures Ok(Next(st, step).0)
  {
    match step
    case DoData(d) => DataKeeps(st, d);
    case DoResume => ResumeKeeps(st);
    case DoReceive(max) => ReaderKeeps(st, step);
    case DoDeliver => ReaderKeeps(st, step);
    case DoNative => ReaderKeeps(st, step);
    case _ => EndingKeeps(st, step);
  }

  lemma {:induction false} RunKeeps(st: State, steps: seq<Step>)
    requires Ok(st) && Runs(st, steps)
    ensures Ok(After(st, steps))
    decreases |steps|
  {
    if steps != [] {
      StepKeeps(st, steps[0]);
      RunKeeps(Next(st, steps[0]).0, steps[1..]);
    }
  }

  // ----- the theorems -----

  ghost predicate Reachable(st: State) {
    exists steps :: Runs(NEW, steps) && After(NEW, steps) == st
  }

  lemma ReachableOk(st: State)
    requires Reachable(st)
    ensures Ok(st)
  {
    var steps :| Runs(NEW, steps) && After(NEW, steps) == st;
    RunKeeps(NEW, steps);
  }

  /** The stream is one FIFO of bytes: what was returned, then what is queued, is what came in. */
  lemma BytesInOrder(st: State)
    requires Reachable(st)
    ensures st.delivered + Flat(st.queue) == st.received
    ensures st.queue != [] ==> st.event
    ensures st.event ==> st.queue != [] || st.eof || st.lost
  {
    ReachableOk(st);
  }

  /** No lost wakeup: a reader whose future is pending has nothing to read, neither the end of
      the stream nor the loss of the connection has been reported to it, and the transport was
      asked to read. */
  lemma NoLostWakeup(st: State)
    requires Reachable(st) && st.reader.Awaiting? && st.reader.task.waiter == Pending
    ensures st.queue == [] && !st.eof && !st.lost && st.delivered == st.received
    ensures st.reading
  {
    ReachableOk(st);
  }

  /** What `receive()` gives: the next bytes, at most as many as asked for, while there are any;
      the end of the stream only when the peer's end or the loss was reported and every byte
      was returned. A cancelled call takes nothing and leaves the transport reading; one that
      was woken pauses it. */
  lemma ReceiveMeans(st: State)
    requires Reachable(st) && Enabled(st, DoResume)
    ensures var (n, r) := Next(st, DoResume);
            && n.received == st.received
            && (r.Got? <==> !IsInterrupted(st.reader.task) && st.queue != [])
            && (r.Got? ==> n.delivered == st.delivered + r.data && |r.data| <= st.reader.max)
            && (!r.Got? ==> n.delivered == st.delivered && n.queue == st.queue)
            && (r == EndOfStream ==> (st.eof || st.lost) && st.delivered == st.received)
            && (r in {Closed, Broken} ==> st.delivered == st.received)
            && (r == Closed <==> !IsInterrupted(st.reader.task) && st.queue == [] && st.closed)
            && (r == Broken <==> !IsInterrupted(st.reader.task) && st.queue == [] && !st.closed && st.exception)
            && (r == EndOfStream <==>
                  !IsInterrupted(st.reader.task) && st.queue == [] && !st.closed && !st.exception)
            && (r == Broken ==> st.lost)
            && (r == Interrupted <==> IsInterrupted(st.reader.task))
            && n.reading == (st.reading && (r == Interrupted || st.reader.Yielding?))
            && n.reader == Nobody
  {
    ReachableOk(st);
  }

  /** When `receive()` may start: not beside another reader. It waits for its event iff nothing
      is queued, the peer has not ended and nobody closes the transport. */
  lemma ReceiveStarts(st: State, max: nat)
    requires Reachable(st)
    ensures var (n, r) := Next(st, DoReceive(max));
            && (r == Busy <==> st.reader != Nobody) && (r != Busy ==> r == Blocked)
            && (r == Busy ==> n == st)
            && (r == Blocked ==> !n.reader.Nobody? && n.reader.max == max && !IsInterrupted(n.reader.task))
            && (r == Blocked ==>
                  (n.reader.Awaiting? && n.reader.task.waiter == Pending <==>
                     !st.event && !st.eof && !st.closing))
            && (r == Blocked && n.reader.Awaiting? ==> st.queue == [] && n.reading)
  {
    ReachableOk(st);
  }

  /** What the transport reports: bytes come at the end of the queue, an end is noted, a loss with
      its error; each lets a waiting reader go on. */
  lemma ReportsMean(st: State, step: Step)
    requires Reachable(st) && Enabled(st, step) && (step.DoData? || step.DoEof? || step.DoLost?)
    ensures var n := Next(st, step).0;
            && n.event && (!st.reader.Nobody? ==> !n.reader.Nobody? && MayResume(n.reader.task))
            && (st.reader.Nobody? <==> n.reader.Nobody?)
            && n.queue == (if step.DoData? then st.queue + [step.data] else st.queue)
            && n.received == (if step.DoData? then st.received + step.data else st.received)
            && (n.eof <==> st.eof || step.DoEof?) && (n.lost <==> st.lost || step.DoLost?)
            && (n.exception <==> st.exception || (step.DoLost? && step.error))
            && n.closed == st.closed && n.closing == st.closing && n.delivered == st.delivered
  {
    ReachableOk(st);
  }

  /** A cancellation gets a waiting reader going, and its call will end as interrupted; only a
      native one can do so after the reader was woken. */
  lemma CancellationsMean(st: State, native: bool)
    requires Reachable(st) && !st.reader.Nobody?
    ensures var n := Next(st, if native then DoNative else DoDeliver).0;
            && n == st.(reader := n.reader) && !n.reader.Nobody? && n.reader.max == st.reader.max
            && MayResume(n.reader.task)
            && (IsInterrupted(n.reader.task) <==>
                  native || IsInterrupted(st.reader.task) || st.reader.task.waiter in {Pending, NoWaiter})
  {
    ReachableOk(st);
  }

  /** Closing the stream is noted unless the transport closes already. */
  lemma CloseMeans(st: State)
    ensures var n := Next(st, DoClose).0;
            && n.closing && (n.closed <==> st.closed || !st.closing)
            && n == st.(closing := n.closing, closed := n.closed)
  {
  }
}

/**
 The memory object stream as a value: its buffer, its two queues of blocked calls and its
 open ends, with the history that says what the stream owes to its users. An operation is the
 code between two awaits; `Run` composes them in any order.
 */
module MemoryStream {
  import opened Wrappers
  import opened Tasks
  import opened Sequences

  /** A sent object. The stamp names the accepted send call, in order of acceptance. */
  datatype Item<T> = Item(stamp: nat, value: T)

  type OpId = nat
  type EndId = nat

  /** A call of `receive()` that is blocked on its event. `scoped` says that the task's current
      scope is effectively cancelled. */
  datatype Receiver<T> = Receiver(task: Task, scoped: bool, given: Option<Item<T>>)

  /** A call of `send()` that is blocked on its event. */
  datatype Sender<T> = Sender(task: Task, item: Item<T>)

  datatype State<T> = State(
    maxSize: Option<nat>,
    buffer: seq<Item<T>>,
    waitingReceivers: seq<OpId>,
    waitingSenders: seq<OpId>,
    receivers: map<OpId, Receiver<T>>,
    senders: map<OpId, Sender<T>>,
    sendEnds: set<EndId>,
    receiveEnds: set<EndId>,
    nextId: nat,
    accepted: seq<Item<T>>,
    withdrawn: set<nat>,
    taken: seq<Item<T>>)

  datatype Result<T> =
    | Sent
    | Got(item: Item<T>)
    | Blocked(op: OpId)
    | WouldBlock
    | Closed
    | Broken
    | Ended
    | Interrupted

  /** A new stream with one open end on each side. */
  function New<T>(maxSize: Option<nat>): State<T> {
    State(maxSize, [], [], [], map[], map[], {0}, {1}, 2, [], {}, [])
  }

  predicate Full<T>(st: State<T>) {
    st.maxSize.Some? && |st.buffer| >= st.maxSize.value
  }

  // ----- pieces of the operations -----

  /** `has_pending_cancellation()` of the task that is blocked in a `receive()`. */
  predicate HasPending<T>(r: Receiver<T>) {
    r.task.requests > 0 || r.scoped
  }

  /** The first waiting receiver, from position `i` on, without a pending cancellation. */
  function FirstWilling<T>(st: State<T>, i: nat): (k: nat)
    requires i <= |st.waitingReceivers|
    ensures i <= k <= |st.waitingReceivers|
    decreases |st.waitingReceivers| - i
  {
    if i == |st.waitingReceivers| then i
    else if st.waitingReceivers[i] in st.receivers && HasPending(st.receivers[st.waitingReceivers[i]])
    then FirstWilling(st, i + 1)
    else i
  }

  function Accept<T>(st: State<T>, v: T): State<T> {
    st.(accepted := st.accepted + [Item(|st.accepted|, v)])
  }

  function Give<T>(st: State<T>, op: OpId, item: Item<T>): State<T>
    requires op in st.receivers
  {
    var r := st.receivers[op];
    st.(receivers := st.receivers[op := r.(given := Some(item), task := Woken(r.task))],
        taken := st.taken + [item])
  }

  /** The part of `send_nowait` that follows its two checks. */
  function Offer<T>(st: State<T>, v: T): (r: (State<T>, Result<T>)) {
    var k := FirstWilling(st, 0);
    var item := Item(|st.accepted|, v);
    if k < |st.waitingReceivers| then
      var op := st.waitingReceivers[k];
      var rest := st.(waitingReceivers := st.waitingReceivers[k + 1..]);
      if op in st.receivers then (Give(Accept(rest, v), op, item), Sent) else (st, Sent)
    else if Full(st) then
      (st.(waitingReceivers := []), WouldBlock)
    else
      (Accept(st.(waitingReceivers := [], buffer := st.buffer + [item]), v), Sent)
  }

  /** `send_nowait`. */
  function SendNowait<T>(st: State<T>, end: EndId, v: T): (State<T>, Result<T>) {
    if end !in st.sendEnds then (st, Closed)
    else if st.receiveEnds == {} then (st, Broken)
    else Offer(st, v)
  }

  /** `send`, up to the point where it returns or blocks. */
  function Send<T>(st: State<T>, end: EndId, v: T): (State<T>, Result<T>) {
    var (n, r) := SendNowait(st, end, v);
    if r != WouldBlock then (n, r)
    else
      var op := n.nextId;
      (Accept(n.(waitingSenders := n.waitingSenders + [op],
                 senders := n.senders[op := Sender(Waiting(0), Item(|n.accepted|, v))],
                 nextId := op + 1), v),
       Blocked(op))
  }

  /** The rest of a blocked `send`, when its task runs again. */
  function ResumeSend<T>(st: State<T>, op: OpId): (State<T>, Result<T>)
    requires op in st.senders
  {
    var s := st.senders[op];
    var interrupted := IsInterrupted(s.task);
    var gone := st.(senders := st.senders - {op}, waitingSenders := Without(st.waitingSenders, op));
    if op in st.waitingSenders then
      (gone.(withdrawn := st.withdrawn + {s.item.stamp}), if interrupted then Interrupted else Broken)
    else
      (gone, if interrupted then Interrupted else Sent)
  }

  /** The oldest blocked sender puts its item in the buffer and is woken. */
  function Refill<T>(st: State<T>): State<T> {
    if st.waitingSenders != [] && st.waitingSenders[0] in st.senders then
      var s := st.senders[st.waitingSenders[0]];
      st.(waitingSenders := st.waitingSenders[1..],
          senders := st.senders[st.waitingSenders[0] := s.(task := Woken(s.task))],
          buffer := st.buffer + [s.item])
    else st
  }

  /** `receive_nowait`. */
  function ReceiveNowait<T>(st: State<T>, end: EndId): (State<T>, Result<T>) {
    if end !in st.receiveEnds then (st, Closed)
    else
      var n := Refill(st);
      if n.buffer != [] then
        (n.(buffer := n.buffer[1..], taken := n.taken + [n.buffer[0]]), Got(n.buffer[0]))
      else if n.sendEnds == {} then (n, Ended)
      else (n, WouldBlock)
  }

  /** A call that finds nothing joins the queue of receivers. */
  function Enrol<T>(st: State<T>, requests: nat, scoped: bool): State<T> {
    st.(waitingReceivers := st.waitingReceivers + [st.nextId],
        receivers := st.receivers[st.nextId := Receiver(Waiting(requests), scoped, None)],
        nextId := st.nextId + 1)
  }

  /** `receive`, up to the point where it returns or blocks. */
  function Receive<T>(st: State<T>, end: EndId, requests: nat, scoped: bool): (State<T>, Result<T>) {
    var (n, r) := ReceiveNowait(st, end);
    if r != WouldBlock then (n, r) else (Enrol(n, requests, scoped), Blocked(n.nextId))
  }

  /** The rest of a blocked `receive`, when its task runs again. */
  function ResumeReceive<T>(st: State<T>, op: OpId): (State<T>, Result<T>)
    requires op in st.receivers
  {
    var r := st.receivers[op];
    (st.(receivers := st.receivers - {op}, waitingReceivers := Without(st.waitingReceivers, op)),
     if IsInterrupted(r.task) then Interrupted
     else if r.given.Some? then Got(r.given.value)
     else Ended)
  }

  function CloneSend<T>(st: State<T>, end: EndId): State<T> {
    if end in st.sendEnds then st.(sendEnds := st.sendEnds + {st.nextId}, nextId := st.nextId + 1) else st
  }

  function CloneReceive<T>(st: State<T>, end: EndId): State<T> {
    if end in st.receiveEnds
    then st.(receiveEnds := st.receiveEnds + {st.nextId}, nextId := st.nextId + 1) else st
  }

  /** Closing the last send end wakes every waiting receiver empty-handed. */
  function CloseSend<T>(st: State<T>, end: EndId): State<T> {
    if end !in st.sendEnds then st
    else
      var n := st.(sendEnds := st.sendEnds - {end});
      if n.sendEnds != {} then n else WakeAllReceivers(n)
  }

  function WakeAllReceivers<T>(st: State<T>): State<T> {
    st.(waitingReceivers := [],
        receivers := map op | op in st.receivers ::
          if op in st.waitingReceivers
          then st.receivers[op].(task := Woken(st.receivers[op].task)) else st.receivers[op])
  }

  /** Closing the last receive end wakes every waiting sender; they stay queued until they
      run. */
  function CloseReceive<T>(st: State<T>, end: EndId): State<T> {
    if end !in st.receiveEnds then st
    else
      var n := st.(receiveEnds := st.receiveEnds - {end});
      if n.receiveEnds != {} then n
      else
        n.(senders := map op | op in n.senders ::
             if op in n.waitingSenders
             then n.senders[op].(task := Woken(n.senders[op].task)) else n.senders[op])
  }

  // ----- runs -----

  datatype Step<T> =
    | DoSendNowait(end: EndId, v: T)
    | DoSend(end: EndId, v: T)
    | DoResumeSend(op: OpId)
    | DoReceiveNowait(end: EndId)
    | DoReceive(end: EndId, requests: nat, scoped: bool)
    | DoResumeReceive(op: OpId)
    | DoCloneSend(end: EndId)
    | DoCloneReceive(end: EndId)
    | DoCloseSend(end: EndId)
    | DoCloseReceive(end: EndId)
    | DoDeliver(op: OpId)
    | DoNative(op: OpId)
    | DoScope(op: OpId, cancelled: bool)

  predicate Enabled<T>(st: State<T>, step: Step<T>) {
    match step
    case DoResumeSend(op) => op in st.senders && MayResume(st.senders[op].task)
    case DoResumeReceive(op) => op in st.receivers && MayResume(st.receivers[op].task)
    case DoDeliver(op) => op in st.senders || op in st.receivers
    case DoNative(op) => op in st.senders || op in st.receivers
    case DoScope(op, c) => op in st.receivers
    case _ => true
  }

  /** The task of a blocked call. */
  function TaskOf<T>(st: State<T>, op: OpId): Task
    requires op in st.senders || op in st.receivers
  {
    if op in st.senders then st.senders[op].task else st.receivers[op].task
  }

  function ChangeTask<T>(st: State<T>, op: OpId, task: Task): State<T>
    requires op in st.senders || op in st.receivers
  {
    if op in st.senders then st.(senders := st.senders[op := st.senders[op].(task := task)])
    else st.(receivers := st.receivers[op := st.receivers[op].(task := task)])
  }

  function Next<T>(st: State<T>, step: Step<T>): State<T>
    requires Enabled(st, step)
  {
    match step
    case DoSendNowait(end, v) => SendNowait(st, end, v).0
    case DoSend(end, v) => Send(st, end, v).0
    case DoResumeSend(op) => ResumeSend(st, op).0
    case DoReceiveNowait(end) => ReceiveNowait(st, end).0
    case DoReceive(end, q, c) => Receive(st, end, q, c).0
    case DoResumeReceive(op) => ResumeReceive(st, op).0
    case DoCloneSend(end) => CloneSend(st, end)
    case DoCloneReceive(end) => CloneReceive(st, end)
    case DoCloseSend(end) => CloseSend(st, end)
    case DoCloseReceive(end) => CloseReceive(st, end)
    case DoDeliver(op) => ChangeTask(st, op, Delivered(TaskOf(st, op)))
    case DoNative(op) => ChangeTask(st, op, NativelyCancelled(TaskOf(st, op)))
    case DoScope(op, c) => st.(receivers := st.receivers[op := st.receivers[op].(scoped := c)])
  }

  predicate Runs<T>(st: State<T>, steps: seq<Step<T>>)
    decreases |steps|
  {
    steps == [] || (Enabled(st, steps[0]) && Runs(Next(st, steps[0]), steps[1..]))
  }

  function After<T>(st: State<T>, steps: seq<Step<T>>): State<T>
    requires Runs(st, steps)
    decreases |steps|
  {
    if steps == [] then st else After(Next(st, steps[0]), steps[1..])
  }

  // ----- what every state keeps -----

  /** The accepted items that were not withdrawn, in acceptance order. */
  function Kept<T>(accepted: seq<Item<T>>, withdrawn: set<nat>): seq<Item<T>> {
    if accepted == [] then []
    else
      var last := accepted[|accepted| - 1];
      Kept(accepted[..|accepted| - 1], withdrawn) + if last.stamp in withdrawn then [] else [last]
  }

  /** The items of the blocked senders, in queue order. */
  function Queued<T>(ops: seq<OpId>, senders: map<OpId, Sender<T>>): seq<Item<T>> {
    if ops == [] then []
    else (if ops[0] in senders then [senders[ops[0]].item] else []) + Queued(ops[1..], senders)
  }

  /** One FIFO: what was accepted and not withdrawn is what was taken, then the buffer, then
      the blocked senders' items. */
  ghost predicate Fifo<T>(st: State<T>) {
    && Kept(st.accepted, st.withdrawn)
       == st.taken + st.buffer + Queued(st.waitingSenders, st.senders)
    && (forall i :: 0 <= i < |st.accepted| ==> st.accepted[i].stamp == i)
    && (forall k :: k in st.withdrawn ==> k < |st.accepted|)
  }

  ghost predicate Shape<T>(st: State<T>) {
    && (st.maxSize.Some? ==> |st.buffer| <= st.maxSize.value)
    && (st.waitingSenders != [] ==> Full(st))
    && (st.waitingReceivers != [] ==>
          st.buffer == [] && st.waitingSenders == [] && st.sendEnds != {})
  }

  /** A blocked sender's item was accepted and is not withdrawn, and no two calls share one.
      Its event is set once the item has left the queue, and before that if and only if no
      receive end is open any more. */
  ghost predicate SenderAt<T>(st: State<T>, op: OpId)
    requires op in st.senders
  {
    var item := st.senders[op].item;
    && op < st.nextId && op !in st.receivers
    && item.stamp < |st.accepted| && st.accepted[item.stamp] == item && item.stamp !in st.withdrawn
    && (forall x :: x in st.senders && st.senders[x].item.stamp == item.stamp ==> x == op)
    && (op !in st.waitingSenders ==> st.senders[op].task.waiter != Pending)
    && (op in st.waitingSenders && st.senders[op].task.waiter == HasResult ==> st.receiveEnds == {})
    && (st.senders[op].task.waiter == Pending ==> st.receiveEnds != {})
    && st.senders[op].task.waiter != NoWaiter
  }

  /** A receiver in the queue has no item and its event is not set. A receiver that was given
      an item has its result, and only a native cancellation can still interrupt it. One that
      was woken without an item has seen the end of the stream. */
  ghost predicate ReceiverAt<T>(st: State<T>, op: OpId)
    requires op in st.receivers
  {
    var r := st.receivers[op];
    && op < st.nextId
    && r.task.native <= r.task.requests
    && (IsInterrupted(r.task) ==> r.task.requests > 0)
    && (op in st.waitingReceivers ==> r.given == None && r.task.waiter != HasResult)
    && (r.given.Some? ==>
          && r.task.waiter == HasResult && (r.task.mustCancel <==> r.task.native > 0)
          && r.given.value in st.taken
          && (forall x :: x in st.receivers && st.receivers[x].given == r.given ==> x == op))
    && (r.task.waiter == HasResult && r.given == None ==> AtEnd(st))
    && r.task.waiter != NoWaiter
  }

  /** Nothing is left to take, and nothing can be sent. */
  predicate AtEnd<T>(st: State<T>) {
    st.sendEnds == {} && st.buffer == [] && st.waitingSenders == []
  }

  ghost predicate Queues<T>(st: State<T>) {
    && NoRepeat(st.waitingSenders) && NoRepeat(st.waitingReceivers)
    && (forall op :: op in st.waitingSenders ==> op in st.senders)
    && (forall op :: op in st.waitingReceivers ==> op in st.receivers)
    && (forall e :: e in st.sendEnds || e in st.receiveEnds ==> e < st.nextId)
  }

  ghost predicate Ok<T>(st: State<T>) {
    && Fifo(st) && Shape(st) && Queues(st)
    && (forall op {:trigger SenderAt(st, op)} :: op in st.senders ==> SenderAt(st, op))
    && (forall op {:trigger ReceiverAt(st, op)} :: op in st.receivers ==> ReceiverAt(st, op))
  }
}

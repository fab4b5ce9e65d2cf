/** When each result of a call on a memory object stream comes, and what it does to the stream. */
module MemoryStreamCalls {
  import opened Wrappers
  import opened Tasks
  import opened Sequences
  import opened MemoryStream
  import opened MemoryStreamRuns
  import opened MemoryStreamTheorems

  /** The items that are still to be taken, oldest first. */
  function Line<T>(st: State<T>): seq<Item<T>> {
    st.buffer + Queued(st.waitingSenders, st.senders)
  }

  /** Nothing changes on the side of the senders. */
  predicate SameSenders<T(==)>(st: State<T>, n: State<T>) {
    n.waitingSenders == st.waitingSenders && n.senders == st.senders && n.sendEnds == st.sendEnds
  }

  predicate SameReceivers<T(==)>(st: State<T>, n: State<T>) {
    n.waitingReceivers == st.waitingReceivers && n.receivers == st.receivers && n.receiveEnds == st.receiveEnds
  }

  // ----- receiving -----

  /** Without a blocked sender the line is the buffer, and otherwise the buffer is full. */
  lemma LineIsEmpty<T(!new)>(st: State<T>)
    requires Ok(st)
    ensures Line(st) == [] <==> st.buffer == [] && st.waitingSenders == []
    ensures st.waitingSenders != [] ==>
              && st.waitingSenders[0] in st.senders
              && Queued(st.waitingSenders, st.senders)
                 == [st.senders[st.waitingSenders[0]].item] + Queued(st.waitingSenders[1..], st.senders)
  {
    if st.waitingSenders != [] {
      assert st.waitingSenders[0] in st.waitingSenders;
    }
  }

  /** Taking the oldest blocked sender's item into the buffer leaves the line as it is. */
  lemma RefillKeepsLine<T(!new)>(st: State<T>)
    requires Ok(st)
    ensures Line(Refill(st)) == Line(st)
    ensures Refill(st).buffer == [] <==> Line(st) == []
    ensures Line(st) == [] ==> Refill(st) == st
  {
    LineIsEmpty(st);
    if st.waitingSenders != [] {
      var n := Refill(st);
      var first := st.senders[st.waitingSenders[0]].item;
      var rest := Queued(st.waitingSenders[1..], st.senders);
      QueuedFrame(st.waitingSenders[1..], st.senders, n.senders);
      assert st.buffer + [first] + rest == st.buffer + ([first] + rest);
    }
  }

  lemma DropFirst<T>(buffer: seq<T>, queued: seq<T>)
    requires buffer != []
    ensures (buffer + queued)[0] == buffer[0] && (buffer + queued)[1..] == buffer[1..] + queued
  {
  }

  /** `receive_nowait` gives the oldest item that was not taken, if the end is open and there is
      one; then the item is taken and the oldest blocked sender may go on. Without an item it
      gives the end if no sender is open, and changes nothing. */
  lemma ReceiveNowaitMeans<T(!new)>(st: State<T>, end: EndId)
    requires Reachable(st)
    ensures var (n, r) := ReceiveNowait(st, end);
            && (r == Closed <==> end !in st.receiveEnds)
            && (r.Got? <==> end in st.receiveEnds && Line(st) != [])
            && (r == Ended <==> end in st.receiveEnds && Line(st) == [] && st.sendEnds == {})
            && (r == WouldBlock <==> end in st.receiveEnds && Line(st) == [] && st.sendEnds != {})
            && (r.Got? ==>
                  r.item == Line(st)[0] && Line(n) == Line(st)[1..] && n.taken == st.taken + [r.item])
            && (!r.Got? ==> n == st)
            && SameReceivers(st, n) && n.sendEnds == st.sendEnds
            && n.accepted == st.accepted && n.withdrawn == st.withdrawn
  {
    ReachableOk(st);
    RefillKeepsLine(st);
    var m := Refill(st);
    if m.buffer != [] {
      DropFirst(m.buffer, Queued(m.waitingSenders, m.senders));
    }
  }

  /** The oldest blocked sender may go on when something is received, and no other one changes. */
  lemma ReceiveWakesSender<T(!new)>(st: State<T>, end: EndId)
    requires Reachable(st) && end in st.receiveEnds && st.waitingSenders != []
    ensures var n := ReceiveNowait(st, end).0;
            var op := st.waitingSenders[0];
            && n.waitingSenders == st.waitingSenders[1..] && n.senders.Keys == st.senders.Keys
            && op in n.senders && MayResume(n.senders[op].task)
            && (forall x :: x in st.senders && x != op ==> n.senders[x] == st.senders[x])
            && (!IsInterrupted(n.senders[op].task) ==> ResumeSend(n, op).1 == Sent)
            && (IsInterrupted(n.senders[op].task) <==> IsInterrupted(st.senders[op].task))
  {
    ReachableOk(st);
    LineIsEmpty(st);
    var op := st.waitingSenders[0];
    assert SenderAt(st, op);
    assert op !in st.waitingSenders[1..];
  }

  /** `receive` is `receive_nowait`, but with nothing to give it joins the queue of receivers at
      its end, with no item, and its task waits. */
  lemma ReceiveMeans<T(!new)>(st: State<T>, end: EndId, requests: nat, scoped: bool)
    requires Reachable(st)
    ensures var (n, r) := Receive(st, end, requests, scoped);
            && (r.Blocked? <==> end in st.receiveEnds && Line(st) == [] && st.sendEnds != {})
            && (!r.Blocked? ==> (n, r) == ReceiveNowait(st, end))
            && (r.Blocked? ==>
                  && r.op !in st.receivers && r.op !in st.senders && r.op in n.receivers
                  && n.waitingReceivers == st.waitingReceivers + [r.op]
                  && n.receivers == st.receivers[r.op := n.receivers[r.op]]
                  && n.receivers[r.op].given == None && n.receivers[r.op].task.waiter == Pending
                  && !IsInterrupted(n.receivers[r.op].task)
                  && (HasPending(n.receivers[r.op]) <==> requests > 0 || scoped)
                  && SameSenders(st, n) && Line(n) == Line(st) && n.taken == st.taken
                  && n.accepted == st.accepted && n.withdrawn == st.withdrawn)
  {
    ReachableOk(st);
    ReceiveNowaitMeans(st, end);
    NextIsFresh(st);
  }

  /** A blocked `receive` that runs again leaves; it returns the item that it was given, or the
      end if there is none, unless it was cancelled. */
  lemma ResumeReceiveMeans<T(!new)>(st: State<T>, op: OpId)
    requires Reachable(st) && Enabled(st, DoResumeReceive(op))
    ensures var (n, r) := ResumeReceive(st, op);
            var given := st.receivers[op].given;
            && (r == Interrupted <==> IsInterrupted(st.receivers[op].task))
            && (r.Got? <==> !IsInterrupted(st.receivers[op].task) && given.Some?)
            && (r.Got? ==> r.item == given.value)
            && (r == Ended <==> !IsInterrupted(st.receivers[op].task) && given == None)
            && (r == Ended ==> AtEnd(st))
            && n.receivers == st.receivers - {op} && op !in n.waitingReceivers
            && (forall x :: x != op ==> (x in n.waitingReceivers <==> x in st.waitingReceivers))
            && SameSenders(st, n) && n.receiveEnds == st.receiveEnds
            && Line(n) == Line(st) && n.taken == st.taken
  {
    ReachableOk(st);
    assert ReceiverAt(st, op);
    WithoutKeepsOrder(st.waitingReceivers, op);
  }

  // ----- sending -----

  /** When each result of `send_nowait` comes: errors for an end that is closed and for a stream
      without receivers; then the item is accepted if a receiver is willing or there is room. It
      goes to the first willing receiver, or to the end of the buffer. */
  lemma SendNowaitResults<T(!new)>(st: State<T>, end: EndId, v: T)
    requires Reachable(st)
    ensures var (n, r) := SendNowait(st, end, v);
            var item := Item(|st.accepted|, v);
            var willing := FirstWilling(st, 0) < |st.waitingReceivers|;
            && (r == Closed <==> end !in st.sendEnds)
            && (r == Broken <==> end in st.sendEnds && st.receiveEnds == {})
            && (r == Sent <==> end in st.sendEnds && st.receiveEnds != {} && (willing || !Full(st)))
            && (r == WouldBlock <==> end in st.sendEnds && st.receiveEnds != {} && !willing && Full(st))
            && SameSenders(st, n) && n.receiveEnds == st.receiveEnds
            && (r in {Closed, Broken} ==> n == st)
            && (r == Sent && willing ==> n.taken == st.taken + [item] && n.buffer == st.buffer)
            && (r == Sent && !willing ==>
                  n.buffer == st.buffer + [item] && n.taken == st.taken && n.receivers == st.receivers)
            && (r == WouldBlock ==>
                  n.buffer == st.buffer && n.taken == st.taken && n.receivers == st.receivers
                  && n.accepted == st.accepted)
  {
    ReachableOk(st);
    assert forall op :: op in st.waitingReceivers ==> op in st.receivers;
    if FirstWilling(st, 0) < |st.waitingReceivers| {
      assert st.waitingReceivers[FirstWilling(st, 0)] in st.waitingReceivers;
    }
  }

  /** `send` is `send_nowait`, but without room its item is accepted and its call joins the queue
      of senders at its end, and its task waits. */
  lemma SendMeans<T(!new)>(st: State<T>, end: EndId, v: T)
    requires Reachable(st)
    ensures var (n, r) := Send(st, end, v);
            var item := Item(|st.accepted|, v);
            && (r.Blocked? <==> SendNowait(st, end, v).1 == WouldBlock)
            && (!r.Blocked? ==> (n, r) == SendNowait(st, end, v))
            && (r.Blocked? ==>
                  && r.op !in st.receivers && r.op !in st.senders && r.op in n.senders
                  && n.waitingSenders == st.waitingSenders + [r.op]
                  && n.senders == st.senders[r.op := n.senders[r.op]]
                  && n.senders[r.op].item == item && n.senders[r.op].task.waiter == Pending
                  && !IsInterrupted(n.senders[r.op].task)
                  && n.accepted == st.accepted + [item] && Line(n) == Line(st) + [item]
                  && n.taken == st.taken && n.receivers == st.receivers && n.waitingReceivers == []
                  && n.sendEnds == st.sendEnds && n.receiveEnds == st.receiveEnds)
  {
    ReachableOk(st);
    SendNowaitResults(st, end, v);
    var (m, r) := SendNowait(st, end, v);
    if r == WouldBlock {
      OfferKeeps(st, v);
      NextIsFresh(m);
      var n := Send(st, end, v).0;
      QueuedFrame(st.waitingSenders, st.senders, n.senders);
      QueuedAppend(st.waitingSenders, m.nextId, n.senders);
      var item := Item(|st.accepted|, v);
      assert st.buffer + (Queued(st.waitingSenders, st.senders) + [item]) == Line(st) + [item];
    }
  }

  /** A blocked `send` that runs again leaves, and takes its item out of the line only if that is
      still in the queue. */
  lemma ResumeSendLeaves<T(!new)>(st: State<T>, op: OpId)
    requires Reachable(st) && Enabled(st, DoResumeSend(op))
    ensures var n := ResumeSend(st, op).0;
            && n.senders == st.senders - {op} && op !in n.waitingSenders
            && (forall x :: x != op ==> (x in n.waitingSenders <==> x in st.waitingSenders))
            && SameReceivers(st, n) && n.sendEnds == st.sendEnds
            && n.buffer == st.buffer && n.taken == st.taken && n.accepted == st.accepted
            && n.withdrawn == st.withdrawn
                              + if op in st.waitingSenders then {st.senders[op].item.stamp} else {}
  {
    ReachableOk(st);
    WithoutKeepsOrder(st.waitingSenders, op);
  }

  /** A sender is stuck while it is queued and a receive end is open, and only then: once its item
      is taken, or the last receive end is closed, it may go on. */
  lemma SenderMayGoOn<T(!new)>(st: State<T>, op: OpId)
    requires Reachable(st) && op in st.senders
    ensures op !in st.waitingSenders || st.receiveEnds == {} ==> MayResume(st.senders[op].task)
    ensures op in st.waitingSenders && st.receiveEnds != {} && MayResume(st.senders[op].task) ==>
              IsInterrupted(st.senders[op].task)
  {
    ReachableOk(st);
    assert SenderAt(st, op);
  }

  /** Likewise for a receiver that no send passed over. */
  lemma ReceiverMayGoOn<T(!new)>(st: State<T>, op: OpId)
    requires Reachable(st) && op in st.receivers && !Stranded(st, op)
    ensures op !in st.waitingReceivers || st.sendEnds == {} ==> MayResume(st.receivers[op].task)
    ensures op in st.waitingReceivers && MayResume(st.receivers[op].task) ==>
              IsInterrupted(st.receivers[op].task)
  {
    ReachableOk(st);
    assert ReceiverAt(st, op);
  }

  // ----- the ends -----

  /** A clone is a new open end, and a closed end has no clones. */
  lemma CloneMeans<T(!new)>(st: State<T>, end: EndId)
    requires Reachable(st)
    ensures var n := CloneSend(st, end);
            && n == st.(sendEnds := n.sendEnds, nextId := n.nextId)
            && |n.sendEnds| == |st.sendEnds| + (if end in st.sendEnds then 1 else 0)
            && st.sendEnds <= n.sendEnds
    ensures var n := CloneReceive(st, end);
            && n == st.(receiveEnds := n.receiveEnds, nextId := n.nextId)
            && |n.receiveEnds| == |st.receiveEnds| + (if end in st.receiveEnds then 1 else 0)
            && st.receiveEnds <= n.receiveEnds
  {
    ReachableOk(st);
    assert st.nextId !in st.sendEnds && st.nextId !in st.receiveEnds;
  }

  /** Closing takes one end away, once. The last send end takes all receivers out of the queue and
      lets them go on to the end of the stream. */
  lemma CloseSendMeans<T(!new)>(st: State<T>, end: EndId)
    requires Reachable(st)
    ensures var n := CloseSend(st, end);
            && n.sendEnds == st.sendEnds - {end} && n.receiveEnds == st.receiveEnds
            && n.senders == st.senders && n.waitingSenders == st.waitingSenders
            && Line(n) == Line(st) && n.taken == st.taken && n.accepted == st.accepted
            && (end !in st.sendEnds || n.sendEnds != {} ==> SameReceivers(st, n))
            && (n.sendEnds == {} ==> n.waitingReceivers == [])
            && (forall op :: op in st.waitingReceivers && n.sendEnds == {} ==>
                  op in n.receivers && MayResume(n.receivers[op].task)
                  && (ResumeReceive(n, op).1 == Ended <==> !IsInterrupted(st.receivers[op].task)))
  {
    ReachableOk(st);
    forall op | op in st.waitingReceivers
      ensures op in st.receivers && ReceiverAt(st, op)
    {
    }
  }

  /** The last receive end lets the senders go on, without their items. */
  lemma CloseReceiveMeans<T(!new)>(st: State<T>, end: EndId)
    requires Reachable(st)
    ensures var n := CloseReceive(st, end);
            && n.receiveEnds == st.receiveEnds - {end} && n.sendEnds == st.sendEnds
            && n.receivers == st.receivers && n.waitingReceivers == st.waitingReceivers
            && n.waitingSenders == st.waitingSenders && n.buffer == st.buffer && n.taken == st.taken
            && (end !in st.receiveEnds || n.receiveEnds != {} ==> n.senders == st.senders)
            && (forall op :: op in st.waitingSenders && n.receiveEnds == {} ==>
                  op in n.senders && MayResume(n.senders[op].task)
                  && (ResumeSend(n, op).1 == Broken <==> !IsInterrupted(st.senders[op].task)))
  {
    ReachableOk(st);
    forall op | op in st.waitingSenders
      ensures op in st.senders && SenderAt(st, op)
    {
    }
  }
}

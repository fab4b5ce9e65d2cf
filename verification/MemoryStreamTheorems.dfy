/** What a memory object stream promises, for every state that a run can reach. */
module MemoryStreamTheorems {
  import opened Wrappers
  import opened Tasks
  import opened Sequences
  import opened MemoryStream
  import opened MemoryStreamRuns

  ghost predicate Reachable<T(!new)>(st: State<T>) {
    exists maxSize, steps :: Runs(New<T>(maxSize), steps) && After(New<T>(maxSize), steps) == st
  }

  lemma ReachableOk<T(!new)>(st: State<T>)
    requires Reachable(st)
    ensures Ok(st)
  {
    var maxSize, steps :| Runs(New<T>(maxSize), steps) && After(New<T>(maxSize), steps) == st;
    NewOk<T>(maxSize);
    RunKeeps(New<T>(maxSize), steps);
  }

  // ----- one FIFO -----

  /** In every reachable state the accepted items that were not withdrawn are the items taken,
      then the buffer, then the items of the blocked senders, and they are in acceptance
      order, so none is taken twice and none overtakes another. */
  lemma OneFifo<T(!new)>(st: State<T>)
    requires Reachable(st)
    ensures var line := st.taken + st.buffer + Queued(st.waitingSenders, st.senders);
            && line == Kept(st.accepted, st.withdrawn)
            && StampsRise(line)
            && (forall i :: 0 <= i < |line| ==> line[i] in st.accepted && line[i].stamp !in st.withdrawn)
            && (forall k :: 0 <= k < |st.accepted| && k !in st.withdrawn ==> st.accepted[k] in line)
  {
    ReachableOk(st);
    KeptRises(st.accepted, st.withdrawn);
    KeptIsAccepted(st.accepted, st.withdrawn);
  }

  lemma {:induction false} KeptIsAccepted<T>(accepted: seq<Item<T>>, withdrawn: set<nat>)
    ensures forall i :: 0 <= i < |Kept(accepted, withdrawn)| ==>
              Kept(accepted, withdrawn)[i] in accepted && Kept(accepted, withdrawn)[i].stamp !in withdrawn
  {
    if accepted != [] {
      KeptIsAccepted(accepted[..|accepted| - 1], withdrawn);
    }
  }

  lemma ShapeTheorem<T(!new)>(st: State<T>)
    requires Reachable(st)
    ensures st.maxSize.Some? ==> |st.buffer| <= st.maxSize.value
    ensures st.waitingSenders != [] ==> Full(st)
    ensures st.waitingReceivers != [] ==>
              st.buffer == [] && st.waitingSenders == [] && st.sendEnds != {}
  {
    ReachableOk(st);
  }

  // ----- what a send means -----

  /** `send_nowait` succeeds exactly when both sides are open and there is a willing receiver
      or room, and exactly then the item joins the line. */
  lemma SendNowaitMeans<T(!new)>(st: State<T>, end: EndId, v: T)
    requires Reachable(st)
    ensures var (n, r) := SendNowait(st, end, v);
            && (r == Sent <==>
                  end in st.sendEnds && st.receiveEnds != {}
                  && (!Full(st) || exists op :: op in st.waitingReceivers && op in st.receivers
                                                && !HasPending(st.receivers[op])))
            && n.withdrawn == st.withdrawn
            && n.accepted == if r == Sent then st.accepted + [Item(|st.accepted|, v)] else st.accepted
  {
    ReachableOk(st);
    WillingExists(st, 0);
    assert forall op :: op in st.waitingReceivers ==> op in st.receivers;
  }

  lemma {:induction false} WillingExists<T>(st: State<T>, i: nat)
    requires i <= |st.waitingReceivers|
    requires forall op :: op in st.waitingReceivers ==> op in st.receivers
    ensures FirstWilling(st, i) < |st.waitingReceivers| <==>
            exists j :: i <= j < |st.waitingReceivers| && !HasPending(st.receivers[st.waitingReceivers[j]])
    decreases |st.waitingReceivers| - i
  {
    if i < |st.waitingReceivers| {
      assert st.waitingReceivers[i] in st.waitingReceivers;
      if HasPending(st.receivers[st.waitingReceivers[i]]) {
        WillingExists(st, i + 1);
      }
    }
  }

  /** A blocked `send` that runs again: its item is withdrawn exactly when it is still queued,
      and otherwise it is delivered or in the buffer. Uncancelled, the call returns normally in
      the second case and raises `BrokenResourceError` in the first; cancelled, it is the same
      for the item, so a cancelled `send` may have been delivered. */
  lemma ResumeSendMeans<T(!new)>(st: State<T>, op: OpId)
    requires Reachable(st) && op in st.senders
    ensures var (n, r) := ResumeSend(st, op);
            var item := st.senders[op].item;
            var interrupted := st.senders[op].task.mustCancel || st.senders[op].task.waiter == WaiterCancelled;
            && (item.stamp in n.withdrawn <==> op in st.waitingSenders)
            && (item in n.taken + n.buffer <==> op !in st.waitingSenders)
            && (r == Interrupted <==> interrupted)
            && (!interrupted ==> (r == Sent <==> item in n.taken + n.buffer))
            && (!interrupted ==> (r == Broken <==> item.stamp in n.withdrawn))
  {
    ReachableOk(st);
    assert SenderAt(st, op);
    var item := st.senders[op].item;
    KeptRises(st.accepted, st.withdrawn);
    var done := st.taken + st.buffer;
    var queued := Queued(st.waitingSenders, st.senders);
    assert item in done + queued;
    if op in st.waitingSenders {
      QueuedIsElsewhere(st, op);
    } else if item in queued {
      QueuedFrom(st.waitingSenders, st.senders, item);
      SendersFromSenders(st, op);
    }
  }

  // ----- what a receive means -----

  /** A hand-off to a blocked receiver is returned by its `receive()` exactly when the task was
      not cancelled natively while it was blocked; cancel scopes alone never lose an item. */
  lemma HandOffIsReturned<T(!new)>(st: State<T>, op: OpId)
    requires Reachable(st) && op in st.receivers && st.receivers[op].given.Some?
    ensures MayResume(st.receivers[op].task)
    ensures var item := st.receivers[op].given.value;
            && item in st.taken
            && (ResumeReceive(st, op).1 == Got(item) <==> st.receivers[op].task.native == 0)
            && (forall x :: x in st.receivers && x != op ==> st.receivers[x].given != Some(item))
  {
    ReachableOk(st);
    assert ReceiverAt(st, op);
  }

  lemma {:induction false} OthersArePending<T>(st: State<T>, i: nat)
    requires i <= |st.waitingReceivers|
    ensures forall j :: i <= j < FirstWilling(st, i) ==>
              st.waitingReceivers[j] in st.receivers && HasPending(st.receivers[st.waitingReceivers[j]])
    decreases |st.waitingReceivers| - i
  {
    if FirstWilling(st, i) != i {
      OthersArePending(st, i + 1);
    }
  }

  /** The oldest receiver without a pending cancellation gets the next item that is sent, and
      its `receive()` returns it. */
  lemma QueuedReceiverIsNext<T(!new)>(st: State<T>, end: EndId, v: T)
    requires Reachable(st) && end in st.sendEnds && st.receiveEnds != {}
    requires FirstWilling(st, 0) < |st.waitingReceivers|
    ensures var op := st.waitingReceivers[FirstWilling(st, 0)];
            var n := SendNowait(st, end, v).0;
            && op in n.receivers && n.receivers[op].given == Some(Item(|st.accepted|, v))
            && MayResume(n.receivers[op].task)
            && ResumeReceive(n, op).1 == Got(Item(|st.accepted|, v))
    ensures forall j :: 0 <= j < FirstWilling(st, 0) ==>
              st.waitingReceivers[j] in st.receivers && HasPending(st.receivers[st.waitingReceivers[j]])
  {
    ReachableOk(st);
    FirstIsWilling(st, 0);
    OthersArePending(st, 0);
    var op := st.waitingReceivers[FirstWilling(st, 0)];
    assert op in st.waitingReceivers && ReceiverAt(st, op);
  }

  /** `EndOfStream` means that everything accepted and not withdrawn has been taken and that no
      send end is open. */
  lemma EndMeansEmpty<T(!new)>(st: State<T>, end: EndId)
    requires Reachable(st)
    ensures ReceiveNowait(st, end).1 == Ended <==> end in st.receiveEnds && AtEnd(st)
    ensures AtEnd(st) ==> st.taken == Kept(st.accepted, st.withdrawn)
    ensures forall op :: op in st.receivers && MayResume(st.receivers[op].task) ==>
              (ResumeReceive(st, op).1 == Ended ==> AtEnd(st))
  {
    ReachableOk(st);
    if st.waitingSenders != [] {
      assert st.waitingSenders[0] in st.waitingSenders;
    }
    forall op | op in st.receivers && MayResume(st.receivers[op].task) && ResumeReceive(st, op).1 == Ended
      ensures AtEnd(st)
    {
      assert ReceiverAt(st, op);
    }
  }

  /** The end of the stream is permanent, and nothing is accepted after it. */
  lemma {:induction false} EndIsPermanent<T>(st: State<T>, steps: seq<Step<T>>)
    requires Ok(st) && AtEnd(st) && Runs(st, steps)
    ensures AtEnd(After(st, steps)) && After(st, steps).accepted == st.accepted
    decreases |steps|
  {
    if steps != [] {
      StepKeeps(st, steps[0]);
      EndIsPermanent(Next(st, steps[0]), steps[1..]);
    }
  }

  // ----- what a cancellation can cost -----

  lemma RunsBack<T>(st: State<T>, step: Step<T>, steps: seq<Step<T>>)
    requires Enabled(st, step) && Runs(Next(st, step), steps)
    ensures Runs(st, [step] + steps)
    ensures After(st, [step] + steps) == After(Next(st, step), steps)
  {
    assert ([step] + steps)[1..] == steps;
  }

  /** A `send` that a scope cancels may have been delivered: a receiver takes its item before
      the cancelled task runs again. */
  lemma CancelledSendCanBeDelivered() returns (st: State<int>, op: OpId)
    ensures Reachable(st) && Enabled(st, DoResumeSend(op))
    ensures st.senders[op].task.native == 0
    ensures ResumeSend(st, op).1 == Interrupted && st.taken == [st.senders[op].item]
  {
    var s0 := New<int>(Some(0));
    op := 2;
    var s1 := Next(s0, DoSend(0, 7));
    var s2 := Next(s1, DoDeliver(op));
    st := Next(s2, DoReceiveNowait(1));
    RunsBack(s2, DoReceiveNowait(1), []);
    RunsBack(s1, DoDeliver(op), [DoReceiveNowait(1)] + []);
    RunsBack(s0, DoSend(0, 7), [DoDeliver(op)] + ([DoReceiveNowait(1)] + []));
  }

  /** A hand-off is lost when a native cancellation strikes its receiver in the gap. */
  lemma HandOffCanBeLost() returns (st: State<int>, op: OpId)
    ensures Reachable(st) && Enabled(st, DoResumeReceive(op))
    ensures st.receivers[op].given.Some? && st.taken == [st.receivers[op].given.value]
    ensures ResumeReceive(st, op).1 == Interrupted
  {
    var s0 := New<int>(Some(0));
    op := 2;
    var s1 := Next(s0, DoReceive(1, 0, false));
    var s2 := Next(s1, DoSendNowait(0, 7));
    st := Next(s2, DoNative(op));
    RunsBack(s2, DoNative(op), []);
    RunsBack(s1, DoSendNowait(0, 7), [DoNative(op)] + []);
    RunsBack(s0, DoReceive(1, 0, false), [DoSendNowait(0, 7)] + ([DoNative(op)] + []));
  }

  // ----- a receiver that nobody will wake -----

  /** A blocked `receive()` that is not in the queue any more and has nothing to run for. */
  predicate Stranded<T>(st: State<T>, op: OpId) {
    && op in st.receivers && op !in st.waitingReceivers
    && st.receivers[op].given == None && st.receivers[op].task.waiter == Pending
  }

  /** An open send end offers an item, and the loop passes over `op`. */
  predicate PassesOver<T>(st: State<T>, step: Step<T>, op: OpId) {
    && (step.DoSendNowait? || step.DoSend?) && step.end in st.sendEnds && st.receiveEnds != {}
    && op in st.receivers && st.receivers[op].task.waiter == Pending
    && exists j :: 0 <= j < FirstWilling(st, 0) && st.waitingReceivers[j] == op
  }

  /** What a step that is no offer does to the queue of receivers. */
  lemma OtherStepsStrandNobody<T(!new)>(st: State<T>, step: Step<T>, op: OpId)
    requires Ok(st) && Enabled(st, step) && !Stranded(st, op)
    requires !step.DoSendNowait? && !step.DoSend?
    ensures !Stranded(Next(st, step), op)
  {
    if step.DoResumeReceive? {
      LeavingStrandsNobody(st, step.op, op);
    }
  }

  lemma LeavingStrandsNobody<T(!new)>(st: State<T>, x: OpId, op: OpId)
    requires Ok(st) && x in st.receivers && !Stranded(st, op)
    ensures !Stranded(ResumeReceive(st, x).0, op)
  {
    if op in st.waitingReceivers && op != x {
      WithoutKeepsOthers(st.waitingReceivers, x);
    }
  }

  /** What an offer leaves of the queue, and of a receiver that it does not choose. */
  lemma AfterOffer<T(!new)>(st: State<T>, v: T, op: OpId)
    requires Ok(st)
    ensures var q, k, n := st.waitingReceivers, FirstWilling(st, 0), Offer(st, v).0;
            && n.waitingReceivers == (if k < |q| then q[k + 1..] else [])
            && (op in n.receivers <==> op in st.receivers)
            && (op in st.receivers && (k == |q| || op != q[k]) ==> n.receivers[op] == st.receivers[op])
            && (op in st.receivers && k < |q| && op == q[k] ==> n.receivers[op].given.Some?)
  {
    var k := FirstWilling(st, 0);
    assert k < |st.waitingReceivers| ==> st.waitingReceivers[k] in st.waitingReceivers;
  }

  /** Who is before the first willing receiver is not behind it. */
  lemma PassedOver<T(!new)>(st: State<T>, op: OpId)
    requires Ok(st)
    ensures var q, k := st.waitingReceivers, FirstWilling(st, 0);
            && ((exists j :: 0 <= j < k && q[j] == op) <==> op in q[..k])
            && (op in q[..k] ==> op in q && (k < |q| ==> op != q[k] && op !in q[k + 1..]))
            && (op in q ==> op in q[..k] || (k < |q| && (op == q[k] || op in q[k + 1..])))
  {
    var q, k := st.waitingReceivers, FirstWilling(st, 0);
    if op in q[..k] {
      var j :| 0 <= j < k && q[..k][j] == op;
      assert q[j] == op;
      BehindIsLater(q, k, op, j);
    }
    if op in q {
      var j :| 0 <= j < |q| && q[j] == op;
      if j < k {
        assert q[..k][j] == op;
      } else if j > k {
        assert q[k + 1..][j - k - 1] == op;
      }
    }
    if j :| 0 <= j < k && q[j] == op {
      assert q[..k][j] == op;
    }
  }

  lemma BehindIsLater(q: seq<OpId>, k: nat, op: OpId, j: nat)
    requires NoRepeat(q) && j < k <= |q| && q[j] == op
    ensures k < |q| ==> op != q[k] && op !in q[k + 1..]
  {
    assert forall x :: k <= x < |q| ==> q[x] != op;
  }

  lemma OfferStrandsPassedOver<T(!new)>(st: State<T>, v: T, op: OpId)
    requires Ok(st) && !Stranded(st, op)
    ensures Stranded(Offer(st, v).0, op) <==>
              && op in st.receivers && st.receivers[op].task.waiter == Pending
              && exists j :: 0 <= j < FirstWilling(st, 0) && st.waitingReceivers[j] == op
  {
    AfterOffer(st, v, op);
    PassedOver(st, op);
    assert op in st.receivers ==> ReceiverAt(st, op);
  }

  /** The exact step that strands a receiver: a send that passes over its blocked call, because
      the task already has a cancellation pending. */
  lemma StrandsOnlyIf<T(!new)>(st: State<T>, step: Step<T>, op: OpId)
    requires Reachable(st) && Enabled(st, step) && !Stranded(st, op)
    ensures Stranded(Next(st, step), op) <==> PassesOver(st, step, op)
  {
    ReachableOk(st);
    if step.DoSendNowait? || step.DoSend? {
      OfferStrandsPassedOver(st, step.v, op);
    } else {
      OtherStepsStrandNobody(st, step, op);
    }
  }

  lemma OfferKeepsStranded<T(!new)>(st: State<T>, v: T, op: OpId)
    requires Ok(st) && Stranded(st, op)
    ensures Stranded(Offer(st, v).0, op)
  {
    assert forall x :: x in Offer(st, v).0.waitingReceivers ==> x in st.waitingReceivers;
    var k := FirstWilling(st, 0);
    assert k < |st.waitingReceivers| ==> st.waitingReceivers[k] in st.waitingReceivers;
  }

  lemma OtherStepsKeepStranded<T(!new)>(st: State<T>, step: Step<T>, op: OpId)
    requires Ok(st) && Enabled(st, step) && Stranded(st, op)
    requires step !in {DoDeliver(op), DoNative(op)} && !step.DoSendNowait? && !step.DoSend?
    ensures Stranded(Next(st, step), op)
  {
    assert ReceiverAt(st, op);
  }

  /** Only a cancellation gets a stranded receiver going again: no send and no close does. */
  lemma StrandedStays<T(!new)>(st: State<T>, step: Step<T>, op: OpId)
    requires Reachable(st) && Enabled(st, step) && Stranded(st, op)
    requires step !in {DoDeliver(op), DoNative(op)}
    ensures Stranded(Next(st, step), op)
  {
    ReachableOk(st);
    if step.DoSendNowait? || step.DoSend? {
      OfferKeepsStranded(st, step.v, op);
    } else {
      OtherStepsKeepStranded(st, step, op);
    }
  }

  /** A task that was cancelled before and goes on receiving is passed over, and then not even
      the end of the stream wakes it. */
  lemma SendCanStrand() returns (st: State<int>, op: OpId)
    ensures Reachable(st) && Stranded(st, op) && st.sendEnds == {}
  {
    var s0 := New<int>(Some(1));
    op := 2;
    var s1 := Next(s0, DoReceive(1, 1, false));
    assert FirstWilling(s1, 0) == 1;
    var s2 := Next(s1, DoSendNowait(0, 7));
    st := Next(s2, DoCloseSend(0));
    RunsBack(s2, DoCloseSend(0), []);
    RunsBack(s1, DoSendNowait(0, 7), [DoCloseSend(0)] + []);
    RunsBack(s0, DoReceive(1, 1, false), [DoSendNowait(0, 7)] + ([DoCloseSend(0)] + []));
  }
}

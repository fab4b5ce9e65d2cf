/** What every run of a memory object stream keeps. */
module MemoryStreamRuns {
  import opened Wrappers
  import opened Tasks
  import opened Sequences
  import opened MemoryStream

  // ----- the kept items -----

  lemma KeptAppend<T>(accepted: seq<Item<T>>, withdrawn: set<nat>, x: Item<T>)
    ensures Kept(accepted + [x], withdrawn)
            == Kept(accepted, withdrawn) + if x.stamp in withdrawn then [] else [x]
  {
    assert (accepted + [x])[..|accepted|] == accepted;
  }

  /** The stamps of a sequence grow strictly. */
  ghost predicate StampsRise<T>(s: seq<Item<T>>) {
    forall i, j :: 0 <= i < j < |s| ==> s[i].stamp < s[j].stamp
  }

  lemma KeptRisesOn<T>(kept: seq<Item<T>>, last: Item<T>)
    requires StampsRise(kept) && forall i :: 0 <= i < |kept| ==> kept[i].stamp < last.stamp
    ensures StampsRise(kept + [last])
    ensures forall i :: 0 <= i < |kept + [last]| ==> (kept + [last])[i].stamp <= last.stamp
  {
  }

  lemma {:induction false} KeptRises<T>(accepted: seq<Item<T>>, withdrawn: set<nat>)
    requires forall i :: 0 <= i < |accepted| ==> accepted[i].stamp == i
    ensures StampsRise(Kept(accepted, withdrawn))
    ensures forall i :: 0 <= i < |Kept(accepted, withdrawn)| ==> Kept(accepted, withdrawn)[i].stamp < |accepted|
    ensures forall k :: 0 <= k < |accepted| && k !in withdrawn ==> accepted[k] in Kept(accepted, withdrawn)
  {
    if accepted != [] {
      var init := accepted[..|accepted| - 1];
      var last := accepted[|accepted| - 1];
      var kept := Kept(init, withdrawn);
      KeptRises(init, withdrawn);
      KeptRisesOn(kept, last);
      assert kept + [] == kept;
      forall k | 0 <= k < |accepted| && k !in withdrawn
        ensures accepted[k] in Kept(accepted, withdrawn)
      {
        assert k < |init| ==> accepted[k] == init[k];
      }
    }
  }

  /** `s` without the item stamped `k`. */
  ghost function Minus<T>(s: seq<Item<T>>, k: nat): seq<Item<T>> {
    if s == [] then []
    else Minus(s[..|s| - 1], k) + if s[|s| - 1].stamp == k then [] else [s[|s| - 1]]
  }

  lemma {:induction false} KeptWithdraw<T>(accepted: seq<Item<T>>, withdrawn: set<nat>, k: nat)
    ensures Kept(accepted, withdrawn + {k}) == Minus(Kept(accepted, withdrawn), k)
  {
    if accepted != [] {
      var init := accepted[..|accepted| - 1];
      var last := accepted[|accepted| - 1];
      KeptWithdraw(init, withdrawn, k);
      if last.stamp !in withdrawn {
        assert (Kept(init, withdrawn) + [last])[..|Kept(init, withdrawn)|] == Kept(init, withdrawn);
      } else {
        assert Kept(init, withdrawn) + [] == Kept(init, withdrawn);
      }
    }
  }

  lemma {:induction false} MinusConcat<T>(a: seq<Item<T>>, b: seq<Item<T>>, k: nat)
    ensures Minus(a + b, k) == Minus(a, k) + Minus(b, k)
  {
    if b == [] {
      assert a + b == a;
    } else {
      assert (a + b)[..|a + b| - 1] == a + b[..|b| - 1];
      MinusConcat(a, b[..|b| - 1], k);
    }
  }

  lemma {:induction false} MinusAbsent<T>(s: seq<Item<T>>, k: nat)
    requires forall i :: 0 <= i < |s| ==> s[i].stamp != k
    ensures Minus(s, k) == s
  {
    if s != [] {
      var init, last := s[..|s| - 1], s[|s| - 1];
      MinusAbsent(init, k);
      assert s == init + [last];
    }
  }

  // ----- the queue of senders -----

  ghost predicate SameItems<T>(ops: seq<OpId>, a: map<OpId, Sender<T>>, b: map<OpId, Sender<T>>) {
    forall op :: op in ops ==> op in a && op in b && a[op].item == b[op].item
  }

  lemma {:induction false} QueuedFrame<T>(ops: seq<OpId>, a: map<OpId, Sender<T>>, b: map<OpId, Sender<T>>)
    requires SameItems(ops, a, b)
    ensures Queued(ops, a) == Queued(ops, b)
  {
    if ops != [] {
      QueuedFrame(ops[1..], a, b);
    }
  }

  lemma {:induction false} QueuedAppend<T>(ops: seq<OpId>, op: OpId, senders: map<OpId, Sender<T>>)
    requires op in senders
    ensures Queued(ops + [op], senders) == Queued(ops, senders) + [senders[op].item]
  {
    var item := senders[op].item;
    if ops == [] {
      assert ops + [op] == [op] && [op][1..] == [];
      assert [item] + Queued([], senders) == [item];
    } else {
      var first := if ops[0] in senders then [senders[ops[0]].item] else [];
      assert (ops + [op])[1..] == ops[1..] + [op];
      QueuedAppend(ops[1..], op, senders);
      assert first + (Queued(ops[1..], senders) + [item]) == (first + Queued(ops[1..], senders)) + [item];
    }
  }

  /** Every queued item belongs to a queued call. */
  lemma {:induction false} QueuedFrom<T>(ops: seq<OpId>, senders: map<OpId, Sender<T>>, item: Item<T>)
    requires item in Queued(ops, senders)
    ensures exists op :: op in ops && op in senders && senders[op].item == item
  {
    if ops[0] in senders && senders[ops[0]].item == item {
    } else {
      QueuedFrom(ops[1..], senders, item);
    }
  }

  lemma {:induction false} QueuedHas<T>(ops: seq<OpId>, senders: map<OpId, Sender<T>>, op: OpId)
    requires op in ops && op in senders
    ensures senders[op].item in Queued(ops, senders)
  {
    if ops[0] != op {
      QueuedHas(ops[1..], senders, op);
    }
  }

  /** Taking a call out of the queue takes out its item. */
  lemma {:induction false} QueuedWithout<T>(ops: seq<OpId>, senders: map<OpId, Sender<T>>, op: OpId)
    requires op in senders
    requires forall x :: x in ops ==> x in senders && (senders[x].item.stamp == senders[op].item.stamp ==> x == op)
    ensures Queued(Without(ops, op), senders) == Minus(Queued(ops, senders), senders[op].item.stamp)
  {
    if ops != [] {
      var k := senders[op].item.stamp;
      var first := senders[ops[0]].item;
      QueuedWithout(ops[1..], senders, op);
      MinusConcat([first], Queued(ops[1..], senders), k);
      assert [first][..0] == [];
      assert Minus([first], k) == if first.stamp == k then [] else [first];
    }
  }

  // ----- sending -----

  /** Items given so far carry stamps of accepted items. */
  lemma TakenIsOld<T>(st: State<T>, x: OpId)
    requires Ok(st) && x in st.receivers
    ensures st.receivers[x].given.Some? ==> st.receivers[x].given.value.stamp < |st.accepted|
  {
    assert ReceiverAt(st, x);
    KeptRises(st.accepted, st.withdrawn);
    var all := Kept(st.accepted, st.withdrawn);
    if st.receivers[x].given.Some? {
      var i :| 0 <= i < |st.taken| && st.taken[i] == st.receivers[x].given.value;
      assert all[i] == st.taken[i];
    }
  }

  lemma GiveKeepsReceiver<T>(st: State<T>, k: nat, v: T, x: OpId)
    requires Ok(st) && k < |st.waitingReceivers| && k == FirstWilling(st, 0) && x in st.receivers
    ensures x in Offer(st, v).0.receivers && ReceiverAt(Offer(st, v).0, x)
  {
    var op := st.waitingReceivers[k];
    assert op in st.waitingReceivers;
    assert ReceiverAt(st, op) && ReceiverAt(st, x);
    FirstIsWilling(st, 0);
    forall y | y in st.receivers
      ensures st.receivers[y].given.Some? ==> st.receivers[y].given.value.stamp < |st.accepted|
    {
      TakenIsOld(st, y);
    }
  }

  /** An item that is handed over comes after everything taken: nothing else is in the line. */
  lemma GivenKeepsFifo<T>(st: State<T>, item: Item<T>, n: State<T>)
    requires Fifo(st) && st.buffer == [] && st.waitingSenders == [] && item.stamp == |st.accepted|
    requires n.accepted == st.accepted + [item] && n.taken == st.taken + [item]
    requires n.buffer == [] && n.withdrawn == st.withdrawn && n.waitingSenders == []
    ensures Fifo(n)
  {
    KeptAppend(st.accepted, st.withdrawn, item);
  }

  lemma KeepsDistinct(q: seq<OpId>, k: nat)
    requires NoRepeat(q) && k <= |q|
    ensures NoRepeat(q[k..]) && forall op :: op in q[k..] ==> op in q
  {
  }

  lemma GiveKeeps<T>(st: State<T>, k: nat, v: T)
    requires Ok(st) && k < |st.waitingReceivers| && k == FirstWilling(st, 0)
    ensures st.waitingReceivers[k] in st.receivers
    ensures Ok(Offer(st, v).0)
  {
    var op := st.waitingReceivers[k];
    var n := Offer(st, v).0;
    assert op in st.waitingReceivers;
    assert ReceiverAt(st, op);
    GivenKeepsFifo(st, Item(|st.accepted|, v), n);
    KeepsDistinct(st.waitingReceivers, k + 1);
    forall x | x in n.receivers
      ensures ReceiverAt(n, x)
    {
      GiveKeepsReceiver(st, k, v, x);
    }
    forall x | x in n.senders
      ensures SenderAt(n, x)
    {
      assert SenderAt(st, x);
    }
  }

  lemma {:induction false} FirstIsWilling<T>(st: State<T>, i: nat)
    requires i <= |st.waitingReceivers|
    ensures var k := FirstWilling(st, i);
            k < |st.waitingReceivers| && st.waitingReceivers[k] in st.receivers ==>
            !HasPending(st.receivers[st.waitingReceivers[k]])
    decreases |st.waitingReceivers| - i
  {
    if i < |st.waitingReceivers| && st.waitingReceivers[i] in st.receivers
       && HasPending(st.receivers[st.waitingReceivers[i]]) {
      FirstIsWilling(st, i + 1);
    }
  }

  /** Without blocked senders an accepted item goes to the end of the line. */
  lemma BufferedKeepsFifo<T>(st: State<T>, item: Item<T>, n: State<T>)
    requires Fifo(st) && st.waitingSenders == [] && item.stamp == |st.accepted|
    requires n.accepted == st.accepted + [item] && n.buffer == st.buffer + [item]
    requires n.taken == st.taken && n.withdrawn == st.withdrawn && n.waitingSenders == []
    ensures Fifo(n)
  {
    KeptAppend(st.accepted, st.withdrawn, item);
    AppendToBuffer(st.taken, st.buffer, item);
  }

  lemma AppendToBuffer<T>(taken: seq<T>, buffer: seq<T>, item: T)
    ensures taken + (buffer + [item]) + [] == taken + buffer + [] + [item]
  {
  }

  lemma BufferedOfferKeepsFifo<T>(st: State<T>, v: T)
    requires Ok(st) && FirstWilling(st, 0) == |st.waitingReceivers|
    ensures Fifo(Offer(st, v).0)
  {
    if !Full(st) {
      BufferedKeepsFifo(st, Item(|st.accepted|, v), Offer(st, v).0);
    }
  }

  lemma OfferKeeps<T>(st: State<T>, v: T)
    requires Ok(st) && st.sendEnds != {}
    ensures Ok(Offer(st, v).0)
  {
    var k := FirstWilling(st, 0);
    if k < |st.waitingReceivers| {
      GiveKeeps(st, k, v);
    } else {
      var n := Offer(st, v).0;
      BufferedOfferKeepsFifo(st, v);
      forall x | x in n.receivers
        ensures ReceiverAt(n, x)
      {
        assert ReceiverAt(st, x);
      }
      forall x | x in n.senders
        ensures SenderAt(n, x)
      {
        assert SenderAt(st, x);
      }
    }
  }

  function Enqueue<T>(st: State<T>, v: T): State<T> {
    Accept(st.(waitingSenders := st.waitingSenders + [st.nextId],
               senders := st.senders[st.nextId := Sender(Waiting(0), Item(|st.accepted|, v))],
               nextId := st.nextId + 1), v)
  }

  lemma NextIsFresh<T>(st: State<T>)
    requires Ok(st)
    ensures st.nextId !in st.senders && st.nextId !in st.receivers
    ensures st.nextId !in st.waitingSenders && st.nextId !in st.waitingReceivers
  {
    forall x | x in st.senders
      ensures x < st.nextId
    {
      assert SenderAt(st, x);
    }
    forall x | x in st.receivers
      ensures x < st.nextId
    {
      assert ReceiverAt(st, x);
    }
  }

  lemma EnqueueKeepsFifo<T>(st: State<T>, v: T)
    requires Ok(st)
    ensures Fifo(Enqueue(st, v))
  {
    var n := Enqueue(st, v);
    var item := Item(|st.accepted|, v);
    NextIsFresh(st);
    KeptAppend(st.accepted, st.withdrawn, item);
    QueuedFrame(st.waitingSenders, st.senders, n.senders);
    QueuedAppend(st.waitingSenders, st.nextId, n.senders);
    assert n.taken + n.buffer + Queued(n.waitingSenders, n.senders)
        == (st.taken + st.buffer + Queued(st.waitingSenders, st.senders)) + [item];
  }

  /** A call that would block joins the queue of senders. */
  lemma EnqueueKeeps<T>(st: State<T>, v: T)
    requires Ok(st) && Full(st) && st.waitingReceivers == [] && st.sendEnds != {} && st.receiveEnds != {}
    ensures Ok(Enqueue(st, v))
  {
    var n := Enqueue(st, v);
    NextIsFresh(st);
    EnqueueKeepsFifo(st, v);
    FreshStamp(st, |st.accepted|);
    forall x | x in n.receivers
      ensures ReceiverAt(n, x)
    {
      assert ReceiverAt(st, x);
    }
    forall x | x in n.senders
      ensures SenderAt(n, x)
    {
      if x != st.nextId {
        assert SenderAt(st, x);
      }
    }
  }

  lemma SendKeeps<T>(st: State<T>, end: EndId, v: T)
    requires Ok(st)
    ensures Ok(Send(st, end, v).0)
  {
    if end in st.sendEnds && st.receiveEnds != {} {
      OfferKeeps(st, v);
      var (n, r) := Offer(st, v);
      if r == WouldBlock {
        BlockedOfferIsFull(st, v);
        EnqueueKeeps(n, v);
        BlockedSendEnqueues(st, end, v, n);
      }
    }
  }

  lemma BlockedSendEnqueues<T>(st: State<T>, end: EndId, v: T, n: State<T>)
    requires SendNowait(st, end, v) == (n, WouldBlock)
    ensures Send(st, end, v).0 == Enqueue(n, v)
  {
  }

  lemma BlockedOfferIsFull<T>(st: State<T>, v: T)
    requires Offer(st, v).1 == WouldBlock
    ensures var n := Offer(st, v).0;
            Full(n) && n.waitingReceivers == [] && n.sendEnds == st.sendEnds
  {
  }

  lemma FreshStamp<T>(st: State<T>, k: nat)
    requires Ok(st) && k >= |st.accepted|
    ensures forall x :: x in st.senders ==> st.senders[x].item.stamp != k
  {
    forall x | x in st.senders
      ensures st.senders[x].item.stamp != k
    {
      assert SenderAt(st, x);
    }
  }

  // ----- a blocked sender runs again -----

  lemma SendersFromSenders<T>(st: State<T>, op: OpId)
    requires Ok(st) && op in st.senders
    ensures forall x :: x in st.waitingSenders ==>
              x in st.senders && (st.senders[x].item.stamp == st.senders[op].item.stamp ==> x == op)
  {
    assert SenderAt(st, op);
  }

  /** The stamps of what is taken and buffered are not those of queued calls. */
  lemma QueuedIsElsewhere<T>(st: State<T>, op: OpId)
    requires Ok(st) && op in st.waitingSenders
    ensures op in st.senders
    ensures var k := st.senders[op].item.stamp;
            forall i :: 0 <= i < |st.taken + st.buffer| ==> (st.taken + st.buffer)[i].stamp != k
  {
    var done := st.taken + st.buffer;
    var queued := Queued(st.waitingSenders, st.senders);
    var item := st.senders[op].item;
    QueuedHas(st.waitingSenders, st.senders, op);
    KeptRises(st.accepted, st.withdrawn);
    var all := Kept(st.accepted, st.withdrawn);
    assert all == done + queued;
    var j :| 0 <= j < |queued| && queued[j] == item;
    assert all[|done| + j] == item;
    forall i | 0 <= i < |done|
      ensures done[i].stamp != item.stamp
    {
      assert all[i] == done[i];
    }
  }

  lemma WithdrawKeepsFifo<T>(st: State<T>, op: OpId)
    requires Ok(st) && op in st.waitingSenders
    ensures op in st.senders
    ensures Fifo(ResumeSend(st, op).0)
  {
    var k := st.senders[op].item.stamp;
    var n := ResumeSend(st, op).0;
    var queued := Queued(st.waitingSenders, st.senders);
    assert SenderAt(st, op);
    KeptWithdraw(st.accepted, st.withdrawn, k);
    MinusConcat(st.taken + st.buffer, queued, k);
    QueuedIsElsewhere(st, op);
    MinusAbsent(st.taken + st.buffer, k);
    SendersFromSenders(st, op);
    QueuedWithout(st.waitingSenders, st.senders, op);
    QueuedFrame(n.waitingSenders, st.senders, n.senders);
  }

  lemma ResumeSendKeeps<T>(st: State<T>, op: OpId)
    requires Ok(st) && op in st.senders
    ensures Ok(ResumeSend(st, op).0)
  {
    var n := ResumeSend(st, op).0;
    WithoutKeepsOrder(st.waitingSenders, op);
    if op in st.waitingSenders {
      WithdrawKeepsFifo(st, op);
    } else {
      QueuedFrame(st.waitingSenders, st.senders, n.senders);
    }
    assert SenderAt(st, op);
    forall x | x in n.receivers
      ensures ReceiverAt(n, x)
    {
      assert ReceiverAt(st, x);
    }
    forall x | x in n.senders
      ensures SenderAt(n, x)
    {
      assert SenderAt(st, x);
    }
  }

  // ----- receiving -----

  /** `receive_nowait` in one step: the first of the buffered and queued items is taken, and
      the oldest blocked sender moves up into the buffer. */
  lemma ReceiveNowaitKeepsFifo<T>(st: State<T>, end: EndId)
    requires Ok(st)
    ensures Fifo(ReceiveNowait(st, end).0)
  {
    var n := ReceiveNowait(st, end).0;
    if end in st.receiveEnds && st.waitingSenders != [] {
      var op := st.waitingSenders[0];
      assert op in st.waitingSenders;
      var item := st.senders[op].item;
      var rest := Queued(st.waitingSenders[1..], st.senders);
      QueuedFrame(st.waitingSenders[1..], st.senders, n.senders);
      assert n.taken + n.buffer == st.taken + st.buffer + [item];
      assert n.taken + n.buffer + rest == st.taken + st.buffer + ([item] + rest);
    } else if end in st.receiveEnds && st.buffer != [] {
      assert n.taken + n.buffer == st.taken + st.buffer;
    }
  }

  lemma ReceiveNowaitKeeps<T>(st: State<T>, end: EndId)
    requires Ok(st)
    ensures Ok(ReceiveNowait(st, end).0)
  {
    var n := ReceiveNowait(st, end).0;
    ReceiveNowaitKeepsFifo(st, end);
    forall x | x in n.receivers
      ensures ReceiverAt(n, x)
    {
      assert ReceiverAt(st, x);
    }
    if st.waitingSenders != [] {
      assert st.waitingSenders[0] in st.waitingSenders;
    }
    forall x | x in n.senders
      ensures SenderAt(n, x)
    {
      assert SenderAt(st, x);
      MovedUp(st, end, x);
    }
  }

  /** The sender that moves up is out of the queue, and the others stay in it. */
  lemma MovedUp<T>(st: State<T>, end: EndId, x: OpId)
    requires Ok(st)
    ensures var n := ReceiveNowait(st, end).0;
            x in n.waitingSenders <==>
            x in st.waitingSenders && !(end in st.receiveEnds && x == st.waitingSenders[0])
  {
    if st.waitingSenders != [] {
      var first := st.waitingSenders[0];
      assert first in st.waitingSenders;
      assert st.waitingSenders == [first] + st.waitingSenders[1..];
    }
  }

  /** An empty stream with an open sender gets one more blocked receiver. */
  lemma EnrolKeeps<T>(st: State<T>, requests: nat, scoped: bool)
    requires Ok(st) && st.waitingSenders == [] && st.buffer == [] && st.sendEnds != {}
    ensures Ok(Enrol(st, requests, scoped))
  {
    var n := Enrol(st, requests, scoped);
    NextIsFresh(st);
    forall x | x in n.receivers
      ensures ReceiverAt(n, x)
    {
      if x != st.nextId {
        assert ReceiverAt(st, x);
      }
    }
    forall x | x in n.senders
      ensures SenderAt(n, x)
    {
      assert SenderAt(st, x);
    }
  }

  lemma ReceiveKeeps<T>(st: State<T>, end: EndId, requests: nat, scoped: bool)
    requires Ok(st)
    ensures Ok(Receive(st, end, requests, scoped).0)
  {
    ReceiveNowaitKeeps(st, end);
    var m := ReceiveNowait(st, end).0;
    if ReceiveNowait(st, end).1 == WouldBlock {
      var n := Receive(st, end, requests, scoped).0;
      assert m.waitingSenders == [] && m.buffer == [];
      EnrolKeeps(m, requests, scoped);
    }
  }

  lemma ResumeReceiveKeeps<T>(st: State<T>, op: OpId)
    requires Ok(st) && op in st.receivers
    ensures Ok(ResumeReceive(st, op).0)
  {
    var n := ResumeReceive(st, op).0;
    WithoutKeepsOrder(st.waitingReceivers, op);
    forall x | x in n.receivers
      ensures ReceiverAt(n, x)
    {
      assert ReceiverAt(st, x);
    }
    forall x | x in n.senders
      ensures SenderAt(n, x)
    {
      assert SenderAt(st, x);
    }
  }

  // ----- clones and closes -----

  lemma EndsKeep<T>(st: State<T>, n: State<T>)
    requires Ok(st)
    requires n == st.(sendEnds := n.sendEnds, receiveEnds := n.receiveEnds, nextId := n.nextId)
    requires n.nextId >= st.nextId
    requires forall e :: e in n.sendEnds || e in n.receiveEnds ==> e < n.nextId
    requires st.sendEnds == {} <==> n.sendEnds == {}
    requires st.receiveEnds == {} <==> n.receiveEnds == {}
    ensures Ok(n)
  {
    forall x | x in n.receivers
      ensures ReceiverAt(n, x)
    {
      assert ReceiverAt(st, x);
    }
    forall x | x in n.senders
      ensures SenderAt(n, x)
    {
      assert SenderAt(st, x);
    }
  }

  lemma CloseSendKeeps<T>(st: State<T>, end: EndId)
    requires Ok(st)
    ensures Ok(CloseSend(st, end))
  {
    var n := CloseSend(st, end);
    if end in st.sendEnds {
      if n.sendEnds != {} {
        EndsKeep(st, n);
      } else {
        forall x | x in n.receivers
          ensures ReceiverAt(n, x)
        {
          assert ReceiverAt(st, x);
        }
        forall x | x in n.senders
          ensures SenderAt(n, x)
        {
          assert SenderAt(st, x);
        }
      }
    }
  }

  lemma CloseReceiveKeeps<T>(st: State<T>, end: EndId)
    requires Ok(st)
    ensures Ok(CloseReceive(st, end))
  {
    var n := CloseReceive(st, end);
    if end in st.receiveEnds {
      if n.receiveEnds != {} {
        EndsKeep(st, n);
      } else {
        QueuedFrame(st.waitingSenders, st.senders, n.senders);
        forall x | x in n.receivers
          ensures ReceiverAt(n, x)
        {
          assert ReceiverAt(st, x);
        }
        forall x | x in n.senders
          ensures SenderAt(n, x)
        {
          assert SenderAt(st, x);
        }
      }
    }
  }

  // ----- cancellations -----

  lemma SenderTaskKeeps<T>(st: State<T>, op: OpId, task: Task)
    requires Ok(st) && op in st.senders
    requires task in {Delivered(st.senders[op].task), NativelyCancelled(st.senders[op].task)}
    ensures Ok(ChangeTask(st, op, task))
  {
    var n := ChangeTask(st, op, task);
    QueuedFrame(st.waitingSenders, st.senders, n.senders);
    forall x | x in n.receivers
      ensures ReceiverAt(n, x)
    {
      assert ReceiverAt(st, x);
    }
    forall x | x in n.senders
      ensures SenderAt(n, x)
    {
      assert SenderAt(st, x);
    }
  }

  lemma ReceiverTaskKeeps<T>(st: State<T>, op: OpId, task: Task)
    requires Ok(st) && op in st.receivers && op !in st.senders
    requires task in {Delivered(st.receivers[op].task), NativelyCancelled(st.receivers[op].task)}
    ensures Ok(ChangeTask(st, op, task))
  {
    var n := ChangeTask(st, op, task);
    forall x | x in n.receivers
      ensures ReceiverAt(n, x)
    {
      assert ReceiverAt(st, x);
    }
    forall x | x in n.senders
      ensures SenderAt(n, x)
    {
      assert SenderAt(st, x);
    }
  }

  lemma TaskChangeKeeps<T>(st: State<T>, op: OpId, task: Task)
    requires Ok(st) && (op in st.senders || op in st.receivers)
    requires task in {Delivered(TaskOf(st, op)), NativelyCancelled(TaskOf(st, op))}
    ensures Ok(ChangeTask(st, op, task))
  {
    if op in st.senders {
      SenderTaskKeeps(st, op, task);
    } else {
      ReceiverTaskKeeps(st, op, task);
    }
  }

  // ----- runs -----

  lemma NewOk<T>(maxSize: Option<nat>)
    ensures Ok(New<T>(maxSize))
  {
  }

  lemma StepKeeps<T>(st: State<T>, step: Step<T>)
    requires Ok(st) && Enabled(st, step)
    ensures Ok(Next(st, step))
  {
    match step
    case DoSendNowait(end, v) => if end in st.sendEnds && st.receiveEnds != {} { OfferKeeps(st, v); }
    case DoSend(end, v) => SendKeeps(st, end, v);
    case DoResumeSend(op) => ResumeSendKeeps(st, op);
    case DoReceiveNowait(end) => ReceiveNowaitKeeps(st, end);
    case DoReceive(end, q, c) => ReceiveKeeps(st, end, q, c);
    case DoResumeReceive(op) => ResumeReceiveKeeps(st, op);
    case DoCloneSend(end) => EndsKeep(st, Next(st, step));
    case DoCloneReceive(end) => EndsKeep(st, Next(st, step));
    case DoCloseSend(end) => CloseSendKeeps(st, end);
    case DoCloseReceive(end) => CloseReceiveKeeps(st, end);
    case DoDeliver(op) => TaskChangeKeeps(st, op, Delivered(TaskOf(st, op)));
    case DoNative(op) => TaskChangeKeeps(st, op, NativelyCancelled(TaskOf(st, op)));
    case DoScope(op, c) => ScopeChangeKeeps(st, op, c);
  }

  lemma ScopeChangeKeeps<T>(st: State<T>, op: OpId, c: bool)
    requires Ok(st) && op in st.receivers
    ensures Ok(st.(receivers := st.receivers[op := st.receivers[op].(scoped := c)]))
  {
    var n := st.(receivers := st.receivers[op := st.receivers[op].(scoped := c)]);
    forall x | x in n.receivers
      ensures ReceiverAt(n, x)
    {
      assert ReceiverAt(st, x);
    }
    forall x | x in n.senders
      ensures SenderAt(n, x)
    {
      assert SenderAt(st, x);
    }
  }

  lemma {:induction false} RunKeeps<T>(st: State<T>, steps: seq<Step<T>>)
    requires Ok(st) && Runs(st, steps)
    ensures Ok(After(st, steps))
    decreases |steps|
  {
    if steps != [] {
      StepKeeps(st, steps[0]);
      RunKeeps(Next(st, steps[0]), steps[1..]);
    }
  }
}

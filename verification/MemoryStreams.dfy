/**
 The classes of `streams/memory.py`. Every method changes the shared state as the functions of
 `MemoryStream` say; a coroutine is split at the point where it blocks.
 */
module MemoryStreams {
  import opened Wrappers
  import opened Tasks
  import opened Sequences
  import opened MemoryStream
  import opened MemoryStreamRuns

  /** At position `i` of the queue the loop of `send_nowait` goes on, or ends with a hand-off. */
  lemma NextInLine<T>(st: State<T>, i: nat, v: T)
    requires i < |st.waitingReceivers| && FirstWilling(st, 0) == FirstWilling(st, i)
    requires st.waitingReceivers[i] in st.receivers
    ensures st.waitingReceivers[i..][0] == st.waitingReceivers[i]
    ensures st.waitingReceivers[i..][1..] == st.waitingReceivers[i + 1..]
    ensures var op := st.waitingReceivers[i];
            if HasPending(st.receivers[op]) then FirstWilling(st, 0) == FirstWilling(st, i + 1)
            else
              && FirstWilling(st, 0) == i
              && Offer(st, v).0 == Give(Accept(st.(waitingReceivers := st.waitingReceivers[i + 1..]), v),
                                        op, Item(|st.accepted|, v))
  {
  }

  class StreamState<T> {
    const maxBufferSize: Option<nat>
    var buffer: seq<Item<T>>
    var openSendChannels: nat
    var openReceiveChannels: nat
    var waitingReceivers: seq<OpId>
    var waitingSenders: seq<OpId>
    var receivers: map<OpId, Receiver<T>>
    var senders: map<OpId, Sender<T>>
    var nextId: nat
    ghost var sendEnds: set<EndId>
    ghost var receiveEnds: set<EndId>
    ghost var accepted: seq<Item<T>>
    ghost var withdrawn: set<nat>
    ghost var taken: seq<Item<T>>
    var stamp: nat

    ghost function View(): State<T>
      reads this
    {
      State(maxBufferSize, buffer, waitingReceivers, waitingSenders, receivers, senders,
            sendEnds, receiveEnds, nextId, accepted, withdrawn, taken)
    }

    ghost predicate Valid()
      reads this
    {
      && Ok(View())
      && |sendEnds| == openSendChannels && |receiveEnds| == openReceiveChannels
      && |accepted| == stamp
    }

    constructor (maxSize: Option<nat>)
      ensures Valid() && View() == New<T>(maxSize)
    {
      maxBufferSize := maxSize;
      buffer, waitingReceivers, waitingSenders := [], [], [];
      receivers, senders := map[], map[];
      openSendChannels, openReceiveChannels := 1, 1;
      nextId, stamp := 2, 0;
      sendEnds, receiveEnds, accepted, withdrawn, taken := {0}, {1}, [], {}, [];
      new;
      NewOk<T>(maxSize);
    }

    /** `receiver.item = item; receive_event.set()`. */
    method GiveTo(op: OpId, v: T)
      requires op in receivers && |accepted| == stamp
      modifies this`receivers, this`stamp, this`accepted, this`taken
      ensures |accepted| == stamp
      ensures View() == Give(Accept(old(View()), v), op, Item(old(stamp), v))
    {
      var r := receivers[op];
      var item := Item(stamp, v);
      receivers := receivers[op := r.(given := Some(item), task := Woken(r.task))];
      stamp := stamp + 1;
      accepted := accepted + [item];
      taken := taken + [item];
    }

    /** Hands `v` to the first receiver without a pending cancellation, dropping those before
        it from the queue. */
    method HandOver(v: T) returns (done: bool)
      requires |accepted| == stamp
      requires forall op :: op in waitingReceivers ==> op in receivers
      modifies this
      ensures openSendChannels == old(openSendChannels) && openReceiveChannels == old(openReceiveChannels)
      ensures |accepted| == stamp
      ensures done <==> FirstWilling(old(View()), 0) < |old(waitingReceivers)|
      ensures done ==> View() == Offer(old(View()), v).0
      ensures !done ==> View() == old(View()).(waitingReceivers := [])
    {
      ghost var st := View();
      ghost var i := 0;
      while waitingReceivers != []
        invariant i <= |st.waitingReceivers|
        invariant View() == st.(waitingReceivers := st.waitingReceivers[i..])
        invariant openSendChannels == old(openSendChannels) && openReceiveChannels == old(openReceiveChannels)
        invariant stamp == |accepted|
        invariant FirstWilling(st, 0) == FirstWilling(st, i)
        decreases |waitingReceivers|
      {
        var op := waitingReceivers[0];
        NextInLine(st, i, v);
        waitingReceivers := waitingReceivers[1..];
        var r := receivers[op];
        if !(r.task.requests > 0 || r.scoped) {
          GiveTo(op, v);
          return true;
        }
        i := i + 1;
      }
      done := false;
    }

    /** `send_nowait` past its two checks. */
    method OfferItem(v: T) returns (r: Result<T>)
      requires |accepted| == stamp
      requires forall op :: op in waitingReceivers ==> op in receivers
      modifies this
      ensures openSendChannels == old(openSendChannels) && openReceiveChannels == old(openReceiveChannels)
      ensures |accepted| == stamp
      ensures (View(), r) == Offer(old(View()), v)
    {
      var done := HandOver(v);
      if done {
        return Sent;
      }
      if maxBufferSize.None? || |buffer| < maxBufferSize.value {
        buffer := buffer + [Item(stamp, v)];
        accepted := accepted + [Item(stamp, v)];
        stamp := stamp + 1;
        return Sent;
      }
      r := WouldBlock;
    }

    /** Joins the queue of senders. */
    method Block(v: T) returns (op: OpId)
      requires |accepted| == stamp
      modifies this
      ensures openSendChannels == old(openSendChannels) && openReceiveChannels == old(openReceiveChannels)
      ensures |accepted| == stamp && op == old(nextId)
      ensures View() == Enqueue(old(View()), v)
    {
      op := nextId;
      senders := senders[op := Sender(Waiting(0), Item(stamp, v))];
      waitingSenders := waitingSenders + [op];
      accepted := accepted + [Item(stamp, v)];
      stamp := stamp + 1;
      nextId := nextId + 1;
    }

    /** Joins the queue of receivers. */
    method Await(requests: nat, scoped: bool) returns (op: OpId)
      modifies this`receivers, this`waitingReceivers, this`nextId
      ensures op == old(nextId)
      ensures View() == Enrol(old(View()), requests, scoped)
    {
      op := nextId;
      receivers := receivers[op := Receiver(Waiting(requests), scoped, None)];
      waitingReceivers := waitingReceivers + [op];
      nextId := op + 1;
    }

    /** The last send end is closed: every waiting receiver leaves the queue and is woken. */
    method WakeReceivers()
      requires forall op :: op in waitingReceivers ==> op in receivers
      modifies this`receivers, this`waitingReceivers
      ensures View() == WakeAllReceivers(old(View()))
    {
      var events := waitingReceivers;
      waitingReceivers := [];
      receivers := map op | op in receivers ::
        if op in events then receivers[op].(task := Woken(receivers[op].task)) else receivers[op];
    }

    /** `self._state.waiting_senders.popitem(last=False)` and what follows. */
    method MoveUp()
      requires Valid() && waitingSenders != []
      modifies this`waitingSenders, this`senders, this`buffer
      ensures View() == Refill(old(View()))
    {
      assert waitingSenders[0] in waitingSenders;
      var op := waitingSenders[0];
      var s := senders[op];
      waitingSenders := waitingSenders[1..];
      buffer := buffer + [s.item];
      senders := senders[op := s.(task := Woken(s.task))];
    }

    /** The code of a blocked `send` after its event: normal, or in `except BaseException`. */
    method AfterSendEvent(op: OpId) returns (r: Result<T>)
      requires Valid() && op in senders && MayResume(senders[op].task)
      modifies this
      ensures Valid() && (View(), r) == ResumeSend(old(View()), op)
    {
      ResumeSendKeeps(View(), op);
      WithoutKeepsOrder(waitingSenders, op);
      var task := senders[op].task;
      var queued := op in waitingSenders;
      ghost var k := senders[op].item.stamp;
      senders := senders - {op};
      if task.mustCancel || task.waiter == WaiterCancelled {
        waitingSenders := Without(waitingSenders, op);
        r := Interrupted;
      } else if queued {
        waitingSenders := Without(waitingSenders, op);
        r := Broken;
      } else {
        r := Sent;
      }
      if queued {
        withdrawn := withdrawn + {k};
      }
    }

    /** The code of a blocked `receive` after its event. */
    method AfterReceiveEvent(op: OpId) returns (r: Result<T>)
      requires Valid() && op in receivers && MayResume(receivers[op].task)
      modifies this
      ensures Valid() && (View(), r) == ResumeReceive(old(View()), op)
    {
      ResumeReceiveKeeps(View(), op);
      var receiver := receivers[op];
      receivers := receivers - {op};
      waitingReceivers := Without(waitingReceivers, op);
      if receiver.task.mustCancel || receiver.task.waiter == WaiterCancelled {
        return Interrupted;
      }
      match receiver.given
      case Some(item) => r := Got(item);
      case None => r := Ended;
    }
  }

  class SendStream<T> {
    const state: StreamState<T>
    const end: EndId
    var closed: bool

    ghost predicate Valid()
      reads this, state
    {
      state.Valid() && (closed <==> end !in state.sendEnds)
    }

    /** A stream object for an end that is open. */
    constructor (shared: StreamState<T>, id: EndId)
      requires shared.Valid() && id in shared.sendEnds
      ensures Valid() && state == shared && end == id && !closed
    {
      state, end, closed := shared, id, false;
    }

    method SendNowait(v: T) returns (r: Result<T>)
      requires Valid()
      modifies state
      ensures Valid() && (state.View(), r) == MemoryStream.SendNowait(old(state.View()), end, v)
    {
      if closed {
        return Closed;
      }
      NoneOpen(state.receiveEnds);
      if state.openReceiveChannels == 0 {
        return Broken;
      }
      OfferKeeps(state.View(), v);
      r := state.OfferItem(v);
    }

    /** `send` after its checkpoint, up to the point where it returns or blocks. */
    method Send(v: T) returns (r: Result<T>)
      requires Valid()
      modifies state
      ensures Valid() && (state.View(), r) == MemoryStream.Send(old(state.View()), end, v)
    {
      SendKeeps(state.View(), end, v);
      r := SendNowait(v);
      if r == WouldBlock {
        var op := state.Block(v);
        r := Blocked(op);
      }
    }

    method Clone() returns (r: Option<SendStream<T>>)
      requires Valid()
      modifies state
      ensures Valid() && state.View() == CloneSend(old(state.View()), end)
      ensures r.None? <==> closed
      ensures r.Some? ==> fresh(r.value) && r.value.Valid() && r.value.state == state
                          && r.value.end == old(state.nextId) && !r.value.closed
    {
      if closed {
        return None;
      }
      EndsKeep(state.View(), CloneSend(state.View(), end));
      state.openSendChannels := state.openSendChannels + 1;
      state.sendEnds := state.sendEnds + {state.nextId};
      state.nextId := state.nextId + 1;
      var c := new SendStream(state, state.nextId - 1);
      r := Some(c);
    }

    method Close()
      requires Valid()
      modifies this`closed, state
      ensures Valid() && closed && state.View() == CloseSend(old(state.View()), end)
    {
      if !closed {
        CloseSendKeeps(state.View(), end);
        closed := true;
        state.openSendChannels := state.openSendChannels - 1;
        state.sendEnds := state.sendEnds - {end};
        NoneOpen(state.sendEnds);
        if state.openSendChannels == 0 {
          assert forall op :: op in state.waitingReceivers ==> op in state.receivers;
          state.WakeReceivers();
        }
      }
    }
  }

  class ReceiveStream<T> {
    const state: StreamState<T>
    const end: EndId
    var closed: bool

    ghost predicate Valid()
      reads this, state
    {
      state.Valid() && (closed <==> end !in state.receiveEnds)
    }

    constructor (shared: StreamState<T>, id: EndId)
      requires shared.Valid() && id in shared.receiveEnds
      ensures Valid() && state == shared && end == id && !closed
    {
      state, end, closed := shared, id, false;
    }

    method ReceiveNowait() returns (r: Result<T>)
      requires Valid()
      modifies state
      ensures Valid() && (state.View(), r) == MemoryStream.ReceiveNowait(old(state.View()), end)
    {
      if closed {
        return Closed;
      }
      ReceiveNowaitKeeps(state.View(), end);
      if state.waitingSenders != [] {
        state.MoveUp();
      }
      NoneOpen(state.sendEnds);
      if state.buffer != [] {
        var item := state.buffer[0];
        state.buffer := state.buffer[1..];
        state.taken := state.taken + [item];
        return Got(item);
      } else if state.openSendChannels == 0 {
        return Ended;
      }
      r := WouldBlock;
    }

    /** `receive` after its checkpoint, up to the point where it returns or blocks. `requests`
        and `scoped` say which cancellations the task already sees. */
    method Receive(requests: nat, scoped: bool) returns (r: Result<T>)
      requires Valid()
      modifies state
      ensures Valid()
      ensures (state.View(), r) == MemoryStream.Receive(old(state.View()), end, requests, scoped)
    {
      ReceiveKeeps(state.View(), end, requests, scoped);
      r := ReceiveNowait();
      if r == WouldBlock {
        var op := state.Await(requests, scoped);
        r := Blocked(op);
      }
    }

    method Clone() returns (r: Option<ReceiveStream<T>>)
      requires Valid()
      modifies state
      ensures Valid() && state.View() == CloneReceive(old(state.View()), end)
      ensures r.None? <==> closed
      ensures r.Some? ==> fresh(r.value) && r.value.Valid() && r.value.state == state
                          && r.value.end == old(state.nextId) && !r.value.closed
    {
      if closed {
        return None;
      }
      EndsKeep(state.View(), CloneReceive(state.View(), end));
      state.openReceiveChannels := state.openReceiveChannels + 1;
      state.receiveEnds := state.receiveEnds + {state.nextId};
      state.nextId := state.nextId + 1;
      var c := new ReceiveStream(state, state.nextId - 1);
      r := Some(c);
    }

    method Close()
      requires Valid()
      modifies this`closed, state
      ensures Valid() && closed && state.View() == CloseReceive(old(state.View()), end)
    {
      if !closed {
        CloseReceiveKeeps(state.View(), end);
        closed := true;
        state.openReceiveChannels := state.openReceiveChannels - 1;
        state.receiveEnds := state.receiveEnds - {end};
        NoneOpen(state.receiveEnds);
        if state.openReceiveChannels == 0 {
          var events := state.waitingSenders;
          state.senders := map op | op in state.senders ::
            if op in events then state.senders[op].(task := Woken(state.senders[op].task))
            else state.senders[op];
        }
      }
    }
  }

  lemma NoneOpen(ends: set<EndId>)
    ensures |ends| == 0 <==> ends == {}
  {
  }
}

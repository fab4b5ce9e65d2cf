/** Buffered reading from a transport that delivers its bytes in arbitrary chunks. */
module BufferedStreams {
  import opened Wrappers
  import opened ByteSearch

  datatype Result =
    | Got(data: Bytes)
    | Ended
    | Closed
    | Incomplete
    | NotFound
    | Interrupted

  datatype Call =
    | Receive(max: nat)
    | Exactly(n: nat)
    | Until(delimiter: Bytes, max: nat)

  /** What a call may do to the bytes `s` that are still to be read, leaving `t`. */
  ghost predicate CallOk(s: Bytes, c: Call, r: Result, t: Bytes) {
    match c
    case Receive(max) =>
      if r.Got? then s == r.data + t && |r.data| <= max
      else t == s && r in {Ended, Closed, Interrupted} && (r == Ended ==> s == [])
    case Exactly(n) =>
      if r.Got? then n <= |s| && r.data == s[..n] && t == s[n..]
      else t == s && r in {Incomplete, Closed, Interrupted} && (r == Incomplete ==> |s| < n)
    case Until(d, max) =>
      var i := Find(s, d, 0);
      if r.Got? then i.Some? && r.data == s[..i.value] && t == s[i.value + |d|..]
      else
        && t == s && r in {Incomplete, NotFound, Closed, Interrupted}
        && (r == Incomplete ==> i.None? && |s| < max)
        && (r == NotFound ==> |s| >= max && (i.Some? ==> i.value + |d| > max))
  }

  // ----- the transport -----

  /** What the transport has in store: a chunk, or a cancellation that strikes the reader while
      it waits. */
  datatype Arrival = Chunk(bytes: Bytes) | Cancellation

  /** The bytes that are to come. */
  function Coming(arrivals: seq<Arrival>): Bytes {
    if arrivals == [] then []
    else (if arrivals[0].Chunk? then arrivals[0].bytes else []) + Coming(arrivals[1..])
  }

  /** What is left to do for a reader. */
  function Size(arrivals: seq<Arrival>): nat {
    |Coming(arrivals)| + |arrivals|
  }

  function Cut(b: Bytes, max: nat): (r: Bytes)
    ensures |r| <= max && r <= b && (|r| == max || r == b)
  {
    if |b| > max then b[..max] else b
  }

  /** One `receive(max)` that meets a chunk: what it gives and what is left. A byte stream gives
      at most as many bytes as it is asked for, an object stream whole chunks. */
  function Front(arrivals: seq<Arrival>, bytewise: bool, max: nat): (r: (Bytes, seq<Arrival>))
    requires arrivals != [] && arrivals[0].Chunk?
    ensures Coming(arrivals) == r.0 + Coming(r.1)
    ensures max > 0 ==> Size(r.1) < Size(arrivals)
  {
    var chunk := arrivals[0].bytes;
    if bytewise && |chunk| > max then
      var rest := [Chunk(chunk[max..])] + arrivals[1..];
      assert rest[1..] == arrivals[1..] && chunk == chunk[..max] + chunk[max..];
      (chunk[..max], rest)
    else (chunk, arrivals[1..])
  }

  class Source {
    const bytewise: bool
    var arrivals: seq<Arrival>
    var closed: bool

    constructor (bytewise: bool, arrivals: seq<Arrival>)
      ensures this.bytewise == bytewise && this.arrivals == arrivals && !closed
    {
      this.bytewise, this.arrivals, closed := bytewise, arrivals, false;
    }

    method Receive(max: nat) returns (r: Result)
      modifies this`arrivals
      ensures (r, arrivals) == Read(old(arrivals), bytewise, closed, max)
    {
      if closed {
        return Closed;
      }
      if arrivals == [] {
        return Ended;
      }
      var first := arrivals[0];
      if first.Cancellation? {
        arrivals := arrivals[1..];
        return Interrupted;
      }
      if bytewise && |first.bytes| > max {
        arrivals := [Chunk(first.bytes[max..])] + arrivals[1..];
        return Got(first.bytes[..max]);
      }
      arrivals := arrivals[1..];
      r := Got(first.bytes);
    }
  }

  function Read(arrivals: seq<Arrival>, bytewise: bool, closed: bool, max: nat): (r: (Result, seq<Arrival>))
    ensures r.0.Got? ==> Coming(arrivals) == r.0.data + Coming(r.1)
    ensures !r.0.Got? ==> Coming(arrivals) == Coming(r.1)
    ensures r.0.Got? && max > 0 ==> Size(r.1) < Size(arrivals)
    ensures !IsCancelled(arrivals) ==> !r.0.Interrupted? && !IsCancelled(r.1)
  {
    if closed then (Closed, arrivals)
    else if arrivals == [] then (Ended, arrivals)
    else if arrivals[0].Cancellation? then (Interrupted, arrivals[1..])
    else
      var (data, rest) := Front(arrivals, bytewise, max);
      (Got(data), rest)
  }

  // ----- what receive_exactly and receive_until give -----

  /** The bytes that come before the reader is cancelled or the stream ends. */
  function Before(arrivals: seq<Arrival>): Bytes {
    if arrivals == [] || arrivals[0].Cancellation? then [] else arrivals[0].bytes + Before(arrivals[1..])
  }

  predicate IsCancelled(arrivals: seq<Arrival>) {
    arrivals != [] && (arrivals[0].Cancellation? || IsCancelled(arrivals[1..]))
  }

  /** `receive_exactly(n)` on an open stream. */
  function ExactlyOutcome(buffer: Bytes, arrivals: seq<Arrival>, n: nat): (r: Result)
    ensures !r.Closed?
  {
    var seen := buffer + Before(arrivals);
    if n <= |seen| then Got(seen[..n])
    else if IsCancelled(arrivals) then Interrupted
    else Incomplete
  }

  const DEFAULT_MAX_BYTES := 65536

  /** The buffer as it stands when the reader stops to read: it has `max` bytes or more, or
      nothing more comes. */
  function Reach(buffer: Bytes, arrivals: seq<Arrival>, bytewise: bool, max: nat): Bytes
    decreases Size(arrivals)
  {
    if |buffer| >= max || arrivals == [] || arrivals[0].Cancellation? then buffer
    else
      var (data, rest) := Front(arrivals, bytewise, DEFAULT_MAX_BYTES);
      Reach(buffer + data, rest, bytewise, max)
  }

  /** Why it stops. */
  function Stop(buffer: Bytes, arrivals: seq<Arrival>, bytewise: bool, max: nat): (r: Result)
    ensures !r.Got? && !r.Closed?
    decreases Size(arrivals)
  {
    if |buffer| >= max then NotFound
    else if arrivals == [] then Incomplete
    else if arrivals[0].Cancellation? then Interrupted
    else
      var (data, rest) := Front(arrivals, bytewise, DEFAULT_MAX_BYTES);
      Stop(buffer + data, rest, bytewise, max)
  }

  /** `receive_until` on an open stream. */
  function UntilOutcome(buffer: Bytes, arrivals: seq<Arrival>, bytewise: bool, d: Bytes, max: nat): (r: Result)
    ensures !r.Closed?
  {
    var seen := Reach(buffer, arrivals, bytewise, max);
    var i := Find(seen, d, 0);
    if i.Some? then Got(seen[..i.value]) else Stop(buffer, arrivals, bytewise, max)
  }

  /** `receive_until`; a stream that is closed still gives what is in the buffer. */
  function UntilResult(buffer: Bytes, arrivals: seq<Arrival>, bytewise: bool, closed: bool, d: Bytes, max: nat):
      (r: Result)
    ensures r.Closed? ==> closed
  {
    if !closed then UntilOutcome(buffer, arrivals, bytewise, d, max)
    else
      var i := Find(buffer, d, 0);
      if i.Some? then Got(buffer[..i.value]) else if |buffer| >= max then NotFound else Closed
  }

  /** The reader adds some of the bytes that are to come. */
  lemma {:induction false} ReachExtends(buffer: Bytes, arrivals: seq<Arrival>, bytewise: bool, max: nat)
    returns (more: Bytes, beyond: Bytes)
    ensures Coming(arrivals) == more + beyond
    ensures Reach(buffer, arrivals, bytewise, max) == buffer + more
    decreases Size(arrivals)
  {
    if |buffer| >= max || arrivals == [] || arrivals[0].Cancellation? {
      more, beyond := [], Coming(arrivals);
    } else {
      var (data, rest) := Front(arrivals, bytewise, DEFAULT_MAX_BYTES);
      var m, b := ReachExtends(buffer + data, rest, bytewise, max);
      more, beyond := data + m, b;
      Regroup(buffer, data, m);
      Regroup(data, m, b);
    }
  }

  lemma Regroup(a: Bytes, b: Bytes, c: Bytes)
    ensures a + b + c == a + (b + c)
  {
  }

  /** The reader stops at the limit, or when nothing more comes. */
  lemma {:induction false} StopMeans(buffer: Bytes, arrivals: seq<Arrival>, bytewise: bool, max: nat)
    ensures var r := Stop(buffer, arrivals, bytewise, max);
            var seen := Reach(buffer, arrivals, bytewise, max);
            && (r == NotFound <==> |seen| >= max)
            && (r == Incomplete ==> seen == buffer + Coming(arrivals))
            && r in {NotFound, Incomplete, Interrupted}
    decreases Size(arrivals)
  {
    if |buffer| < max && arrivals != [] && arrivals[0].Chunk? {
      var (data, rest) := Front(arrivals, bytewise, DEFAULT_MAX_BYTES);
      StopMeans(buffer + data, rest, bytewise, max);
      Regroup(buffer, data, Coming(rest));
    }
  }

  // ----- the stream -----

  class BufferedByteReceiveStream {
    const receiveStream: Source
    var buffer: Bytes
    var closed: bool

    constructor (stream: Source)
      ensures receiveStream == stream && buffer == [] && !closed && Rest() == Coming(stream.arrivals)
    {
      receiveStream, buffer, closed := stream, [], false;
    }

    /** The bytes that are still to be read. */
    ghost function Rest(): Bytes
      reads this, receiveStream
    {
      buffer + Coming(receiveStream.arrivals)
    }

    method Close()
      modifies this`closed, receiveStream`closed
      ensures closed && receiveStream.closed && Rest() == old(Rest())
    {
      receiveStream.closed := true;
      closed := true;
    }

    method Receive(max: nat) returns (r: Result)
      modifies this`buffer, receiveStream`arrivals
      ensures CallOk(old(Rest()), Call.Receive(max), r, Rest())
      ensures r == if closed then Closed
                   else if old(buffer) != [] then Got(Cut(old(buffer), max))
                   else
                     var read := Read(old(receiveStream.arrivals), receiveStream.bytewise,
                                      receiveStream.closed, max).0;
                     if read.Got? then Got(Cut(read.data, max)) else read
    {
      if closed {
        return Closed;
      }
      if buffer != [] {
        var n := if max < |buffer| then max else |buffer|;
        var chunk := buffer[..n];
        assert buffer == chunk + buffer[n..];
        buffer := buffer[n..];
        return Got(chunk);
      }
      r := receiveStream.Receive(max);
      if r.Got? && |r.data| > max {
        var chunk := r.data;
        assert chunk == chunk[..max] + chunk[max..];
        buffer := chunk[max..];
        r := Got(chunk[..max]);
      }
    }

    /** Adds what the transport gives to the buffer. */
    method Pull(max: nat) returns (r: Result)
      modifies this`buffer, receiveStream`arrivals
      ensures (r, receiveStream.arrivals) ==
              Read(old(receiveStream.arrivals), receiveStream.bytewise, receiveStream.closed, max)
      ensures buffer == if r.Got? then old(buffer) + r.data else old(buffer)
      ensures Rest() == old(Rest())
    {
      r := receiveStream.Receive(max);
      if r.Got? {
        Regroup(buffer, r.data, Coming(receiveStream.arrivals));
        buffer := buffer + r.data;
      }
    }

    /** Takes the first `n` bytes of the buffer, and drops `skip` more. */
    method Take(n: nat, skip: nat) returns (data: Bytes)
      requires n + skip <= |buffer|
      modifies this`buffer
      ensures data == old(buffer)[..n] && buffer == old(buffer)[n + skip..]
    {
      data := buffer[..n];
      buffer := buffer[n + skip..];
    }

    method ReceiveExactly(n: nat) returns (r: Result)
      modifies this`buffer, receiveStream`arrivals
      ensures CallOk(old(Rest()), Exactly(n), r, Rest())
      ensures !IsCancelled(old(receiveStream.arrivals)) ==> !r.Interrupted? && !IsCancelled(receiveStream.arrivals)
      ensures r == if n <= |old(buffer)| then Got(old(buffer)[..n])
                   else if receiveStream.closed then Closed
                   else ExactlyOutcome(old(buffer), old(receiveStream.arrivals), n)
    {
      ghost var all, outcome := Rest(), ExactlyOutcome(buffer, receiveStream.arrivals, n);
      TakeIsOutcome(buffer, receiveStream.arrivals, n);
      while true
        invariant Rest() == all
        invariant ExactlyOutcome(buffer, receiveStream.arrivals, n) == outcome
        invariant receiveStream.closed || |old(buffer)| >= n ==> buffer == old(buffer)
        invariant !IsCancelled(old(receiveStream.arrivals)) ==> !IsCancelled(receiveStream.arrivals)
        decreases Size(receiveStream.arrivals)
      {
        var remaining := n - |buffer|;
        TakeIsOutcome(buffer, receiveStream.arrivals, n);
        if remaining <= 0 {
          TakeOk(buffer, Coming(receiveStream.arrivals), n);
          var data := Take(n, 0);
          r := Got(data);
          assert CallOk(all, Exactly(n), r, Rest());
          return;
        }
        ExactlyStep(buffer, receiveStream.arrivals, receiveStream.bytewise, n);
        r := Pull(remaining);
        if r == Ended {
          ShortOk(buffer, Rest(), n);
          return Incomplete;
        }
        if !r.Got? {
          return;
        }
      }
    }

    /** Reads one more chunk and moves the offset forward. */
    method ReadMore(delimiter: Bytes) returns (r: Result, offset: nat)
      requires Find(buffer, delimiter, 0).None?
      modifies this`buffer, receiveStream`arrivals
      ensures (r, receiveStream.arrivals) ==
              Read(old(receiveStream.arrivals), receiveStream.bytewise, receiveStream.closed, DEFAULT_MAX_BYTES)
      ensures buffer == if r.Got? then old(buffer) + r.data else old(buffer)
      ensures Rest() == old(Rest())
      ensures r.Got? ==> Find(buffer, delimiter, offset) == Find(buffer, delimiter, 0)
    {
      var searched := |buffer|;
      ghost var before := buffer;
      r := Pull(DEFAULT_MAX_BYTES);
      offset := 0;
      if r.Got? {
        offset := NextOffset(searched, |delimiter|);
        OffsetFindsTheSame(before, r.data, delimiter);
      }
    }

    /** Takes what stands before the delimiter, and drops the delimiter. */
    method TakeFound(delimiter: Bytes, index: nat, ghost max: nat) returns (r: Result)
      requires Find(buffer, delimiter, 0) == Some(index)
      modifies this`buffer
      ensures r == Got(old(buffer)[..index])
      ensures CallOk(old(Rest()), Until(delimiter, max), r, Rest())
    {
      FoundOk(buffer, Coming(receiveStream.arrivals), delimiter, max);
      var data := Take(index, |delimiter|);
      r := Got(data);
    }

    method ReceiveUntil(delimiter: Bytes, max: nat) returns (r: Result)
      modifies this`buffer, receiveStream`arrivals
      ensures CallOk(old(Rest()), Until(delimiter, max), r, Rest())
      ensures !IsCancelled(old(receiveStream.arrivals)) ==> !r.Interrupted? && !IsCancelled(receiveStream.arrivals)
      ensures r == old(Outcome(delimiter, max))
    {
      var offset := 0;
      ghost var all, outcome := Rest(), Outcome(delimiter, max);
      if !IsCancelled(receiveStream.arrivals) {
        UncancelledStop(buffer, receiveStream.arrivals, receiveStream.bytewise, max);
      }
      while true
        invariant Rest() == all && Outcome(delimiter, max) == outcome
        invariant !IsCancelled(old(receiveStream.arrivals)) ==> !IsCancelled(receiveStream.arrivals)
        invariant Find(buffer, delimiter, offset) == Find(buffer, delimiter, 0)
        decreases Size(receiveStream.arrivals)
      {
        var index := Find(buffer, delimiter, offset);
        if index.Some? {
          FoundIsOutcome(buffer, receiveStream.arrivals, receiveStream.bytewise, delimiter, max);
          r := TakeFound(delimiter, index.value, max);
          return;
        }
        UntilStep(buffer, receiveStream.arrivals, receiveStream.bytewise, receiveStream.closed, delimiter, max);
        if |buffer| >= max {
          NotFoundOk(buffer, Coming(receiveStream.arrivals), delimiter, max);
          return NotFound;
        }
        r, offset := ReadMore(delimiter);
        if r == Ended {
          IncompleteOk(all, delimiter, max, buffer, Rest());
          return Incomplete;
        }
        if !r.Got? {
          return;
        }
      }
    }

    /** What `receive_until` would give now. */
    ghost function Outcome(delimiter: Bytes, max: nat): Result
      reads this, receiveStream
    {
      UntilResult(buffer, receiveStream.arrivals, receiveStream.bytewise, receiveStream.closed, delimiter, max)
    }
  }

  // ----- the ways out of the loops -----

  lemma TakeOk(buffer: Bytes, beyond: Bytes, n: nat)
    requires n <= |buffer|
    ensures CallOk(buffer + beyond, Exactly(n), Got(buffer[..n]), buffer[n..] + beyond)
  {
    assert (buffer + beyond)[..n] == buffer[..n];
    assert (buffer + beyond)[n..] == buffer[n..] + beyond;
  }

  lemma TakeIsOutcome(buffer: Bytes, arrivals: seq<Arrival>, n: nat)
    ensures n <= |buffer| ==> ExactlyOutcome(buffer, arrivals, n) == Got(buffer[..n])
  {
    if n <= |buffer| {
      assert (buffer + Before(arrivals))[..n] == buffer[..n];
    }
  }

  lemma ShortOk(buffer: Bytes, s: Bytes, n: nat)
    requires |buffer| < n && s == buffer + []
    ensures CallOk(s, Exactly(n), Incomplete, s)
  {
    assert s == buffer;
  }

  /** One more chunk does not change what `receive_exactly` will give. */
  lemma ExactlyStep(buffer: Bytes, arrivals: seq<Arrival>, bytewise: bool, n: nat)
    requires |buffer| < n
    ensures arrivals == [] ==> ExactlyOutcome(buffer, arrivals, n) == Incomplete
    ensures arrivals != [] && arrivals[0].Cancellation? ==> ExactlyOutcome(buffer, arrivals, n) == Interrupted
    ensures arrivals != [] && arrivals[0].Chunk? ==>
              var (data, rest) := Front(arrivals, bytewise, n - |buffer|);
              ExactlyOutcome(buffer + data, rest, n) == ExactlyOutcome(buffer, arrivals, n)
  {
    if arrivals != [] && arrivals[0].Chunk? {
      var (data, rest) := Front(arrivals, bytewise, n - |buffer|);
      assert rest != [] && |data| < |arrivals[0].bytes| ==> rest[1..] == arrivals[1..];
      assert data + Before(rest) == Before(arrivals);
      assert buffer + (data + Before(rest)) == buffer + data + Before(rest);
    }
  }

  lemma FoundOk(buffer: Bytes, beyond: Bytes, d: Bytes, max: nat)
    requires Find(buffer, d, 0).Some?
    ensures var i := Find(buffer, d, 0).value;
            CallOk(buffer + beyond, Until(d, max), Got(buffer[..i]), buffer[i + |d|..] + beyond)
  {
    var i := Find(buffer, d, 0).value;
    HitIsFirst(buffer, beyond, d);
    assert i + |d| <= |buffer|;
    CutOfBoth(buffer, beyond, i, i + |d|);
  }

  /** Up to its end a prefix is cut like the whole. */
  lemma CutOfBoth(a: Bytes, b: Bytes, i: nat, j: nat)
    requires i <= j <= |a|
    ensures (a + b)[..i] == a[..i] && (a + b)[j..] == a[j..] + b
  {
  }

  lemma FoundIsOutcome(buffer: Bytes, arrivals: seq<Arrival>, bytewise: bool, d: Bytes, max: nat)
    requires Find(buffer, d, 0).Some?
    ensures UntilOutcome(buffer, arrivals, bytewise, d, max) == Got(buffer[..Find(buffer, d, 0).value])
  {
    var i := Find(buffer, d, 0).value;
    var more, left := ReachExtends(buffer, arrivals, bytewise, max);
    HitIsFirst(buffer, more, d);
    assert (buffer + more)[..i] == buffer[..i];
  }

  /** One more read does not change what `receive_until` will give. */
  lemma UntilStep(buffer: Bytes, arrivals: seq<Arrival>, bytewise: bool, closed: bool, d: Bytes, max: nat)
    requires Find(buffer, d, 0).None?
    ensures var r := UntilResult(buffer, arrivals, bytewise, closed, d, max);
            var (read, rest) := Read(arrivals, bytewise, closed, DEFAULT_MAX_BYTES);
            if |buffer| >= max then r == NotFound
            else if read.Got? then r == UntilResult(buffer + read.data, rest, bytewise, closed, d, max)
            else r == if read.Ended? then Incomplete else read
  {
  }

  lemma IncompleteOk(s: Bytes, d: Bytes, max: nat, buffer: Bytes, t: Bytes)
    requires Find(buffer, d, 0).None? && |buffer| < max && s == buffer + [] && t == s
    ensures CallOk(s, Until(d, max), Incomplete, t)
  {
    assert s == buffer;
  }

  lemma NotFoundOk(buffer: Bytes, beyond: Bytes, d: Bytes, max: nat)
    requires Find(buffer, d, 0).None? && |buffer| >= max
    ensures CallOk(buffer + beyond, Until(d, max), NotFound, buffer + beyond)
  {
    LateHit(buffer, beyond, d);
  }

  // ----- sequences of calls -----

  datatype Event = Event(call: Call, result: Result)

  /** The bytes that a call takes off the stream. */
  function Taken(e: Event): Bytes {
    if !e.result.Got? then []
    else if e.call.Until? then e.result.data + e.call.delimiter
    else e.result.data
  }

  function AllTaken(events: seq<Event>): Bytes {
    if events == [] then [] else Taken(events[0]) + AllTaken(events[1..])
  }

  /** The calls, one after the other, may turn `s` into `t`. */
  ghost predicate RunOk(s: Bytes, events: seq<Event>, t: Bytes)
    decreases |events|
  {
    if events == [] then t == s
    else exists m :: CallOk(s, events[0].call, events[0].result, m) && RunOk(m, events[1..], t)
  }

  lemma CallConserves(s: Bytes, e: Event, t: Bytes)
    requires CallOk(s, e.call, e.result, t)
    ensures s == Taken(e) + t
  {
    if e.result.Got? && e.call.Until? {
      var i := Find(s, e.call.delimiter, 0).value;
      assert s == s[..i] + s[i..i + |e.call.delimiter|] + s[i + |e.call.delimiter|..];
    }
  }

  /** No byte is lost, duplicated or reordered by any sequence of calls, failing ones
      included. */
  lemma {:induction false} BytesAreConserved(s: Bytes, events: seq<Event>, t: Bytes)
    requires RunOk(s, events, t)
    ensures s == AllTaken(events) + t
    decreases |events|
  {
    if events != [] {
      var m :| CallOk(s, events[0].call, events[0].result, m) && RunOk(m, events[1..], t);
      CallConserves(s, events[0], m);
      BytesAreConserved(m, events[1..], t);
      Regroup(Taken(events[0]), AllTaken(events[1..]), t);
    }
  }

  /** Reading sized or delimited pieces, with success: the pieces do not depend on how the
      transport cut the bytes. */
  lemma {:induction false} ChunkingDoesNotMatter(s: Bytes, a: seq<Event>, b: seq<Event>, t: Bytes, u: Bytes)
    requires RunOk(s, a, t) && RunOk(s, b, u) && |a| == |b|
    requires forall i :: 0 <= i < |a| ==>
               a[i].call == b[i].call && !a[i].call.Receive? && a[i].result.Got? && b[i].result.Got?
    ensures a == b && t == u
    decreases |a|
  {
    if a != [] {
      var m :| CallOk(s, a[0].call, a[0].result, m) && RunOk(m, a[1..], t);
      var n :| CallOk(s, b[0].call, b[0].result, n) && RunOk(n, b[1..], u);
      assert m == n && a[0] == b[0];
      ChunkingDoesNotMatter(m, a[1..], b[1..], t, u);
      assert a == [a[0]] + a[1..] && b == [b[0]] + b[1..];
    }
  }

  // ----- when so many bytes are read -----

  lemma {:induction false} BeforeIsPrefix(arrivals: seq<Arrival>)
    ensures Before(arrivals) <= Coming(arrivals)
    ensures !IsCancelled(arrivals) ==> Before(arrivals) == Coming(arrivals)
  {
    if arrivals != [] && arrivals[0].Chunk? {
      BeforeIsPrefix(arrivals[1..]);
    }
  }

  /** `receive_exactly` on an open stream gives the first `n` bytes iff so many come before the
      reader is cancelled; with too few it is interrupted iff it is cancelled, and otherwise the
      read is incomplete. */
  lemma ExactlyIsExact(buffer: Bytes, arrivals: seq<Arrival>, n: nat)
    ensures var s := buffer + Coming(arrivals);
            var r := ExactlyOutcome(buffer, arrivals, n);
            && (r.Got? <==> n <= |buffer + Before(arrivals)|)
            && (r.Got? ==> n <= |s| && r.data == s[..n])
            && (r == Interrupted <==> !r.Got? && IsCancelled(arrivals))
            && (r == Incomplete <==> !r.Got? && !IsCancelled(arrivals))
            && (r == Incomplete ==> |s| < n)
  {
    BeforeIsPrefix(arrivals);
    assert buffer + Before(arrivals) <= buffer + Coming(arrivals);
  }

  /** A stream whose transport was closed still gives what its buffer holds. */
  lemma UntilWhenClosed(buffer: Bytes, arrivals: seq<Arrival>, bytewise: bool, d: Bytes, max: nat)
    ensures var r := UntilResult(buffer, arrivals, bytewise, true, d, max);
            var i := Find(buffer, d, 0);
            && (r.Got? <==> i.Some?) && (r.Got? ==> r.data == buffer[..i.value])
            && (r == NotFound <==> i.None? && |buffer| >= max)
            && (r == Closed <==> i.None? && |buffer| < max)
    ensures UntilResult(buffer, arrivals, bytewise, false, d, max) != Closed
  {
  }

  // ----- when a delimiter is found -----

  /** `receive_until` finds a delimiter iff its first occurrence ends within the bytes that are
      in the buffer when it stops to read, which are the limit or more unless the stream ends
      or the reader is cancelled before. */
  lemma UntilIsExact(buffer: Bytes, arrivals: seq<Arrival>, bytewise: bool, d: Bytes, max: nat)
    ensures var s := buffer + Coming(arrivals);
            var i := Find(s, d, 0);
            var seen := Reach(buffer, arrivals, bytewise, max);
            var r := UntilOutcome(buffer, arrivals, bytewise, d, max);
            && |seen| <= |s| && seen == s[..|seen|]
            && (r.Got? <==> i.Some? && i.value + |d| <= |seen|)
            && (r.Got? ==> r.data == s[..i.value])
            && (r == NotFound <==> !r.Got? && |seen| >= max)
            && (r == Incomplete ==> seen == s)
  {
    var more, beyond := ReachExtends(buffer, arrivals, bytewise, max);
    StopMeans(buffer, arrivals, bytewise, max);
    var seen := buffer + more;
    Regroup(buffer, more, beyond);
    assert (seen + beyond)[..|seen|] == seen;
    if Find(seen, d, 0).Some? {
      HitIsFirst(seen, beyond, d);
    } else {
      LateHit(seen, beyond, d);
    }
  }

  lemma {:induction false} UncancelledStop(buffer: Bytes, arrivals: seq<Arrival>, bytewise: bool, max: nat)
    requires !IsCancelled(arrivals)
    ensures Stop(buffer, arrivals, bytewise, max) in {NotFound, Incomplete}
    decreases Size(arrivals)
  {
    if |buffer| < max && arrivals != [] {
      var (data, rest) := Front(arrivals, bytewise, DEFAULT_MAX_BYTES);
      assert rest != [] && rest[0] != arrivals[0] && |data| < |arrivals[0].bytes| ==> rest[1..] == arrivals[1..];
      assert !IsCancelled(rest);
      UncancelledStop(buffer + data, rest, bytewise, max);
    }
  }

  /** However the same bytes are cut, an uncancelled `receive_until` gives the same, unless the
      delimiter first ends beyond the limit: then each chunking gives that match or
      `DelimiterNotFound`. */
  lemma UntilIsDetermined(a: Bytes, f: seq<Arrival>, b: Bytes, g: seq<Arrival>, bytewise: bool, d: Bytes, max: nat)
    requires a + Coming(f) == b + Coming(g) && !IsCancelled(f) && !IsCancelled(g)
    ensures var s := a + Coming(f);
            var i := Find(s, d, 0);
            var p := UntilOutcome(a, f, bytewise, d, max);
            var q := UntilOutcome(b, g, bytewise, d, max);
            && (i.None? || i.value + |d| <= max ==> p == q)
            && (i.Some? && i.value + |d| <= max ==> p == Got(s[..i.value]))
            && (i.Some? && i.value + |d| > max ==>
                  p in {NotFound, Got(s[..i.value])} && q in {NotFound, Got(s[..i.value])})
  {
    UntilIsExact(a, f, bytewise, d, max);
    UntilIsExact(b, g, bytewise, d, max);
    UncancelledStop(a, f, bytewise, max);
    UncancelledStop(b, g, bytewise, max);
  }

  /** Both happen: with a limit of two bytes, a newline in third place is found if it comes in
      one chunk with the others, and not if it comes alone. */
  lemma LimitDependsOnChunking(bytewise: bool)
    ensures UntilOutcome([], [Chunk([97, 97, 10])], bytewise, [10], 2) == Got([97, 97])
    ensures UntilOutcome([], [Chunk([97, 97]), Chunk([10])], bytewise, [10], 2) == NotFound
  {
    OneChunkIsSeen([97, 97, 10], [], bytewise, 2);
    NewlineAtEnd();
    OneChunkIsSeen([97, 97], [Chunk([10])], bytewise, 2);
    NoNewline();
  }

  /** A first chunk that reaches the limit is all that is read. */
  lemma OneChunkIsSeen(b: Bytes, more: seq<Arrival>, bytewise: bool, max: nat)
    requires 0 < max <= |b| <= DEFAULT_MAX_BYTES
    ensures Reach([], [Chunk(b)] + more, bytewise, max) == b
    ensures Stop([], [Chunk(b)] + more, bytewise, max) == NotFound
  {
    var arrivals := [Chunk(b)] + more;
    assert [] + Front(arrivals, bytewise, DEFAULT_MAX_BYTES).0 == b;
  }

  lemma NewlineAtEnd()
    ensures Find([97, 97, 10], [10], 0) == Some(2)
  {
    var s: Bytes := [97, 97, 10];
    assert s[0..1] == [97] && s[1..2] == [97] && s[2..3] == [10];
    FirstIsUnique(s, [10], 2);
  }

  lemma NoNewline()
    ensures Find([97, 97], [10], 0) == None
  {
    var s: Bytes := [97, 97];
    assert s[0..1] == [97] && s[1..2] == [97];
  }
}

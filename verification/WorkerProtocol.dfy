/**
 The answers of a worker process: a header line with the status and the length of the payload,
 then the payload. The worker prints them, the parent reads them through a buffered stream.
 Payloads are opaque bytes.
 */
module WorkerProtocol {
  import opened Wrappers
  import opened ByteSearch
  import opened BufferedStreams

  datatype Status = Return | Exception

  datatype Reply = Reply(status: Status, payload: Bytes)

  const NEWLINE: Byte := 10
  const SPACE: Byte := 32
  const ZERO: Byte := 48
  const MAX_HEADER := 50

  function StatusBytes(s: Status): (r: Bytes)
    ensures SPACE !in r && NEWLINE !in r && 0 < |r| <= 9
  {
    match s
    case Return => [82, 69, 84, 85, 82, 78]
    case Exception => [69, 88, 67, 69, 80, 84, 73, 79, 78]
  }

  // ----- what the worker prints -----

  /** `%d` of a natural number. */
  function Decimal(n: nat): (r: Bytes)
    ensures |r| > 0 && forall i :: 0 <= i < |r| ==> ZERO <= r[i] < ZERO + 10
  {
    if n < 10 then [ZERO + n] else Decimal(n / 10) + [ZERO + n % 10]
  }

  /** How the command ended; a dump that is missing stands for a value that cannot be
      pickled. */
  datatype Ending =
    | Returned(dump: Option<Bytes>)
    | Raised(dump: Option<Bytes>)

  /** `dumpError` is the pickled error of the failed attempt to pickle. */
  function Answer(e: Ending, dumpError: Bytes): Reply {
    match e
    case Returned(Some(d)) => Reply(Return, d)
    case Raised(Some(d)) => Reply(Exception, d)
    case _ => Reply(Exception, dumpError)
  }

  function Header(r: Reply): Bytes {
    StatusBytes(r.status) + [SPACE] + Decimal(|r.payload|)
  }

  function Frame(r: Reply): Bytes {
    Header(r) + [NEWLINE] + r.payload
  }

  // ----- what the parent reads -----

  /** `line.split(b" ")`, when it gives exactly two parts. */
  function SplitInTwo(line: Bytes): Option<(Bytes, Bytes)> {
    var i := Find(line, [SPACE], 0);
    if i.None? then None
    else
      var rest := line[i.value + 1..];
      if Find(rest, [SPACE], 0).Some? then None else Some((line[..i.value], rest))
  }

  /** `int(digits)`, for plain digits. */
  function Number(digits: Bytes): (r: Option<nat>) {
    if digits == [] then None
    else
      var last := digits[|digits| - 1];
      if !(ZERO <= last < ZERO + 10) then None
      else if |digits| == 1 then Some(last - ZERO)
      else
        var high := Number(digits[..|digits| - 1]);
        if high.None? then None else Some(10 * high.value + (last - ZERO))
  }

  function ParseStatus(b: Bytes): Option<Status> {
    if b == StatusBytes(Return) then Some(Return)
    else if b == StatusBytes(Exception) then Some(Exception)
    else None
  }

  /** The status and the length that a header line announces. */
  function ParseHeader(line: Bytes): Option<(Status, nat)> {
    var parts := SplitInTwo(line);
    if parts.None? then None
    else
      var status := ParseStatus(parts.value.0);
      var length := Number(parts.value.1);
      if status.Some? && length.Some? then Some((status.value, length.value)) else None
  }

  // ----- round trips -----

  function Pow10(k: nat): (r: nat)
    ensures r > 0
  {
    if k == 0 then 1 else 10 * Pow10(k - 1)
  }

  lemma {:induction false} NumberOfDecimal(n: nat)
    ensures Number(Decimal(n)) == Some(n)
  {
    if n >= 10 {
      NumberOfDecimal(n / 10);
      var d := Decimal(n);
      assert d[..|d| - 1] == Decimal(n / 10);
      assert n == 10 * (n / 10) + n % 10;
    }
  }

  /** A number below 10^k has at most k digits. */
  lemma {:induction false} DecimalLength(n: nat, k: nat)
    requires n < Pow10(k) && k > 0
    ensures |Decimal(n)| <= k
  {
    assert Pow10(0) == 1;
    if n >= 10 {
      assert n / 10 < Pow10(k - 1);
      DecimalLength(n / 10, k - 1);
    }
  }

  lemma SplitAtSpace(a: Bytes, b: Bytes)
    requires SPACE !in a && SPACE !in b
    ensures SplitInTwo(a + [SPACE] + b) == Some((a, b))
  {
    var line := a + [SPACE] + b;
    assert OccursAt(line, [SPACE], |a|);
    FirstByte(line, SPACE, |a|);
    assert line[|a| + 1..] == b && line[..|a|] == a;
    NoByte(b, SPACE);
  }

  lemma NoByte(s: Bytes, x: Byte)
    requires x !in s
    ensures Find(s, [x], 0) == None
  {
    forall i: nat
      ensures !OccursAt(s, [x], i)
    {
      assert i < |s| ==> s[i..i + 1] == [s[i]];
    }
  }

  lemma FirstByte(s: Bytes, x: Byte, i: nat)
    requires i < |s| && s[i] == x && x !in s[..i]
    ensures Find(s, [x], 0) == Some(i)
  {
    forall j | 0 <= j < i
      ensures !OccursAt(s, [x], j)
    {
      assert s[..i][j] == s[j] && s[j..j + 1] == [s[j]];
    }
    assert s[i..i + 1] == [x];
    FirstIsUnique(s, [x], i);
  }

  lemma HeaderRoundTrip(r: Reply)
    ensures ParseHeader(Header(r)) == Some((r.status, |r.payload|))
    ensures NEWLINE !in Header(r)
  {
    SplitAtSpace(StatusBytes(r.status), Decimal(|r.payload|));
    NumberOfDecimal(|r.payload|);
  }

  /** The header line of the reply, with its newline, is within the limit. */
  predicate Fits(r: Reply) {
    |Header(r)| + 1 <= MAX_HEADER
  }

  /** The header line of a payload shorter than 10^39 bytes is within the limit. */
  lemma HeaderFits(r: Reply)
    requires |r.payload| < Pow10(39)
    ensures Fits(r)
  {
    DecimalLength(|r.payload|, 39);
  }

  // ----- the parent -----

  /** What `send_raw_command` makes of the answer. */
  datatype Response = Value(pickled: Bytes) | Error(pickled: Bytes) | Broken | Cancelled

  /** A read that failed: a cancellation goes on, everything else breaks the worker. */
  function FailureOf(r: Result): Response {
    if r.Interrupted? then Cancelled else Broken
  }

  function ResponseOf(r: Reply): Response {
    if r.status.Exception? then Error(r.payload) else Value(r.payload)
  }

  /** The outcome of a read that was not cancelled, on a stream that is open. */
  predicate Unhindered(r: Result) {
    !r.Closed? && !r.Interrupted?
  }

  /** What reading a line, and then as many bytes as it announces, may give: `s` is still to be
      read before, `t` after. */
  ghost predicate ReplyOk(s: Bytes, line: Result, mid: Bytes, body: Result, t: Bytes, r: Response) {
    && CallOk(s, Until([NEWLINE], MAX_HEADER), line, mid)
    && (if line.Got? && ParseHeader(line.data).Some? then
          var (status, length) := ParseHeader(line.data).value;
          && CallOk(mid, Exactly(length), body, t)
          && r == (if body.Got? then ResponseOf(Reply(status, body.data)) else FailureOf(body))
        else t == mid && r == FailureOf(line))
  }

  /** The reading half of `send_raw_command`. */
  method ReadReply(buffered: BufferedByteReceiveStream)
    returns (r: Response, ghost line: Result, ghost mid: Bytes, ghost body: Result)
    modifies buffered`buffer, buffered.receiveStream`arrivals
    ensures ReplyOk(old(buffered.Rest()), line, mid, body, buffered.Rest(), r)
    ensures !buffered.receiveStream.closed && !IsCancelled(old(buffered.receiveStream.arrivals)) ==>
              Unhindered(line) && Unhindered(body)
  {
    body := Incomplete;
    var header := buffered.ReceiveUntil([NEWLINE], MAX_HEADER);
    line, mid := header, buffered.Rest();
    if !header.Got? {
      return FailureOf(header), line, mid, body;
    }
    var parsed := ParseHeader(header.data);
    if parsed.None? {
      return Broken, line, mid, body;
    }
    var payload := buffered.ReceiveExactly(parsed.value.1);
    body := payload;
    if !payload.Got? {
      return FailureOf(payload), line, mid, body;
    }
    r := if parsed.value.0.Exception? then Error(payload.data) else Value(payload.data);
  }

  /** Frame round trip: whatever follows the frame, and however the transport cut the bytes,
      the parent gets the reply back and leaves exactly what follows. */
  lemma FrameRoundTrip(reply: Reply, more: Bytes, line: Result, mid: Bytes, body: Result, t: Bytes, r: Response)
    requires Fits(reply)
    requires ReplyOk(Frame(reply) + more, line, mid, body, t, r) && Unhindered(line) && Unhindered(body)
    ensures r == ResponseOf(reply) && t == more
  {
    HeaderIsRead(reply, more, line, mid);
    assert (reply.payload + more)[..|reply.payload|] == reply.payload;
    assert (reply.payload + more)[|reply.payload|..] == more;
  }

  lemma FirstLine(line: Bytes, rest: Bytes)
    requires NEWLINE !in line
    ensures var s := line + [NEWLINE] + rest;
            Find(s, [NEWLINE], 0) == Some(|line|) && s[..|line|] == line && s[|line| + 1..] == rest
  {
    var s := line + [NEWLINE] + rest;
    assert s[..|line|] == line;
    FirstByte(s, NEWLINE, |line|);
  }

  lemma HeaderIsRead(reply: Reply, more: Bytes, line: Result, mid: Bytes)
    requires Fits(reply)
    requires CallOk(Frame(reply) + more, Until([NEWLINE], MAX_HEADER), line, mid) && Unhindered(line)
    ensures line.Got? && ParseHeader(line.data) == Some((reply.status, |reply.payload|))
    ensures mid == reply.payload + more
  {
    HeaderRoundTrip(reply);
    FirstLine(Header(reply), reply.payload + more);
    assert Frame(reply) + more == Header(reply) + [NEWLINE] + (reply.payload + more);
  }

  /** What the caller of `run_sync` gets is how the command ended in the worker. */
  lemma AnswerArrives(e: Ending, dumpError: Bytes, line: Result, mid: Bytes, body: Result, t: Bytes, r: Response)
    requires |Answer(e, dumpError).payload| < Pow10(39)
    requires ReplyOk(Frame(Answer(e, dumpError)), line, mid, body, t, r) && Unhindered(line) && Unhindered(body)
    ensures t == []
    ensures match e
            case Returned(Some(d)) => r == Value(d)
            case Raised(Some(d)) => r == Error(d)
            case _ => r == Error(dumpError)
  {
    HeaderFits(Answer(e, dumpError));
    assert Frame(Answer(e, dumpError)) + [] == Frame(Answer(e, dumpError));
    FrameRoundTrip(Answer(e, dumpError), [], line, mid, body, t, r);
  }

  // ----- what is refused -----

  predicate IsDigit(b: Byte) {
    48 <= b <= 57
  }

  /** `int()` takes the non-empty strings of digits and no others. */
  lemma {:induction false} NumberTakes(digits: Bytes)
    ensures Number(digits).Some? <==> digits != [] && forall i :: 0 <= i < |digits| ==> IsDigit(digits[i])
  {
    if |digits| > 1 {
      var init, last := digits[..|digits| - 1], digits[|digits| - 1];
      NumberTakes(init);
      assert forall i :: 0 <= i < |init| ==> init[i] == digits[i];
      assert forall i :: 0 <= i < |digits| ==> i == |init| || digits[i] == init[i];
    }
  }

  /** A header line announces a status and a length iff it is that status, one space and digits of
      that value: any other word, a missing or a second space and anything but digits is refused. */
  lemma HeaderMeans(line: Bytes, status: Status, length: nat)
    ensures ParseHeader(line) == Some((status, length)) <==>
            exists digits: Bytes :: line == StatusBytes(status) + [SPACE] + digits && Number(digits) == Some(length)
  {
    if ParseHeader(line) == Some((status, length)) {
      var i := Find(line, [SPACE], 0).value;
      var digits := line[i + 1..];
      assert line[i..i + 1] == [SPACE];
      assert line == line[..i] + [SPACE] + digits;
      assert line[..i] == StatusBytes(status) && Number(digits) == Some(length);
    }
    if digits: Bytes :| line == StatusBytes(status) + [SPACE] + digits && Number(digits) == Some(length) {
      NumberTakes(digits);
      SplitAtSpace(StatusBytes(status), digits);
    }
  }

  /** What the caller gets: a value or an error iff a header was read that announces it and the
      payload came; a cancellation iff one of the two reads was cancelled; and otherwise the
      worker is broken. */
  lemma ReplyMeans(s: Bytes, line: Result, mid: Bytes, body: Result, t: Bytes, r: Response)
    requires ReplyOk(s, line, mid, body, t, r)
    ensures var announced := line.Got? && ParseHeader(line.data).Some?;
            && (r.Value? <==> announced && ParseHeader(line.data).value.0 == Return && body.Got?)
            && (r.Error? <==> announced && ParseHeader(line.data).value.0 == Exception && body.Got?)
            && (r.Value? || r.Error? ==> r.pickled == body.data && |body.data| == ParseHeader(line.data).value.1)
            && (r == Cancelled <==> line == Interrupted || (announced && body == Interrupted))
            && (r == Broken <==> line != Interrupted && !(announced && (body.Got? || body == Interrupted)))
  {
  }

  // ----- lockstep -----

  /** One command: the worker answers when nothing is left in the pipe, and the parent reads
      the answer through a buffer that is new for each call. */
  datatype Exchange = Exchange(reply: Reply, line: Result, mid: Bytes, body: Result, left: Bytes, response: Response)

  /** The answers are read one after the other; `left` is what an exchange leaves in its buffer
      and in the pipe, of which the next one, having a new buffer, sees only `pipe`. */
  ghost predicate Lockstep(pipe: Bytes, xs: seq<Exchange>)
    decreases |xs|
  {
    xs == [] ||
    (&& ReplyOk(pipe + Frame(xs[0].reply), xs[0].line, xs[0].mid, xs[0].body, xs[0].left, xs[0].response)
     && Unhindered(xs[0].line) && Unhindered(xs[0].body)
     && exists next: Bytes :: |next| <= |xs[0].left| && next == xs[0].left[|xs[0].left| - |next|..]
          && Lockstep(next, xs[1..]))
  }

  lemma FirstExchange(xs: seq<Exchange>)
    requires Lockstep([], xs) && xs != [] && Fits(xs[0].reply)
    ensures xs[0].response == ResponseOf(xs[0].reply) && xs[0].left == []
    ensures Lockstep([], xs[1..])
  {
    var x := xs[0];
    assert [] + Frame(x.reply) == Frame(x.reply) + [];
    FrameRoundTrip(x.reply, [], x.line, x.mid, x.body, x.left, x.response);
    var next: Bytes :| |next| <= |x.left| && next == x.left[|x.left| - |next|..] && Lockstep(next, xs[1..]);
    assert next == [];
  }

  /** Over every sequence of commands each answer arrives unchanged and nothing is left in any
      buffer, so dropping the buffer after each call loses nothing. */
  lemma {:induction false} LockstepRecoversAll(xs: seq<Exchange>, i: nat)
    requires Lockstep([], xs) && i < |xs|
    requires forall j :: 0 <= j < |xs| ==> Fits(xs[j].reply)
    ensures xs[i].response == ResponseOf(xs[i].reply) && xs[i].left == []
    decreases |xs|
  {
    FirstExchange(xs);
    if i > 0 {
      var rest := xs[1..];
      assert forall j :: 0 <= j < |rest| ==> rest[j] == xs[j + 1];
      LockstepRecoversAll(rest, i - 1);
    }
  }
}

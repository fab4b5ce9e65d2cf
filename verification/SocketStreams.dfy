/** The classes of the receiving side. Every method does what `SocketState` says. */
module SocketStreams {
  import opened Tasks
  import opened ByteSearch
  import opened SocketState

  class StreamProtocol {
    var readQueue: seq<Bytes>
    var readEvent: bool
    var isAtEof: bool
    var exception: bool
    var reader: Reader
    ghost var lost: bool
    var lossDue: bool
    ghost var received: Bytes
    ghost var delivered: Bytes

    constructor ()
      ensures readQueue == [] && !readEvent && !isAtEof && !exception && reader == Nobody
      ensures !lost && !lossDue && received == [] && delivered == []
    {
      readQueue, readEvent, isAtEof, exception, reader := [], false, false, false, Nobody;
      lost, lossDue, received, delivered := false, false, [], [];
    }

    /** `read_event.set()`. */
    method SetReadEvent()
      modifies this`readEvent, this`reader
      ensures readEvent
      ensures reader == WokenReader(old(reader))
    {
      readEvent := true;
      reader := WokenReader(reader);
    }

    /** Takes at most `max` bytes of the first chunk, and clears the event if nothing is left. */
    method PopChunk(max: nat) returns (chunk: Bytes)
      requires readQueue != []
      modifies this`readQueue, this`readEvent, this`delivered
      ensures (chunk, readQueue) == Front(old(readQueue), max)
      ensures readEvent == (old(readEvent) && readQueue != [])
      ensures delivered == old(delivered) + chunk
    {
      chunk := readQueue[0];
      readQueue := readQueue[1..];
      if |chunk| > max {
        readQueue := [chunk[max..]] + readQueue;
        chunk := chunk[..max];
      }
      if readQueue == [] {
        readEvent := false;
      }
      delivered := delivered + chunk;
    }
  }

  class SocketStream {
    const protocol: StreamProtocol
    var transportClosing: bool
    var transportReading: bool
    var closed: bool

    ghost function View(): State
      reads this, protocol
    {
      State(protocol.readQueue, protocol.readEvent, protocol.isAtEof, protocol.lost, protocol.exception,
            transportClosing, closed, protocol.lossDue, transportReading, protocol.reader,
            protocol.received, protocol.delivered)
    }

    constructor ()
      ensures View() == NEW && Ok(View()) && fresh(protocol)
    {
      protocol := new StreamProtocol();
      transportClosing, transportReading, closed := false, false, false;
    }

    method DataReceived(data: Bytes)
      requires Ok(View()) && Enabled(View(), DoData(data))
      modifies protocol
      ensures Ok(View()) && View() == SocketState.DataReceived(old(View()), data)
    {
      StepKeeps(View(), DoData(data));
      protocol.readQueue := protocol.readQueue + [data];
      protocol.received := protocol.received + data;
      protocol.SetReadEvent();
    }

    method EofReceived()
      requires Ok(View()) && Enabled(View(), DoEof)
      modifies protocol
      ensures Ok(View()) && View() == SocketState.EofReceived(old(View()))
    {
      StepKeeps(View(), DoEof);
      protocol.isAtEof := true;
      protocol.SetReadEvent();
    }

    method ConnectionLost(error: bool)
      requires Ok(View()) && Enabled(View(), DoLost(error))
      modifies protocol
      ensures Ok(View()) && View() == SocketState.ConnectionLost(old(View()), error)
    {
      StepKeeps(View(), DoLost(error));
      if error {
        protocol.exception := true;
      }
      protocol.lost, protocol.lossDue := true, false;
      protocol.SetReadEvent();
    }

    /** `receive()` up to the point where it waits. The guard is taken iff there is a reader. */
    method Receive(max: nat) returns (r: Result)
      requires Ok(View())
      modifies this`transportReading, protocol`reader
      ensures Ok(View()) && (View(), r) == SocketState.Receive(old(View()), max)
    {
      StepKeeps(View(), DoReceive(max));
      if !protocol.reader.Nobody? {
        return Busy;
      }
      if !protocol.readEvent && !transportClosing && !protocol.isAtEof {
        transportReading := true;
        protocol.reader := Awaiting(Waiting(0), max);
      } else {
        protocol.reader := Yielding(Task(Running, NoWaiter, false, 0, 0, 0), max, protocol.lossDue);
      }
      r := Blocked;
    }

    /** The end of `receive()`. */
    method Pop(max: nat) returns (r: Result)
      requires Ok(View()) && protocol.reader.Nobody?
      modifies protocol
      ensures Ok(View()) && (View(), r) == SocketState.Pop(old(View()), max)
    {
      PopKeeps(View(), max);
      if protocol.readQueue == [] {
        if closed {
          return Closed;
        } else if protocol.exception {
          return Broken;
        }
        return EndOfStream;
      }
      var chunk := protocol.PopChunk(max);
      r := Got(chunk);
    }

    /** Ends the wait, and pauses the transport if the reader waited. */
    method Wake() returns (interrupted: bool, max: nat)
      requires !protocol.reader.Nobody?
      modifies this`transportReading, protocol`reader
      ensures interrupted == IsInterrupted(old(protocol.reader.task)) && max == old(protocol.reader.max)
      ensures View() == if interrupted then old(View()).(reader := Nobody) else Awake(old(View()))
    {
      var reader := protocol.reader;
      interrupted, max := IsInterrupted(reader.task), reader.max;
      protocol.reader := Nobody;
      if reader.Awaiting? && !interrupted {
        transportReading := false;
      }
    }

    /** `receive()` after its event or its checkpoint. */
    method ResumeReceive() returns (r: Result)
      requires Ok(View()) && Enabled(View(), DoResume)
      modifies this`transportReading, protocol
      ensures Ok(View()) && (View(), r) == Resume(old(View()))
    {
      ResumeKeeps(View());
      var interrupted, max := Wake();
      if interrupted {
        return Interrupted;
      }
      r := Pop(max);
    }

    method Close()
      requires Ok(View())
      modifies this
      ensures Ok(View()) && View() == SocketState.Close(old(View()))
    {
      StepKeeps(View(), DoClose);
      if !transportClosing {
        closed, transportClosing := true, true;
      }
    }
  }
}

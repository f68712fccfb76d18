/** COutputBuffer and the write side of CTcpConnection, as mutable objects. */
module Connections {
  import opened Wire
  import opened SocketKey
  import opened SendPath

  /** A private copy of the caller's bytes, and how many of them have been written. */
  class OutputBuffer {
    const data: bytes
    var pos: nat

    constructor (source: array<byte>, n: nat)
      requires n <= source.Length
      ensures data == source[..n] && pos == 0
    {
      data := source[..n];
      pos := 0;
    }

    function View(): Buffer
      reads this
    {
      Buffer(data, pos)
    }

    function GetBytes(): (n: int)
      reads this
      ensures ValidBuffer(View()) ==> n == |Rest(View())|
    {
      |data| - pos
    }
  }

  /** What became of a WRITE event. */
  datatype WriteResult = Wrote(n: nat) | WouldBlock | Failed

  class TcpConnection {
    const key: Key
    var queue: seq<OutputBuffer>
    var wantWrite: bool
    /** The queue, the watcher's interest and everything write() has accepted, as a value. */
    ghost var pipe: Pipe
    ghost var Repr: set<object>

    constructor (key: Key)
      ensures this.key == key && Valid() && pipe == Pipe([], false, []) && Repr == {this}
    {
      this.key := key;
      queue, wantWrite := [], false;
      pipe, Repr := Pipe([], false, []), {this};
    }

    ghost predicate Valid()
      reads this, Repr
      ensures Valid() ==> this in Repr
    {
      && this in Repr
      && wantWrite == pipe.wantWrite
      && |queue| == |pipe.queue|
      && (forall i | 0 <= i < |queue| :: queue[i] in Repr && queue[i].View() == pipe.queue[i])
      && (forall i, j | 0 <= i < j < |queue| :: queue[i] != queue[j])
    }

    /** Refuses the buffer if the queue is over its limit; otherwise queues it and asks for WRITE events. */
    method Send(buffer: OutputBuffer) returns (refused: bool)
      requires Valid() && buffer !in Repr && buffer.pos == 0
      modifies this
      ensures Valid() && refused == Full(old(pipe))
      ensures refused ==> unchanged(this)
      ensures !refused ==> pipe == Enqueue(old(pipe), buffer.data) && Repr == old(Repr) + {buffer}
      ensures refused <==> |old(queue)| > 1_000_000
      ensures !refused ==> queue == old(queue) + [buffer] && wantWrite
    {
      if |queue| > WRITE_QUEUE_MAX_SIZE {
        return true;
      }
      queue := queue + [buffer];
      wantWrite := true;
      pipe := Enqueue(pipe, buffer.data);
      Repr := Repr + {buffer};
      return false;
    }

    /** The WRITE half of __IoCallback; `lost` tells that the connection must be given up. */
    method OnWritable(result: WriteResult) returns (lost: bool)
      requires Valid()
      requires result.Wrote? ==> CanWrite(pipe, result.n)
      modifies Repr
      ensures Valid() && Repr == old(Repr)
      ensures lost == (old(pipe).queue != [] && result.Failed?)
      ensures pipe == if result.Wrote? then Write(old(pipe), result.n)
                      else if old(pipe).queue == [] then Write(old(pipe), 0)
                      else old(pipe)
      ensures old(queue) == [] || result.Wrote? ==>
                if queue == [] then !wantWrite else wantWrite == old(wantWrite)
      ensures old(queue) != [] && !result.Wrote? ==> queue == old(queue) && wantWrite == old(wantWrite)
    {
      if queue == [] {
        wantWrite := false;
        pipe := Write(pipe, 0);
        return false;
      }
      var buffer := queue[0];
      match result
      case WouldBlock =>
        return false;
      case Failed =>
        return true;
      case Wrote(n) =>
        pipe := Write(pipe, n);
        buffer.pos := buffer.pos + n;
        if buffer.GetBytes() == 0 {
          queue := queue[1..];
        }
        if queue == [] {
          wantWrite := false;
        }
        return false;
    }
  }
}

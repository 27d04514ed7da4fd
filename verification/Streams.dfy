/** Byte streams as an asynchronous program meets them: what is read comes in chunks of any size, what
    is written is taken in portions of any size, and either may end early. */
module Streams {
  import opened Bytes

  /** What happens once all bytes have passed: the peer closed, the connection broke, or nothing more
      happens before the whole transfer is dropped. */
  datatype Ending = Closed | Broken | Dropped

  function Joined(chunks: seq<Bytes>): Bytes {
    if chunks == [] then [] else chunks[0] + Joined(chunks[1..])
  }

  datatype Read = Got(bytes: Bytes) | Failed(ending: Ending)

  class Reader {
    var chunks: seq<Bytes>
    const ending: Ending

    constructor (chunks: seq<Bytes>, ending: Ending)
      ensures this.chunks == chunks && this.ending == ending
    {
      this.chunks, this.ending := chunks, ending;
    }

    /** The bytes still to come. */
    ghost function Rest(): Bytes
      reads this
    {
      Joined(chunks)
    }

    /** One read into a buffer: some bytes that have arrived, or none at the end of the stream. */
    method Read(max: nat) returns (read: Read)
      requires max > 0
      modifies this
      ensures old(Rest()) != [] ==>
                read.Got? && 0 < |read.bytes| <= max && old(Rest()) == read.bytes + Rest()
      ensures old(Rest()) == [] ==>
                Rest() == [] && read == if ending == Closed then Got([]) else Failed(ending)
    {
      while chunks != [] && chunks[0] == []
        invariant Rest() == old(Rest())
        decreases |chunks|
      {
        chunks := chunks[1..];
      }
      if chunks == [] {
        return if ending == Closed then Got([]) else Failed(ending);
      }
      var first := chunks[0];
      var n := if |first| < max then |first| else max;
      read := Got(first[..n]);
      chunks := [first[n..]] + chunks[1..];
      assert first == first[..n] + first[n..];
    }

    /** Reads until `n` bytes have come; the end of the stream before that is an error. */
    method ReadExact(n: nat) returns (read: Read)
      modifies this
      ensures |old(Rest())| >= n ==> read == Got(old(Rest())[..n]) && Rest() == old(Rest())[n..]
      ensures |old(Rest())| < n ==> read == Failed(ending) && Rest() == []
    {
      var sofar: Bytes := [];
      while |sofar| < n
        invariant |sofar| <= n
        invariant old(Rest()) == sofar + Rest()
        decreases n - |sofar|
      {
        var more := Read(n - |sofar|);
        if more.Failed? || more.bytes == [] {
          return Failed(ending);
        }
        sofar := sofar + more.bytes;
      }
      read := Got(sofar);
    }
  }

  datatype Wrote = Written | NotWritten(ending: Ending)

  class Writer {
    var written: Bytes
    var shut: bool
    // How many more bytes the peer takes, and what happens after the last of them.
    var room: nat
    const ending: Ending

    constructor (room: nat, ending: Ending)
      ensures written == [] && !shut && this.room == room && this.ending == ending
    {
      written, shut, this.room, this.ending := [], false, room, ending;
    }

    /** Writes a whole buffer in portions of any size; on failure only the front of it went out. */
    method WriteAll(buffer: Bytes) returns (wrote: Wrote)
      modifies this`written, this`room
      ensures |buffer| <= old(room) ==>
                wrote == Written && written == old(written) + buffer && room == old(room) - |buffer|
      ensures |buffer| > old(room) ==>
                wrote == NotWritten(ending) && written == old(written) + buffer[..old(room)] && room == 0
    {
      var done := 0;
      while done < |buffer|
        invariant 0 <= done <= |buffer|
        invariant done <= old(room) && room == old(room) - done
        invariant written == old(written) + buffer[..done]
        decreases |buffer| - done
      {
        if room == 0 {
          return NotWritten(ending);
        }
        var most := if |buffer| - done < room then |buffer| - done else room;
        var n: nat :| 0 < n <= most;
        assert buffer[..done + n] == buffer[..done] + buffer[done..done + n];
        written, room := written + buffer[done..done + n], room - n;
        done := done + n;
      }
      assert buffer[..done] == buffer;
      wrote := Written;
    }

    method Shutdown()
      modifies this`shut
      ensures shut
    {
      shut := true;
    }
  }
}

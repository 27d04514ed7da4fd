/** One direction of a relayed session: bytes are copied from a reader to a writer as they come. */
module Relay {
  import opened Bytes
  import opened Streams
  import Wire

  const COPY_BUFFER: nat := 64 * 1024

  datatype Copied = Finished | ReadFailed(ending: Ending) | WriteFailed(ending: Ending)

  /** The copy loop, to its end or to wherever it is dropped. `moved` counts whole chunks written. */
  method CopyHalf(reader: Reader, writer: Writer) returns (copied: Copied, moved: nat)
    modifies reader, writer
    ensures var data, room := old(reader.Rest()), old(writer.room);
            && (|data| <= room ==>
                  && copied == (if reader.ending == Closed then Finished else ReadFailed(reader.ending))
                  && writer.written == old(writer.written) + data && moved == |data| && reader.Rest() == []
                  && writer.shut == (copied == Finished || old(writer.shut)))
            && (|data| > room ==>
                  && copied == WriteFailed(writer.ending) && writer.shut == old(writer.shut)
                  && writer.written == old(writer.written) + data[..room]
                  && |reader.Rest()| <= |data|
                  && var read := |data| - |reader.Rest()|;
                     reader.Rest() == data[read..] && moved <= room < read <= moved + 65_536)
  {
    hide Reader.Rest, Joined;
    moved := 0;
    ghost var data, room := reader.Rest(), writer.room;
    while true
      invariant moved <= |data| && moved <= room && writer.room == room - moved && writer.shut == old(writer.shut)
      invariant reader.Rest() == data[moved..]
      invariant writer.written == old(writer.written) + data[..moved]
      decreases |data| - moved, 0
    {
      var read := reader.Read(COPY_BUFFER);
      if read.Failed? {
        return ReadFailed(read.ending), moved;
      }
      if read.bytes == [] {
        writer.Shutdown();
        return Finished, moved;
      }
      var chunk := read.bytes;
      TakeMore(data, moved, chunk, reader.Rest(), |chunk|);
      assert chunk[..|chunk|] == chunk;
      var wrote := writer.WriteAll(chunk);
      if wrote.NotWritten? {
        TakeMore(data, moved, chunk, reader.Rest(), room - moved);
        return WriteFailed(wrote.ending), moved;
      }
      moved := moved + |chunk|;
    }
  }

  /** Frames relayed and then read at the far end, the bytes regrouped on the way however the network
      likes: if all of them enter and the relay delivers everything they come out as they went in; if the
      source ends early, inside a frame or between two, or the relay is cut short, some of the first
      frames come out and nothing else. */
  method RelayFrames(payloads: seq<Bytes>, reader: Reader, writer: Writer, regroup: Bytes -> seq<Bytes>)
    returns (received: seq<Bytes>)
    requires Wire.AllFit(payloads) && reader.Rest() <= Wire.EncodeAll(payloads) && writer.written == []
    requires forall bytes :: Joined(regroup(bytes)) == bytes
    modifies reader, writer
    ensures received <= payloads
    ensures old(reader.Rest()) == Wire.EncodeAll(payloads) && |Wire.EncodeAll(payloads)| <= old(writer.room) ==>
              received == payloads
  {
    hide Wire.Frames, Wire.EncodeAll;
    ghost var data, room := reader.Rest(), writer.room;
    var copied, moved := CopyHalf(reader, writer);
    var far := new Reader(regroup(writer.written), Closed);
    received := Wire.ReadFrames(far);
    var arrived := |writer.written|;
    assert writer.written == data[..arrived] == Wire.EncodeAll(payloads)[..arrived];
    assert |data| <= room ==> data[..arrived] == data;
    Wire.FramesRoundTrip(payloads);
    Wire.FramesOfPrefix(payloads, arrived);
  }
}

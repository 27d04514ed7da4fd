/** One relayed session: two copies race, and when one ends the other is dropped where it is. */
module Session {
  import opened Bytes
  import opened Json
  import opened Relay
  import opened Streams

  datatype Side = Local | Remote

  /** How a session came out; `lasted` in milliseconds. */
  datatype Outcome = Outcome(endedBy: Side, error: Option<Ending>, toRemote: nat, toLocal: nat, lasted: real)

  predicate Productive(outcome: Outcome) {
    outcome.toRemote != 0 || outcome.toLocal != 0 || outcome.lasted >= 10_000.0
  }

  /** What a copy between these two comes to an end on: what happens to the reader once all has been
      copied, or to the writer before that. */
  function EndOf(data: Bytes, reader: Ending, room: nat, writer: Ending): Ending {
    if |data| <= room then reader else writer
  }

  /** The error of such a copy: none exactly if all was copied and the reader was then closed. */
  function HowEnds(data: Bytes, reader: Ending, room: nat, writer: Ending): Option<Ending> {
    if |data| <= room && reader == Closed then None else Some(EndOf(data, reader, room, writer))
  }

  function ErrorOf(copied: Copied): Option<Ending> {
    match copied
    case Finished => None
    case ReadFailed(ending) => Some(ending)
    case WriteFailed(ending) => Some(ending)
  }

  /** A session over four streams, each given as far as it gets before the session is over: exactly one of
      the two copies ends by itself. Each counter of the outcome is at most what was delivered in its
      direction, and less than a buffer behind it; what was delivered is the front of what was sent. */
  method Run(fromLocal: Reader, toRemote: Writer, fromRemote: Reader, toLocal: Writer, lasted: real)
    returns (outcome: Outcome)
    requires fromLocal != fromRemote && toRemote != toLocal && toRemote.written == [] && toLocal.written == []
    requires EndOf(fromLocal.Rest(), fromLocal.ending, toRemote.room, toRemote.ending).Dropped?
             <==> !EndOf(fromRemote.Rest(), fromRemote.ending, toLocal.room, toLocal.ending).Dropped?
    modifies fromLocal, toRemote, fromRemote, toLocal
    ensures outcome.toRemote <= |toRemote.written| < outcome.toRemote + 65_536
    ensures outcome.toLocal <= |toLocal.written| < outcome.toLocal + 65_536
    ensures toRemote.written <= old(fromLocal.Rest()) && toLocal.written <= old(fromRemote.Rest())
    ensures outcome.endedBy.Local?
            <==> !old(EndOf(fromLocal.Rest(), fromLocal.ending, toRemote.room, toRemote.ending)).Dropped?
    ensures outcome.error == if outcome.endedBy.Local?
                             then old(HowEnds(fromLocal.Rest(), fromLocal.ending, toRemote.room, toRemote.ending))
                             else old(HowEnds(fromRemote.Rest(), fromRemote.ending, toLocal.room, toLocal.ending))
    ensures outcome.error.None? ==>
              if outcome.endedBy.Local? then toRemote.written == old(fromLocal.Rest()) && outcome.toRemote == |toRemote.written|
              else toLocal.written == old(fromRemote.Rest()) && outcome.toLocal == |toLocal.written|
    ensures outcome.lasted == lasted
  {
    var up, movedUp := CopyHalf(fromLocal, toRemote);
    var down, movedDown := CopyHalf(fromRemote, toLocal);
    if ErrorOf(up) == Some(Dropped) {
      outcome := Outcome(Remote, ErrorOf(down), movedUp, movedDown, lasted);
    } else {
      outcome := Outcome(Local, ErrorOf(up), movedUp, movedDown, lasted);
    }
  }
}

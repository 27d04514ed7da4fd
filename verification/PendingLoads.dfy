/** The `session/load` requests a candidate link still owes an answer to. */
module PendingLoads {
  import opened Json
  import opened SessionOrder

  type ReqId = int

  datatype PendingLoads = PendingLoads(remaining: set<SessionId>, loadIds: map<ReqId, SessionId>)

  datatype LoadProgress = More(pending: PendingLoads) | Done | Ignore(pending: PendingLoads)

  /** The `n` ids after `base`. */
  function IdsAfter(base: int, n: nat): (ids: set<ReqId>)
    ensures forall id :: id in ids <==> base < id <= base + n
  {
    if n == 0 then {} else IdsAfter(base, n - 1) + {base + n}
  }

  /** Consecutive ids after `base`, handed out in the order given. */
  function Numbered(order: seq<SessionId>, base: int): map<ReqId, SessionId> {
    map id | id in IdsAfter(base, |order|) :: order[id - base - 1]
  }

  function Start(watched: set<SessionId>, base: int): Option<PendingLoads> {
    if watched == {} then None else Some(PendingLoads(watched, Numbered(Ordered(watched), base)))
  }

  function Loaded(pending: PendingLoads, id: ReqId): LoadProgress {
    if id !in pending.loadIds then Ignore(pending) else
      var session := pending.loadIds[id];
      var left := PendingLoads(pending.remaining - {session}, pending.loadIds - {id});
      if left.remaining == {} then Done else More(left)
  }

  ghost function SessionsOf(loadIds: map<ReqId, SessionId>): set<SessionId> {
    set id | id in loadIds :: loadIds[id]
  }

  /** The sessions still to load are exactly those of the unanswered ids, one id each. */
  ghost predicate Consistent(pending: PendingLoads) {
    && pending.remaining != {}
    && pending.remaining == SessionsOf(pending.loadIds)
    && (forall i, j :: i in pending.loadIds && j in pending.loadIds && pending.loadIds[i] == pending.loadIds[j]
          ==> i == j)
  }

  lemma NumberedSessions(order: seq<SessionId>, base: int, session: SessionId)
    ensures session in SessionsOf(Numbered(order, base)) <==> session in order
  {
    var ids := Numbered(order, base);
    if session in order {
      var k :| 0 <= k < |order| && order[k] == session;
      assert base + 1 + k in ids && ids[base + 1 + k] == session;
    }
  }

  lemma NumberedDistinct(order: seq<SessionId>, base: int, i: ReqId, j: ReqId)
    requires Ascending(order)
    requires i in Numbered(order, base) && j in Numbered(order, base)
    requires Numbered(order, base)[i] == Numbered(order, base)[j]
    ensures i == j
  {
    AscendingDistinct(order, i - base - 1, j - base - 1);
  }

  lemma StartIsConsistent(watched: set<SessionId>, base: int)
    requires watched != {}
    ensures Consistent(Start(watched, base).value)
  {
    hide Ascending, Numbered, Ordered;
    var order := Ordered(watched);
    forall session ensures session in SessionsOf(Numbered(order, base)) <==> session in watched {
      NumberedSessions(order, base, session);
    }
    forall i, j | i in Numbered(order, base) && j in Numbered(order, base) && Numbered(order, base)[i] == Numbered(order, base)[j]
      ensures i == j
    {
      NumberedDistinct(order, base, i, j);
    }
  }

  /** One answer crosses off exactly its own id; the last one, and only the last one, is Done. */
  lemma LoadedCrossesOff(pending: PendingLoads, id: ReqId)
    requires Consistent(pending)
    ensures id !in pending.loadIds ==> Loaded(pending, id) == Ignore(pending)
    ensures id in pending.loadIds ==> (Loaded(pending, id).Done? <==> forall i :: i in pending.loadIds ==> i == id)
    ensures Loaded(pending, id).More? ==>
              && Consistent(Loaded(pending, id).pending)
              && Loaded(pending, id).pending.loadIds == pending.loadIds - {id}
  {
    if id in pending.loadIds {
      var session := pending.loadIds[id];
      var left := pending.loadIds - {id};
      assert SessionsOf(left) == pending.remaining - {session} by {
        forall s | s in pending.remaining - {session} ensures s in SessionsOf(left) {
          var i :| i in pending.loadIds && pending.loadIds[i] == s;
          assert i in left && left[i] == s;
        }
      }
      forall i | i in pending.loadIds && i != id ensures !Loaded(pending, id).Done? {
        assert i in left && left[i] in SessionsOf(left);
      }
    }
  }

  /** Answers taken one after another until Done; `None` once the last one is in. */
  function Fed(pending: PendingLoads, ids: seq<ReqId>): Option<PendingLoads>
    decreases |ids|
  {
    if ids == [] then Some(pending) else
      match Loaded(pending, ids[0])
      case Done => None
      case More(left) => Fed(left, ids[1..])
      case Ignore(same) => Fed(same, ids[1..])
  }

  /** In whatever order the answers come, with whatever other ids and repeats between them, the
      loads are done exactly when every load id has been answered. */
  lemma {:induction false} DoneWhenAllAnswered(pending: PendingLoads, ids: seq<ReqId>)
    requires Consistent(pending)
    ensures Fed(pending, ids).None? <==> (forall id :: id in pending.loadIds ==> id in ids)
    ensures Fed(pending, ids).Some? ==>
              Fed(pending, ids).value.loadIds == map id | id in pending.loadIds && id !in ids :: pending.loadIds[id]
    decreases |ids|
  {
    if ids == [] {
      var session :| session in SessionsOf(pending.loadIds);
      var id :| id in pending.loadIds && pending.loadIds[id] == session;
      assert id !in ids;
    } else {
      LoadedCrossesOff(pending, ids[0]);
      assert forall id :: id in ids <==> id == ids[0] || id in ids[1..];
      match Loaded(pending, ids[0])
      case Done =>
        assert forall id :: id in pending.loadIds ==> id == ids[0];
      case More(left) =>
        DoneWhenAllAnswered(left, ids[1..]);
      case Ignore(same) =>
        DoneWhenAllAnswered(same, ids[1..]);
    }
  }
}

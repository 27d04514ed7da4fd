/** What each event of a link must bring about, in full: who is served and who is the candidate
    afterwards, which link is halted, and what is put on which channel. */
module HubLinkEffects {
  import opened Json
  import opened SessionOrder
  import opened PendingLoads
  import opened HubState
  import opened HubSteps
  import opened HubRuns
  import opened HubReplacement
  import HubLinks

  /** Only the home slot has changed: the same link is served, this one is the candidate, and these
      links have been halted besides. */
  ghost predicate SlotBecomes(s: State, s': State, candidate: Option<Incoming>, halted: seq<Gen>) {
    && s' == s.(slot := s.slot.(home := s'.slot.home, halts := s.slot.halts + halted))
    && MuxGen(s'.slot.home) == MuxGen(s.slot.home) && CandidateOf(s'.slot.home) == candidate
  }

  /** Each ready phone has been sent this one text, and nobody else anything. */
  ghost predicate ReadyHear(s: State, s': State, text: ToPhone) {
    forall p ::
      Sent(s'.texts, p)
      == if p in s.book.phones && s.book.phones[p] == Initialized then Sent(s.texts, p) + [text] else Sent(s.texts, p)
  }

  // ----- A link comes and goes

  /** A new link is the candidate, with ten seconds to register; the candidate before it is halted, and
      the served link stays. */
  lemma AcceptEffect(s: State, l: Label)
    requires Legal(s, l) && l.event == Accepted
    ensures var s', g := Step(s, l), s.slot.nextGen + 1;
            && s' == s.(slot := s'.slot, links := s.links[g := []])
            && s'.slot.nextGen == g && s'.slot.refusedVersion == s.slot.refusedVersion
            && s'.slot.halts == s.slot.halts
                 + (if CandidateOf(s.slot.home).Some? then [CandidateOf(s.slot.home).value.link] else [])
            && MuxGen(s'.slot.home) == MuxGen(s.slot.home)
            && CandidateOf(s'.slot.home) == Some(WaitRegistered(g, l.now + 10_000))
  {
  }

  lemma BroadcastEffect(s: State, s': State, away: bool)
    requires s' == Broadcast(s, away)
    ensures s' == s.(texts := s'.texts) && ReadyHear(s, s', HostAway(away))
  {
  }

  /** The served link ends: it is halted, nothing is served any more, the candidate stays what it was, and
      every ready phone is told that the host is away. */
  lemma EndOfServed(s: State, l: Label, g: Gen)
    requires Legal(s, l) && MuxGen(s.slot.home) == Some(g)
    requires l.event == HomeEof(g) || l.event == HomeFrame(g, LeaderError)
    ensures var s' := Step(s, l);
            && s' == s.(slot := s.slot.(home := s'.slot.home, halts := s.slot.halts + [g]), texts := s'.texts)
            && MuxGen(s'.slot.home) == None && CandidateOf(s'.slot.home) == CandidateOf(s.slot.home)
            && ReadyHear(s, s', HostAway(true))
  {
    hide ReadyHear, Broadcast;
    var s1 := s.(slot := LoseMux(s.slot, g));
    BroadcastEffect(s1, Broadcast(s1, true), true);
    HearIn(s, s1, Step(s, l), HostAway(true));
  }

  lemma HearIn(s: State, s1: State, s': State, text: ToPhone)
    requires s1.book == s.book && s1.texts == s.texts && ReadyHear(s1, s', text)
    ensures ReadyHear(s, s', text)
  {
  }

  /** A candidate ends: it is halted, and nothing else changes. */
  lemma EndOfCandidate(s: State, l: Label, g: Gen)
    requires Legal(s, l) && CandidateAt(s.slot.home, g).Some? && MuxGen(s.slot.home) != Some(g)
    requires l.event == HomeEof(g) || l.event == HomeFrame(g, LeaderError)
    ensures SlotBecomes(s, Step(s, l), None, [g])
  {
  }

  /** A deadline passes: the candidate is halted, and nothing else changes. */
  lemma DeadlineEffect(s: State, l: Label)
    requires Legal(s, l) && l.event == DeadlinePassed
    ensures CandidateOf(s.slot.home).Some?
    ensures SlotBecomes(s, Step(s, l), None, [CandidateOf(s.slot.home).value.link])
  {
  }

  /** Whatever ends a link, its own end, its candidacy's deadline or a version refused, the hub never
      holds it again. */
  lemma EndIsFinal(r: Run, i: nat, j: nat, g: Gen)
    requires IsRun(r) && i < |r.labels| && i < j < |r.states| && Live(r.states[i].slot.home, g)
    requires || OwnEnd(r.labels[i].event, g)
             || (MuxGen(r.states[i].slot.home) != Some(g)
                 && (r.labels[i].event == DeadlinePassed
                     || exists ready, v :: v != 1 && r.labels[i].event == HomeFrame(g, Registered(ready, v))))
    ensures g in r.states[j].slot.halts && !Live(r.states[j].slot.home, g)
  {
    hide IsRun, Good, Step, Legal;
    var s, l := r.states[i], r.labels[i];
    assert StepAt(r, i) && |r.states| == |r.labels| + 1 by { StepOf(r, i); }
    if OwnEnd(l.event, g) {
      if MuxGen(s.slot.home) == Some(g) { EndOfServed(s, l, g); } else { EndOfCandidate(s, l, g); }
    } else if l.event == DeadlinePassed {
      DeadlineEffect(s, l);
    } else {
      var ready, v :| v != 1 && l.event == HomeFrame(g, Registered(ready, v));
      RefusedEffect(s, l, g, ready, v);
    }
    assert r.states[i + 1].slot.halts[|r.states[i + 1].slot.halts| - 1] == g;
    HaltedStays(r, i + 1, j, g);
    Reachable(r, j);
    HaltedIsNotHeld(r.states[j], g);
  }

  lemma StepOf(r: Run, i: nat)
    requires IsRun(r) && i < |r.labels|
    ensures |r.states| == |r.labels| + 1 && StepAt(r, i)
  {
  }

  lemma HaltedIsNotHeld(s: State, g: Gen)
    requires Good(s) && g in s.slot.halts
    ensures !Live(s.slot.home, g)
  {
    GoodSlot(s);
  }

  /** At shutdown the candidate is halted and then the served link, and every phone is gone. */
  lemma ShutdownEffect(s: State)
    ensures var s' := Shutdown(s);
            && s' == s.(slot := s.slot.(home := Home.Away, halts := s'.slot.halts), book := s.book.(phones := map[]))
            && s'.slot.halts == s.slot.halts
                 + (if CandidateOf(s.slot.home).Some? then [CandidateOf(s.slot.home).value.link] else [])
                 + (if MuxGen(s.slot.home).Some? then [MuxGen(s.slot.home).value] else [])
  {
  }

  // ----- The handshake

  /** A candidate that registers under any version but 1 is halted, the version is remembered, and nothing
      else changes. */
  lemma RefusedEffect(s: State, l: Label, g: Gen, ready: bool, version: int)
    requires Legal(s, l) && CandidateAt(s.slot.home, g).Some? && MuxGen(s.slot.home) != Some(g)
    requires l.event == HomeFrame(g, Registered(ready, version)) && version != 1
    ensures SlotBecomes(s.(slot := s.slot.(refusedVersion := Some(version))), Step(s, l), None, [g])
  {
  }

  /** The hub asks the candidate to initialize: a request under the next id, which it waits for. */
  ghost predicate IsAskedToInitialize(s: State, s': State, g: Gen) {
    var id := s.nextReq + 1;
    SlotBecomes(s.(nextReq := id, outstanding := s.outstanding[id := HubInitialize],
                   links := s.links[g := Sent(s.links, g) + [Initialize(id)]]),
                s', Some(WaitInitialize(g)), [])
  }

  /** A candidate that registers under version 1 is asked to initialize if it is ready, and has two minutes
      to become so if it is not; registering again changes nothing but the version remembered. */
  lemma RegisteredEffect(s: State, l: Label, g: Gen, ready: bool)
    requires Legal(s, l) && CandidateAt(s.slot.home, g).Some? && MuxGen(s.slot.home) != Some(g)
    requires l.event == HomeFrame(g, Registered(ready, 1))
    ensures var s', s1 := Step(s, l), s.(slot := s.slot.(refusedVersion := None));
            if !CandidateAt(s.slot.home, g).value.WaitRegistered? then s' == s1
            else if ready then IsAskedToInitialize(s1, s', g)
            else SlotBecomes(s1, s', Some(WaitReady(g, l.now + 120_000)), [])
  {
    assert s.slot.halts + [] == s.slot.halts;
  }

  /** A candidate not ready when it registered is asked to initialize once it is; at any other time the
      frame changes nothing. */
  lemma ReadyEffect(s: State, l: Label, g: Gen)
    requires Legal(s, l) && CandidateAt(s.slot.home, g).Some? && MuxGen(s.slot.home) != Some(g)
    requires l.event == HomeFrame(g, LeaderReady)
    ensures if CandidateAt(s.slot.home, g).value.WaitReady? then IsAskedToInitialize(s, Step(s, l), g) else Step(s, l) == s
  {
    assert s.slot.halts + [] == s.slot.halts;
  }

  /** Frames of the handshake mean nothing from the served link, and some frames mean nothing from any. */
  lemma IgnoredFrames(s: State, l: Label)
    requires Legal(s, l) && l.event.HomeFrame?
    requires || l.event.frame in {Pong, OtherFrame, Acp(None)}
             || (MuxGen(s.slot.home) == Some(l.event.gen) && (l.event.frame.Registered? || l.event.frame.LeaderReady?))
    ensures Step(s, l) == s
  {
  }

  // ----- Results the hub itself waits for

  /** A result with this id, a message without a method, comes from link `g`. */
  predicate Brings(event: Event, g: Gen, obj: Object, h: nat) {
    && event == HomeFrame(g, Acp(Some(obj)))
    && "id" in obj && obj["id"] == Int(h) && ("method" in obj ==> !obj["method"].Str?)
  }

  lemma BringsResult(event: Event, g: Gen, obj: Object, h: nat)
    requires Brings(event, g, obj, h)
    ensures IsResult(obj) && !IsRequest(obj) && !IsNotification(obj) && AsNat(Id(obj)) == Some(h)
  {
  }

  /** The candidate is the served link, alone; the link it replaces is halted, and if there was none every
      ready phone is told that the host is back. */
  ghost predicate TakesOver(s: State, s': State, g: Gen) {
    && s' == s.(slot := s.slot.(home := Sole(g), halts := s'.slot.halts), texts := s'.texts)
    && match MuxGen(s.slot.home)
       case Some(incumbent) => s'.slot.halts == s.slot.halts + [incumbent] && s'.texts == s.texts
       case None => s'.slot.halts == s.slot.halts && ReadyHear(s, s', HostAway(false))
  }

  lemma FinishEffect(s: State, g: Gen)
    requires CandidateAt(s.slot.home, g).Some?
    ensures TakesOver(s, FinishSuccessor(s, g), g)
  {
    hide ReadyHear, Broadcast;
    if MuxGen(s.slot.home).None? {
      var s1 := s.(slot := s.slot.(home := Sole(g)));
      BroadcastEffect(s1, FinishSuccessor(s, g), false);
      HearIn(s, s1, FinishSuccessor(s, g), HostAway(false));
    }
  }

  /** A load for every session watched, each once and in order, under the ids that come next; the hub waits
      for each, and the candidate for all. */
  ghost predicate StartsLoads(s: State, s': State, g: Gen) {
    exists order: seq<SessionId> ::
      && Ascending(order) && (forall session :: session in order <==> session in s.book.watchers)
      && LoadsInOrder(s, s', g, order)
  }

  ghost predicate LoadsInOrder(s: State, s': State, g: Gen, order: seq<SessionId>) {
    && s' == s.(nextReq := s.nextReq + |order|, slot := s.slot.(home := s'.slot.home), outstanding := s'.outstanding,
                links := s.links[g := Sent(s.links, g) + seq(|order|, k requires 0 <= k < |order| =>
                                                              Load(s.nextReq + 1 + k, order[k]))])
    && MuxGen(s'.slot.home) == MuxGen(s.slot.home)
    && AlsoAwaited(s.outstanding, s'.outstanding, s.nextReq, |order|)
    && CandidateOf(s'.slot.home).Some? && CandidateOf(s'.slot.home).value.WaitLoads?
    && CandidateOf(s'.slot.home).value.link == g
    && CandidateOf(s'.slot.home).value.pending.remaining == s.book.watchers.Keys
    && InOrder(CandidateOf(s'.slot.home).value.pending.loadIds, order, s.nextReq)
  }

  /** The `n` ids after `base` are waited for as loads, and the others as they were. */
  ghost predicate AlsoAwaited(waits: map<ReqId, Wait>, waits': map<ReqId, Wait>, base: int, n: nat) {
    && (forall id :: id in waits' <==> id in waits || base < id <= base + n)
    && (forall id :: id in waits' ==> waits'[id] == if base < id <= base + n then HubLoad else waits[id])
  }

  ghost predicate InOrder(loadIds: map<ReqId, SessionId>, order: seq<SessionId>, base: int) {
    && (forall id :: id in loadIds <==> base < id <= base + |order|)
    && (forall id :: id in loadIds ==> loadIds[id] == order[id - base - 1])
  }

  lemma LoadsSent(s: State, g: Gen, order: seq<SessionId>)
    requires CandidateAt(s.slot.home, g).Some? && s.book.watchers.Keys != {} && order == Ordered(s.book.watchers.Keys)
    ensures LoadsInOrder(s, BeginLoads(s, g), g, order)
  {
    hide Ordered, IdsAfter, InOrder, AlsoAwaited, Numbered;
    NumberedInOrder(order, s.nextReq);
    WaitsForLoads(s.outstanding, Numbered(order, s.nextReq), order, s.nextReq);
    assert LoadRequests(order, s.nextReq)
           == seq(|order|, k requires 0 <= k < |order| => Load(s.nextReq + 1 + k, order[k]));
  }

  lemma NumberedInOrder(order: seq<SessionId>, base: int)
    ensures InOrder(Numbered(order, base), order, base)
  {
  }

  lemma WaitsForLoads(waits: map<ReqId, Wait>, loadIds: map<ReqId, SessionId>, order: seq<SessionId>, base: int)
    requires InOrder(loadIds, order, base)
    ensures AlsoAwaited(waits, waits + (map id | id in loadIds :: HubLoad), base, |order|)
  {
  }

  lemma LoadsEffect(s: State, g: Gen)
    requires CandidateAt(s.slot.home, g).Some? && s.book.watchers.Keys != {}
    ensures StartsLoads(s, BeginLoads(s, g), g)
  {
    hide LoadsInOrder, BeginLoads;
    LoadsSent(s, g, Ordered(s.book.watchers.Keys));
  }

  /** A result of the hub's own `initialize` from the candidate: an error halts it; any other takes it on,
      straight into service if no session is watched, and to the loads if some are. */
  lemma InitializeResultEffect(s: State, l: Label, g: Gen, obj: Object, h: nat)
    requires Legal(s, l) && CandidateAt(s.slot.home, g).Some? && MuxGen(s.slot.home) != Some(g)
    requires Brings(l.event, g, obj, h) && h in s.outstanding && s.outstanding[h] == HubInitialize
    ensures var s', s1 := Step(s, l), s.(outstanding := s.outstanding - {h});
            if "error" in obj then SlotBecomes(s1, s', None, [g])
            else if !CandidateAt(s.slot.home, g).value.WaitInitialize? then s' == s1
            else if s.book.watchers == map[] then TakesOver(s1, s', g)
            else StartsLoads(s1, s', g)
  {
    hide TakesOver, StartsLoads, BeginLoads, FinishSuccessor, Method, Id, AsNat, IsResult, IsRequest, IsNotification;
    BringsResult(l.event, g, obj, h);
    var s1 := s.(outstanding := s.outstanding - {h});
    FinishEffect(s1, g);
    if s.book.watchers.Keys != {} { LoadsEffect(s1, g); }
  }

  lemma PendingConsistent(s: State, g: Gen)
    requires HubLinks.LinksOk(s.slot, s.links) && CandidateAt(s.slot.home, g).Some?
    requires CandidateAt(s.slot.home, g).value.WaitLoads?
    ensures Consistent(CandidateAt(s.slot.home, g).value.pending)
  {
    hide HubLinks.Conserved, HubLinks.Grammar, Consistent;
  }

  /** A result of one of the hub's loads from the candidate: the last of its own puts it into service, any
      other of its own is crossed off, and one of another candidate's changes nothing here. */
  lemma LoadResultEffect(s: State, l: Label, g: Gen, obj: Object, h: nat)
    requires HubLinks.LinksOk(s.slot, s.links)
    requires Legal(s, l) && CandidateAt(s.slot.home, g).Some? && MuxGen(s.slot.home) != Some(g)
    requires Brings(l.event, g, obj, h) && h in s.outstanding && s.outstanding[h] == HubLoad
    ensures var s', s1, incoming := Step(s, l), s.(outstanding := s.outstanding - {h}), CandidateAt(s.slot.home, g).value;
            if !incoming.WaitLoads? || h !in incoming.pending.loadIds then s' == s1
            else if forall id :: id in incoming.pending.loadIds ==> id == h then TakesOver(s1, s', g)
            else SlotBecomes(s1, s', Some(WaitLoads(g, PendingLoads(
                               incoming.pending.remaining - {incoming.pending.loadIds[h]},
                               incoming.pending.loadIds - {h}))), [])
  {
    hide TakesOver, FinishSuccessor, Method, Id, AsNat, IsResult, IsRequest, IsNotification, HubLinks.LinksOk;
    BringsResult(l.event, g, obj, h);
    FinishEffect(s.(outstanding := s.outstanding - {h}), g);
    assert s.slot.halts + [] == s.slot.halts;
    if CandidateAt(s.slot.home, g).value.WaitLoads? {
      PendingConsistent(s, g);
      LoadedCrossesOff(CandidateAt(s.slot.home, g).value.pending, h);
    }
  }

  /** A result that nobody waits for changes nothing; one on a link that is not in the role its wait calls for
      only ends the wait. */
  lemma StrayResultEffect(s: State, l: Label, g: Gen, obj: Object, h: nat)
    requires Legal(s, l) && Live(s.slot.home, g) && Brings(l.event, g, obj, h)
    requires h in s.outstanding ==> (s.outstanding[h].Forwarded? <==> MuxGen(s.slot.home) != Some(g))
    ensures Step(s, l) == if h in s.outstanding then s.(outstanding := s.outstanding - {h}) else s
  {
    hide Method, Id, AsNat, IsResult, IsRequest, IsNotification;
    BringsResult(l.event, g, obj, h);
  }

  /** A message without a method changes nothing if its id, or the lack of one, is not a number the hub could have
      given out. */
  lemma OddIdEffect(s: State, l: Label, g: Gen, obj: Object)
    requires Legal(s, l) && l.event == HomeFrame(g, Acp(Some(obj))) && ("method" in obj ==> !obj["method"].Str?)
    requires "id" in obj ==> !obj["id"].Int? || obj["id"].n < 0
    ensures Step(s, l) == s
  {
  }
}

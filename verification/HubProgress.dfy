/** Progress of a replacement: if home answers only what it was asked, a candidate that has answered
    everything the hub put on its link is the served link. */
module HubProgress {
  import opened Json
  import opened SessionOrder
  import opened PendingLoads
  import opened HubState
  import opened HubSteps
  import opened HubRuns
  import opened HubReplacement
  import opened HubRequests
  import opened HubCutover
  import HubLinks
  import HubIds
  import HubDelivery
  import HubHandshake

  /** The candidate still owes an answer under this id. */
  predicate IsOwed(s: State, c: Gen, h: ReqId) {
    var incoming := CandidateAt(s.slot.home, c);
    && incoming.Some?
    && ((incoming.value.WaitInitialize? && Sent(s.links, c) == [Initialize(h)])
        || (incoming.value.WaitLoads? && h in incoming.value.pending.loadIds))
  }

  /** The hub waits for that answer, as the kind of answer the candidate's stage calls for. */
  predicate HubWaits(s: State, c: Gen, h: ReqId) {
    var incoming := CandidateAt(s.slot.home, c);
    && incoming.Some? && h in s.outstanding
    && s.outstanding[h] == if incoming.value.WaitInitialize? then HubInitialize else HubLoad
  }

  /** What is owed after a step was owed before and is not what has just been answered, or has just
      been asked under a fresh id. */
  ghost predicate OwedMoves(s: State, event: Event, s': State, c: Gen, h: ReqId) {
    IsOwed(s', c, h) ==>
      || (IsOwed(s, c, h) && CandidateAt(s'.slot.home, c).value.WaitInitialize? == CandidateAt(s.slot.home, c).value.WaitInitialize?
          && (ResultId(event, c) == Some(h) ==> !HubWaits(s, c, h)))
      || (s.nextReq < h && HubWaits(s', c, h))
  }

  lemma SameOwed(s: State, event: Event, s': State, c: Gen, h: ReqId)
    requires HubLinks.LinksOk(s.slot, s.links) && s'.slot.home == s.slot.home
    requires ExtendsByTexts(Sent(s.links, c), Sent(s'.links, c))
    requires IsOwed(s, c, h) && ResultId(event, c) == Some(h) ==> !HubWaits(s, c, h)
    ensures OwedMoves(s, event, s', c, h)
  {
    if CandidateAt(s.slot.home, c).Some? && CandidateAt(s.slot.home, c).value.WaitInitialize? { OneInitialize(s, c); }
  }

  lemma NoneOwed(s: State, event: Event, s': State, c: Gen, h: ReqId)
    requires CandidateAt(s'.slot.home, c).None? || CandidateAt(s'.slot.home, c).value.WaitRegistered?
             || CandidateAt(s'.slot.home, c).value.WaitReady?
    ensures OwedMoves(s, event, s', c, h)
  {
  }

  lemma InitializeOwed(s: State, event: Event, g: Gen, c: Gen, h: ReqId)
    requires HubLinks.LinksOk(s.slot, s.links) && CandidateAt(s.slot.home, g).Some?
    requires CandidateAt(s.slot.home, g).value.WaitRegistered? || CandidateAt(s.slot.home, g).value.WaitReady?
    ensures OwedMoves(s, event, BeginInitialize(s, g), c, h)
  {
    assert Sent(s.links, g) == [];
    assert Sent(BeginInitialize(s, g).links, g)[0] == Initialize(s.nextReq + 1);
    assert [Initialize(h)][0] == Initialize(h);
  }

  lemma LoadsOwed(s: State, event: Event, g: Gen, outstanding: map<ReqId, Wait>, c: Gen, h: ReqId)
    requires CandidateAt(s.slot.home, g).Some? && s.book.watchers.Keys != {}
    ensures OwedMoves(s, event, BeginLoads(s.(outstanding := outstanding), g), c, h)
  {
  }

  lemma EofOwed(s: State, event: Event, g: Gen, c: Gen, h: ReqId)
    requires HubLinks.LinksOk(s.slot, s.links) && (event == HomeEof(g) || event == HomeFrame(g, LeaderError))
    ensures OwedMoves(s, event, OnHomeEof(s, g), c, h)
  {
  }

  lemma LoadOwed(s: State, event: Event, g: Gen, id: ReqId, outstanding: map<ReqId, Wait>, c: Gen, h: ReqId)
    requires HubLinks.LinksOk(s.slot, s.links) && RoleOf(s.slot.home, g) == Candidate
    requires ResultId(event, g) == Some(id) && event.gen == g && id in s.outstanding && s.outstanding[id].HubLoad?
    ensures OwedMoves(s, event, AfterLoad(s.(outstanding := outstanding), g, id), c, h)
  {
    if CandidateAt(s.slot.home, g).value.WaitLoads? {
      LoadedCrossesOff(CandidateAt(s.slot.home, g).value.pending, id);
    }
  }

  lemma FinishOwed(s: State, event: Event, s': State, g: Gen, c: Gen, h: ReqId)
    requires s'.slot.home == Sole(g)
    ensures OwedMoves(s, event, s', c, h)
  {
  }

  lemma RoleCandidate(s: State, c: Gen)
    requires HubLinks.LinksOk(s.slot, s.links) && CandidateAt(s.slot.home, c).Some?
    ensures RoleOf(s.slot.home, c) == Candidate
  {
  }

  lemma ResultOwed(s: State, g: Gen, obj: Object, c: Gen, h: ReqId)
    requires HubLinks.LinksOk(s.slot, s.links) && IsResult(obj)
    ensures OwedMoves(s, HomeFrame(g, Acp(Some(obj))), OnHomeResult(s, g, obj), c, h)
  {
    hide HubLinks.LinksOk, OwedMoves, AfterLoad, BeginLoads, RoleOf, IsOwed, ExtendsByTexts;
    var event, s' := HomeFrame(g, Acp(Some(obj))), OnHomeResult(s, g, obj);
    var id := AsNat(Id(obj));
    NothingExtends(s.links);
    if CandidateAt(s.slot.home, c).Some? { RoleCandidate(s, c); }
    if id.None? || id.value !in s.outstanding {
      SameOwed(s, event, s', c, h);
    } else {
      var s1 := s.(outstanding := s.outstanding - {id.value});
      match s.outstanding[id.value]
      case Forwarded(phone, origin) =>
        ForwardedSame(s1, g, obj, phone, origin);
        SameOwed(s, event, s', c, h);
      case HubLoad =>
        if RoleOf(s.slot.home, g) == Candidate {
          LoadOwed(s, event, g, id.value, s1.outstanding, c, h);
        } else {
          SameOwed(s, event, s', c, h);
        }
      case HubInitialize =>
        if RoleOf(s.slot.home, g) != Candidate {
          SameOwed(s, event, s', c, h);
        } else {
          InitializeResultOwed(s, g, obj, c, h);
        }
    }
  }

  lemma InitializeResultOwed(s: State, g: Gen, obj: Object, c: Gen, h: ReqId)
    requires HubLinks.LinksOk(s.slot, s.links) && IsResult(obj) && RoleOf(s.slot.home, g) == Candidate
    requires AsNat(Id(obj)).Some? && AsNat(Id(obj)).value in s.outstanding
    requires s.outstanding[AsNat(Id(obj)).value].HubInitialize?
    ensures OwedMoves(s, HomeFrame(g, Acp(Some(obj))), OnHomeResult(s, g, obj), c, h)
  {
    hide HubLinks.LinksOk, OwedMoves, BeginLoads, IsOwed, ExtendsByTexts;
    var event, s' := HomeFrame(g, Acp(Some(obj))), OnHomeResult(s, g, obj);
    NothingExtends(s.links);
    if "error" in obj {
      NoneOwed(s, event, s', c, h);
    } else if !CandidateAt(s.slot.home, g).value.WaitInitialize? {
      SameOwed(s, event, s', c, h);
    } else if s.book.watchers.Keys == {} {
      FinishOwed(s, event, s', g, c, h);
    } else {
      LoadsOwed(s, event, g, s.outstanding - {AsNat(Id(obj)).value}, c, h);
    }
  }

  lemma RegisteredOwed(s: State, event: Event, g: Gen, ready: bool, version: int, now: int, c: Gen, h: ReqId)
    requires HubLinks.LinksOk(s.slot, s.links) && event == HomeFrame(g, Registered(ready, version))
    requires RoleOf(s.slot.home, g) == Candidate
    ensures OwedMoves(s, event, OnRegistered(s, g, ready, version, now), c, h)
  {
    hide HubLinks.LinksOk, OwedMoves, BeginInitialize, IsOwed, ExtendsByTexts;
    var s' := OnRegistered(s, g, ready, version, now);
    NothingExtends(s.links);
    if version != LEADER_PROTOCOL_VERSION {
      NoneOwed(s, event, s', c, h);
    } else if !CandidateAt(s.slot.home, g).value.WaitRegistered? {
      SameOwed(s, event, s', c, h);
    } else if ready {
      var s1 := s.(slot := s.slot.(refusedVersion := None));
      RefusalLinks(s);
      InitializeOwed(s1, event, g, c, h);
      RefusalOwed(s, s1, event, s', c, h);
    } else {
      NoneOwed(s, event, s', c, h);
    }
  }

  lemma RefusalLinks(s: State)
    requires HubLinks.LinksOk(s.slot, s.links)
    ensures HubLinks.LinksOk(s.slot.(refusedVersion := None), s.links)
  {
  }

  lemma RefusalOwed(s: State, s1: State, event: Event, s': State, c: Gen, h: ReqId)
    requires s1 == s.(slot := s1.slot) && s1.slot.home == s.slot.home && OwedMoves(s1, event, s', c, h)
    ensures OwedMoves(s, event, s', c, h)
  {
  }

  lemma ReadyOwed(s: State, event: Event, g: Gen, c: Gen, h: ReqId)
    requires HubLinks.LinksOk(s.slot, s.links) && event == HomeFrame(g, LeaderReady)
    ensures OwedMoves(s, event, OnLeaderReady(s, g), c, h)
  {
    hide HubLinks.LinksOk, OwedMoves, BeginInitialize, IsOwed, ExtendsByTexts;
    NothingExtends(s.links);
    if CandidateAt(s.slot.home, g).Some? && CandidateAt(s.slot.home, g).value.WaitReady? {
      InitializeOwed(s, event, g, c, h);
    } else {
      SameOwed(s, event, s, c, h);
    }
  }

  lemma HomeFrameOwed(s: State, g: Gen, frame: LeaderFrame, order: seq<PhoneId>, now: int, c: Gen, h: ReqId)
    requires HubLinks.LinksOk(s.slot, s.links)
    ensures OwedMoves(s, HomeFrame(g, frame), OnHomeFrame(s, g, frame, order, now), c, h)
  {
    hide HubLinks.LinksOk, OwedMoves, OnRegistered, OnLeaderReady, OnReverseRequest, OnHomeResult, OnHomeEof, RoleOf, IsOwed,
      ExtendsByTexts, HubWaits;
    var event, s' := HomeFrame(g, frame), OnHomeFrame(s, g, frame, order, now);
    NothingExtends(s.links);
    if RoleOf(s.slot.home, g) == Unknown {
      if CandidateAt(s.slot.home, c).Some? { RoleCandidate(s, c); }
      StrangerOwed(s, event, c, h);
    } else {
      match frame
      case Registered(ready, version) =>
        if RoleOf(s.slot.home, g) == Candidate {
          RegisteredOwed(s, event, g, ready, version, now, c, h);
        } else {
          SameOwed(s, event, s', c, h);
        }
      case LeaderReady =>
        ReadyOwed(s, event, g, c, h);
        if RoleOf(s.slot.home, g) != Candidate { SameOwed(s, event, s', c, h); }
      case LeaderError => EofOwed(s, event, g, c, h);
      case Acp(payload) =>
        if payload.Some? && IsResult(payload.value) {
          ResultOwed(s, g, payload.value, c, h);
        } else {
          if payload.Some? && IsRequest(payload.value) { HubLinks.ReverseSame(s, payload.value, order); }
          SameOwed(s, event, s', c, h);
        }
      case Pong => SameOwed(s, event, s', c, h);
      case OtherFrame => SameOwed(s, event, s', c, h);
    }
  }

  lemma StrangerOwed(s: State, event: Event, c: Gen, h: ReqId)
    requires HubLinks.LinksOk(s.slot, s.links)
    requires event.HomeFrame? && RoleOf(s.slot.home, event.gen) == Unknown
    ensures OwedMoves(s, event, s, c, h)
  {
    NothingExtends(s.links);
    SameOwed(s, event, s, c, h);
  }

  lemma StepOwed(s: State, l: Label, c: Gen, h: ReqId)
    requires HubLinks.LinksOk(s.slot, s.links) && Legal(s, l)
    ensures OwedMoves(s, l.event, Step(s, l), c, h)
  {
    hide HubLinks.LinksOk, OwedMoves, OnHomeFrame, OnPhoneText, OnHomeEof, DropPhone, IsOwed, ExtendsByTexts, HubWaits;
    var s' := Step(s, l);
    NothingExtends(s.links);
    match l.event
    case Accepted => NoneOwed(s, l.event, s', c, h);
    case HomeFrame(g, frame) => HomeFrameOwed(s, g, frame, l.choice.order, l.now, c, h);
    case HomeEof(g) => EofOwed(s, l.event, g, c, h);
    case PhoneText(phone, text) =>
      PhoneTextSame(s, phone, text, l.choice.heirs);
      PhoneTextExtends(s, phone, text, l.choice.heirs);
      SameOwed(s, l.event, s', c, h);
    case PhoneEof(phone) => SameOwed(s, l.event, s', c, h);
    case PhoneHello => SameOwed(s, l.event, s', c, h);
    case DeadlinePassed => NoneOwed(s, l.event, s', c, h);
  }

  // ----- Over any run

  /** While the candidate owed an answer under `h`, another link sent a result under `h` and used the
      wait up. */
  ghost predicate LostElsewhere(r: Run, i: nat, c: Gen, h: ReqId)
    requires i < |r.states| == |r.labels| + 1
  {
    exists k :: 0 <= k < i && HubDelivery.ConsumedAt(r, k, h) && r.labels[k].event.gen != c && IsOwed(r.states[k], c, h)
  }

  lemma OwedCases(s: State, event: Event, s': State, c: Gen, h: ReqId)
    requires IsOwed(s', c, h) && OwedMoves(s, event, s', c, h)
    ensures (IsOwed(s, c, h) && CandidateAt(s.slot.home, c).Some?
             && CandidateAt(s'.slot.home, c).Some?
             && CandidateAt(s'.slot.home, c).value.WaitInitialize? == CandidateAt(s.slot.home, c).value.WaitInitialize?
             && (ResultId(event, c) == Some(h) ==> !HubWaits(s, c, h)))
            || HubWaits(s', c, h)
  {
  }

  lemma NothingOwedAtFirst(c: Gen, h: ReqId)
    ensures !IsOwed(INITIAL, c, h)
  {
  }

  lemma LostStays(r: Run, i: nat, c: Gen, h: ReqId)
    requires i + 1 < |r.states| == |r.labels| + 1 && LostElsewhere(r, i, c, h)
    ensures LostElsewhere(r, i + 1, c, h)
  {
    hide IsOwed, HubDelivery.ConsumedAt;
  }

  /** In every run, what a candidate owes is waited for, unless another link has used up the wait. */
  lemma {:induction false} OwedIsWaitedOrLost(r: Run, i: nat, c: Gen, h: ReqId)
    requires IsRun(r) && i < |r.states| && IsOwed(r.states[i], c, h)
    ensures HubWaits(r.states[i], c, h) || LostElsewhere(r, i, c, h)
  {
    hide Step, Legal, Good, HubLinks.LinksOk, HubIds.IdsOk, Ledger, OwedMoves, IsOwed, LostElsewhere;
    if i == 0 {
      NothingOwedAtFirst(c, h);
    } else {
      var s, s', event := r.states[i - 1], r.states[i], r.labels[i - 1].event;
      HubDelivery.StepOf(r, i - 1);
      GoodSlot(s);
      StepOwed(s, r.labels[i - 1], c, h);
      OwedCases(s, event, s', c, h);
      if !HubWaits(s', c, h) {
        OwedIsWaitedOrLost(r, i - 1, c, h);
        if LostElsewhere(r, i - 1, c, h) {
          LostStays(r, i - 1, c, h);
        } else {
          HubDelivery.WaitStaysOrIsConsumed(r, i - 1, h);
          LostNow(r, i - 1, c, h);
        }
      }
    }
  }

  lemma LostNow(r: Run, i: nat, c: Gen, h: ReqId)
    requires i < |r.labels| && |r.states| == |r.labels| + 1
    requires HubDelivery.ConsumedAt(r, i, h) && IsOwed(r.states[i], c, h) && ResultId(r.labels[i].event, c) != Some(h)
    ensures LostElsewhere(r, i + 1, c, h)
  {
    hide IsOwed;
  }

  lemma ConsumedOnce(r: Run, k: nat, m: nat, h: ReqId)
    requires IsRun(r) && k < m < |r.states| && k < |r.labels| && HubDelivery.ConsumedAt(r, k, h)
    ensures h !in r.states[m].outstanding
  {
    hide IsRun, ResultHere;
    HubDelivery.UsedNumber(r, k, h);
    HubDelivery.SpentStays(r, k + 1, m, h);
  }

  /** The result that used up the wait under `h` came on this link. */
  ghost predicate AnsweredOn(r: Run, i: nat, c: Gen, h: ReqId)
    requires i < |r.states| == |r.labels| + 1
  {
    exists k :: 0 <= k < i && HubDelivery.ConsumedAt(r, k, h) && r.labels[k].event.gen == c
  }

  lemma OwedIsNotAnswered(r: Run, i: nat, c: Gen, h: ReqId)
    requires IsRun(r) && i < |r.states| && IsOwed(r.states[i], c, h)
    ensures !AnsweredOn(r, i, c, h)
  {
    hide IsOwed, Step, Legal;
    OwedIsWaitedOrLost(r, i, c, h);
    if AnsweredOn(r, i, c, h) {
      var k :| 0 <= k < i && HubDelivery.ConsumedAt(r, k, h) && r.labels[k].event.gen == c;
      ConsumedOnce(r, k, i, h);
      var m :| 0 <= m < i && HubDelivery.ConsumedAt(r, m, h) && r.labels[m].event.gen != c;
      WasWaiting(r, k, h);
      WasWaiting(r, m, h);
      if k < m {
        ConsumedOnce(r, k, m, h);
      } else {
        ConsumedOnce(r, m, k, h);
      }
    }
  }

  lemma WasWaiting(r: Run, k: nat, h: ReqId)
    requires k < |r.labels| && |r.states| == |r.labels| + 1 && HubDelivery.ConsumedAt(r, k, h)
    ensures h in r.states[k].outstanding
  {
  }

  /** What a candidate that has been asked anything still owes. */
  lemma SomethingOwed(s: State, c: Gen) returns (h: ReqId, k: nat)
    requires HubLinks.LinksOk(s.slot, s.links) && CandidateAt(s.slot.home, c).Some? && Sent(s.links, c) != []
    ensures IsOwed(s, c, h) && k < |Sent(s.links, c)|
    ensures var m := Sent(s.links, c)[k];
            (m.Initialize? || m.Load?) && m.id == h && (CandidateAt(s.slot.home, c).value.WaitLoads? ==> m.Load?)
  {
    hide HubLinks.Conserved, HubLinks.Grammar;
    var out, incoming := Sent(s.links, c), CandidateAt(s.slot.home, c).value;
    if incoming.WaitInitialize? {
      OneInitialize(s, c);
      assert out == [Initialize(out[0].id)];
      h, k := out[0].id, 0;
    } else {
      var session :| session in incoming.pending.remaining;
      assert session in SessionsOf(incoming.pending.loadIds);
      h :| h in incoming.pending.loadIds;
      assert Load(h, incoming.pending.loadIds[h]) in out;
      k :| 0 <= k < |out| && out[k] == Load(h, incoming.pending.loadIds[h]);
    }
  }

  /** Every request of the hub on the link was answered by a result that came on the link. */
  ghost predicate OwnAnswered(r: Run, i: nat, c: Gen)
    requires i < |r.states| == |r.labels| + 1
  {
    var out := Sent(r.states[i].links, c);
    forall k :: 0 <= k < |out| && (out[k].Initialize? || out[k].Load?) ==> AnsweredOn(r, i, c, out[k].id)
  }

  /** Promotion, in every run: a link still held that was asked to initialize is the served link as soon
      as the answer to each request the hub put on it has come on it, whatever any link sends besides. */
  lemma AnsweringOwnIsServed(r: Run, i: nat, c: Gen)
    requires IsRun(r) && i < |r.states| && Live(r.states[i].slot.home, c) && Sent(r.states[i].links, c) != []
    requires OwnAnswered(r, i, c)
    ensures MuxGen(r.states[i].slot.home) == Some(c)
  {
    hide Good, AnsweredOn, HubLinks.LinksOk, IsOwed;
    Reachable(r, i);
    GoodSlot(r.states[i]);
    if MuxGen(r.states[i].slot.home) != Some(c) {
      var h, k := SomethingOwed(r.states[i], c);
      OwedIsNotAnswered(r, i, c, h);
    }
  }

  // ----- Exactly when a link past initialize is served

  /** A load that is open no longer, while its link goes on, has just been answered on that link. */
  lemma LoadLeavesByAnswer(r: Run, i: nat, c: Gen, h: ReqId)
    requires IsRun(r) && i < |r.labels| && PastInitialize(r.states[i + 1].slot.home, c)
    requires h in OpenLoads(r.states[i].slot.home, c) && h !in OpenLoads(r.states[i + 1].slot.home, c)
    ensures HubDelivery.ConsumedAt(r, i, h) && r.labels[i].event.gen == c
  {
    hide Step, Legal, Good, HubLinks.LinksOk, HubIds.IdsOk, Ledger, Progresses, ResultFrom;
    var s, s', l := r.states[i], r.states[i + 1], r.labels[i];
    HubDelivery.StepOf(r, i);
    GoodSlot(s);
    StepProgresses(s, l, c);
    OpenCarries(s, l.event, s', c, h);
    if h !in s.outstanding {
      HubDelivery.UnawaitedChangesNothing(s, l, h);
    } else {
      HubDelivery.ResultConsumes(s, l, h);
    }
  }

  lemma OpenCarries(s: State, event: Event, s': State, c: Gen, h: ReqId)
    requires Progresses(s, event, s'.slot.home, s'.links, c) && PastInitialize(s'.slot.home, c)
    requires h in OpenLoads(s.slot.home, c) && h !in OpenLoads(s'.slot.home, c)
    ensures ResultId(event, c) == Some(h) && event.HomeFrame? && event.gen == c && Live(s.slot.home, c)
  {
    hide ExtendsByTexts, LoadRequests, Ordered;
  }

  /** Every load put on a link past initialize is open, or was answered by a result on the link. */
  lemma {:induction false} LoadsOpenOrAnswered(r: Run, i: nat, c: Gen, k: nat)
    requires IsRun(r) && i < |r.states| && PastInitialize(r.states[i].slot.home, c)
    requires k < |Sent(r.states[i].links, c)| && Sent(r.states[i].links, c)[k].Load?
    ensures var h := Sent(r.states[i].links, c)[k].id;
            h in OpenLoads(r.states[i].slot.home, c) || AnsweredOn(r, i, c, h)
    decreases i
  {
    hide Step, Legal, Good, HubLinks.LinksOk, AnsweredOn, OpenLoads, PastInitialize;
    if i == 0 {
      NothingPast(c);
    } else {
      StepIn(r, i - 1);
      Reachable(r, i - 1);
      GoodSlot(r.states[i - 1]);
      StepProgresses(r.states[i - 1], r.labels[i - 1], c);
      var s, s', event := r.states[i - 1], r.states[i], r.labels[i - 1].event;
      var h := Sent(s'.links, c)[k].id;
      if Carries(s, event, s'.slot.home, Sent(s'.links, c), c) {
        assert Sent(s.links, c)[k] == Sent(s'.links, c)[k];
        LoadsOpenOrAnswered(r, i - 1, c, k);
        if AnsweredOn(r, i - 1, c, h) {
          AnsweredStays(r, i - 1, c, h);
        } else if h !in OpenLoads(s'.slot.home, c) {
          LoadLeavesByAnswer(r, i - 1, c, h);
          AnsweredNow(r, i - 1, c, h);
        }
      } else {
        BegunOpens(s, event, s', c, k);
      }
    }
  }

  lemma NothingPast(c: Gen)
    ensures !PastInitialize(INITIAL.slot.home, c)
  {
  }

  lemma AnsweredStays(r: Run, i: nat, c: Gen, h: ReqId)
    requires i + 1 < |r.states| == |r.labels| + 1 && AnsweredOn(r, i, c, h)
    ensures AnsweredOn(r, i + 1, c, h)
  {
  }

  lemma AnsweredNow(r: Run, i: nat, c: Gen, h: ReqId)
    requires i + 1 < |r.states| == |r.labels| + 1
    requires HubDelivery.ConsumedAt(r, i, h) && r.labels[i].event.gen == c
    ensures AnsweredOn(r, i + 1, c, h)
  {
  }

  lemma BegunOpens(s: State, event: Event, s': State, c: Gen, k: nat)
    requires HubLinks.LinksOk(s.slot, s.links) && Begins(s, event, s'.slot.home, Sent(s'.links, c), c)
    requires k < |Sent(s'.links, c)| && Sent(s'.links, c)[k].Load?
    ensures Sent(s'.links, c)[k].id in OpenLoads(s'.slot.home, c)
  {
    hide OpenLoads, HubLinks.LinksOk, LoadRequests, Ordered, ResultId;
    AnsweredWaits(s, event, c);
    OneInitialize(s, c);
    LoadsExactly(Sent(s.links, c), Ordered(s.book.watchers.Keys), s.nextReq);
  }

  /** In every run, a link past initialize is served exactly once every load put on it was answered by a
      result that came on the link itself. */
  lemma ServedIffLoadsAnswered(r: Run, i: nat, c: Gen)
    requires IsRun(r) && i < |r.states| && PastInitialize(r.states[i].slot.home, c)
    ensures MuxGen(r.states[i].slot.home) == Some(c)
            <==> forall k: nat :: k < |Sent(r.states[i].links, c)| && Sent(r.states[i].links, c)[k].Load? ==>
                   AnsweredOn(r, i, c, Sent(r.states[i].links, c)[k].id)
  {
    hide Good, AnsweredOn, HubLinks.LinksOk, IsOwed;
    Reachable(r, i);
    GoodSlot(r.states[i]);
    var s := r.states[i];
    if MuxGen(s.slot.home) == Some(c) {
      forall k: nat | k < |Sent(s.links, c)| && Sent(s.links, c)[k].Load?
        ensures AnsweredOn(r, i, c, Sent(s.links, c)[k].id)
      {
        LoadsOpenOrAnswered(r, i, c, k);
      }
    } else {
      SentSomething(s, c);
      var h, k := SomethingOwed(s, c);
      OwedIsNotAnswered(r, i, c, h);
    }
  }

  lemma SentSomething(s: State, c: Gen)
    requires HubLinks.LinksOk(s.slot, s.links) && CandidateAt(s.slot.home, c).Some?
    requires CandidateAt(s.slot.home, c).value.WaitLoads?
    ensures Sent(s.links, c) != []
  {
  }

  /** A candidate on its loads is served, or stays on them, or is no longer held. */
  lemma LoadsLeadOnward(r: Run, i: nat, c: Gen)
    requires IsRun(r) && i < |r.labels| && 1 <= c <= r.states[i].slot.nextGen
    requires CandidateAt(r.states[i].slot.home, c).Some? ==> CandidateAt(r.states[i].slot.home, c).value.WaitLoads?
    ensures PastInitialize(r.states[i + 1].slot.home, c) || !Live(r.states[i + 1].slot.home, c)
  {
    hide Step, Legal, Good, HubLinks.Grammar, HubLinks.StageMatches;
    StepIn(r, i);
    Reachable(r, i + 1);
    GoodSlot(r.states[i + 1]);
    HubHandshake.StepMovesStage(r.states[i], r.labels[i], c);
  }

  /** The link is on its loads with this one open, but its answer has been used up. */
  predicate Stuck(s: State, c: Gen, h: ReqId) {
    h in OpenLoads(s.slot.home, c) && h !in s.outstanding && h <= s.nextReq
  }

  lemma StuckIsCandidate(s: State, c: Gen, h: ReqId)
    requires Stuck(s, c, h)
    ensures MuxGen(s.slot.home) != Some(c)
    ensures CandidateAt(s.slot.home, c).Some? && CandidateAt(s.slot.home, c).value.WaitLoads?
  {
  }

  lemma {:induction false} StuckStays(r: Run, i: nat, j: nat, c: Gen, h: ReqId)
    requires IsRun(r) && i <= j < |r.states| && Stuck(r.states[i], c, h)
    ensures Stuck(r.states[j], c, h) || !Live(r.states[j].slot.home, c)
    decreases j
  {
    hide Step, Legal, Good, Live, Stuck, PastInitialize, OpenLoads;
    if i < j {
      StuckStays(r, i, j - 1, c, h);
      StuckWasAccepted(r, i, c, h);
      GenerationsGrow(r, i, j - 1);
      if Stuck(r.states[j - 1], c, h) {
        StuckStep(r, j - 1, c, h);
      } else {
        GenerationsGrow(r, j - 1, j);
        EveryLinkEndsOnce(r, j - 1, c);
        HaltedStays(r, j - 1, j, c);
        EveryLinkEndsOnce(r, j, c);
      }
    }
  }

  lemma StuckWasAccepted(r: Run, i: nat, c: Gen, h: ReqId)
    requires IsRun(r) && i < |r.states| && Stuck(r.states[i], c, h)
    ensures 1 <= c <= r.states[i].slot.nextGen
  {
    hide Step, Legal, HubLinks.Grammar, HubLinks.StageMatches;
    StuckIsCandidate(r.states[i], c, h);
    Reachable(r, i);
    GoodSlot(r.states[i]);
    hide Good;
  }

  lemma StuckStep(r: Run, i: nat, c: Gen, h: ReqId)
    requires IsRun(r) && i < |r.labels| && Stuck(r.states[i], c, h)
    ensures Stuck(r.states[i + 1], c, h) || !Live(r.states[i + 1].slot.home, c)
  {
    hide Step, Legal, Good, PastInitialize, OpenLoads, CandidateAt, MuxGen, ResultHere;
    StuckIsCandidate(r.states[i], c, h);
    StuckWasAccepted(r, i, c, h);
    LoadsLeadOnward(r, i, c);
    HubDelivery.SpentStays(r, i, i + 1, h);
    if PastInitialize(r.states[i + 1].slot.home, c) && h !in OpenLoads(r.states[i + 1].slot.home, c) {
      LoadLeavesByAnswer(r, i, c, h);
    }
  }

  /** The answer to a load, once it has come on another link, is never made good: from then on the
      candidate is not served in any later state, and no deadline ends its waiting. */
  lemma LostLoadIsNeverServed(r: Run, i: nat, j: nat, c: Gen, h: ReqId)
    requires IsRun(r) && i <= j < |r.states| && h in OpenLoads(r.states[i].slot.home, c) && LostElsewhere(r, i, c, h)
    ensures MuxGen(r.states[j].slot.home) != Some(c)
    ensures Live(r.states[j].slot.home, c) ==> h in OpenLoads(r.states[j].slot.home, c)
    ensures CandidateAt(r.states[j].slot.home, c).Some? ==>
              CurrentDeadline(r.states[j].slot.home) == None
  {
    hide Step, Legal, Good, IsOwed, ResultHere;
    var k :| 0 <= k < i && HubDelivery.ConsumedAt(r, k, h);
    HubDelivery.UsedNumber(r, k, h);
    HubDelivery.SpentStays(r, k + 1, i, h);
    StuckStays(r, i, j, c, h);
  }

  // ----- Over an honest run

  /** Links answer only ids that were put on them. */
  ghost predicate Honest(r: Run) {
    && |r.states| == |r.labels| + 1
    && forall j, g, h :: 0 <= j < |r.labels| && ResultId(r.labels[j].event, g) == Some(h) ==>
         HubIds.Carries(Sent(r.states[j].links, g), h)
  }

  /** A result with this id has arrived on link `c` before state `i`. */
  ghost predicate Heard(r: Run, i: nat, c: Gen, id: ReqId) {
    exists j :: 0 <= j < i && j < |r.labels| && ResultId(r.labels[j].event, c) == Some(id)
  }

  /** In an honest run the result taken for a successor's initialize answers its own. */
  lemma HonestAnswersOwn(r: Run, j: nat, h: ReqId, out: seq<ToHome>, c: Gen)
    requires Honest(r) && j < |r.labels| && Snapshot(r, j, h, out, c)
    ensures out[0] == Initialize(h)
  {
    hide Loads, ResultFrom, CandidateAt;
    assert ResultId(r.labels[j].event, c) == Some(h);
    assert HubIds.Carries(Sent(r.states[j].links, c), h);
    assert out[..1][0] == out[0];
  }

  /** An owed id is one the link itself carries. */
  lemma OwedIsCarried(s: State, c: Gen, h: ReqId)
    requires HubLinks.LinksOk(s.slot, s.links) && IsOwed(s, c, h)
    ensures HubIds.Carries(Sent(s.links, c), h)
  {
    var incoming := CandidateAt(s.slot.home, c).value;
    if incoming.WaitInitialize? {
      assert HubIds.RequestId(Sent(s.links, c)[0]) == Some(h);
    } else {
      var m := Load(h, incoming.pending.loadIds[h]);
      assert m in Sent(s.links, c);
      var k :| 0 <= k < |Sent(s.links, c)| && Sent(s.links, c)[k] == m;
      assert HubIds.RequestId(Sent(s.links, c)[k]) == Some(h);
    }
  }

  lemma HonestLosesNothing(r: Run, i: nat, c: Gen, h: ReqId)
    requires IsRun(r) && Honest(r) && i < |r.states|
    ensures !LostElsewhere(r, i, c, h)
  {
    hide Step, Legal, Good, HubLinks.LinksOk, HubIds.Growing, HubIds.Carries, IsOwed, Honest;
    if LostElsewhere(r, i, c, h) {
      var k :| 0 <= k < i && HubDelivery.ConsumedAt(r, k, h) && r.labels[k].event.gen != c && IsOwed(r.states[k], c, h);
      Reachable(r, k);
      GoodSlot(r.states[k]);
      OwedIsCarried(r.states[k], c, h);
      HonestCarries(r, k, r.labels[k].event.gen, h);
      OneCarrierAt(r.states[k], c, r.labels[k].event.gen, h);
    }
  }

  lemma HonestCarries(r: Run, j: nat, g: Gen, h: ReqId)
    requires Honest(r) && j < |r.labels| && ResultId(r.labels[j].event, g) == Some(h)
    ensures HubIds.Carries(Sent(r.states[j].links, g), h)
  {
  }

  lemma OneCarrierAt(s: State, g: Gen, g': Gen, h: ReqId)
    requires Good(s) && HubIds.Carries(Sent(s.links, g), h) && HubIds.Carries(Sent(s.links, g'), h)
    ensures g == g' && h <= s.nextReq
  {
    hide HubLinks.LinksOk, HubIds.Carries;
    assert HubIds.Growing(Sent(s.links, g), s.nextReq);
    HubIds.CarriedBelow(Sent(s.links, g), s.nextReq, h);
  }

  /** A link that is held now and carried something earlier was held then. */
  lemma WasLive(r: Run, j: nat, i: nat, c: Gen, h: ReqId)
    requires IsRun(r) && j <= i < |r.states| && Live(r.states[i].slot.home, c)
    requires HubIds.Carries(Sent(r.states[j].links, c), h)
    ensures Live(r.states[j].slot.home, c)
  {
    hide IsRun, Live, Good;
    Reachable(r, j);
    CarrierWasAccepted(r.states[j], c, h);
    GenerationsGrow(r, j, i);
    EveryLinkEndsOnce(r, j, c);
    EveryLinkEndsOnce(r, i, c);
    if c in r.states[j].slot.halts {
      HaltedStays(r, j, i, c);
    }
  }

  lemma CarrierWasAccepted(s: State, c: Gen, h: ReqId)
    requires Good(s) && HubIds.Carries(Sent(s.links, c), h)
    ensures 1 <= c <= s.slot.nextGen
  {
    hide HubLinks.Conserved, HubLinks.Grammar, HubLinks.StageMatches;
  }

  /** In an honest run, what a candidate owes is waited for and has not been heard. */
  lemma OwedIsUnheard(r: Run, i: nat, c: Gen, h: ReqId)
    requires IsRun(r) && Honest(r) && i < |r.states| && IsOwed(r.states[i], c, h)
    ensures HubWaits(r.states[i], c, h) && !Heard(r, i, c, h)
  {
    hide Good, IsOwed, Honest, HubIds.IdsOk, Step, Legal, Ledger, LostElsewhere, HubIds.Carries;
    OwedIsWaitedOrLost(r, i, c, h);
    HonestLosesNothing(r, i, c, h);
    if Heard(r, i, c, h) {
      var j :| 0 <= j < i && j < |r.labels| && ResultId(r.labels[j].event, c) == Some(h);
      HonestCarries(r, j, c, h);
      WasLive(r, j, i, c, h);
      Reachable(r, j);
      OneCarrierAt(r.states[j], c, c, h);
      if h !in r.states[j].outstanding {
        HubDelivery.SpentStays(r, j, i, h);
      } else {
        HubDelivery.StepOf(r, j);
        HubDelivery.ResultConsumes(r.states[j], r.labels[j], h);
        HubDelivery.UsedNumber(r, j, h);
        HubDelivery.SpentStays(r, j + 1, i, h);
      }
    }
  }

  /** Every request of the hub on the link has been answered on the link. */
  ghost predicate AllAnswered(r: Run, i: nat, c: Gen)
    requires i < |r.states|
  {
    var out := Sent(r.states[i].links, c);
    forall k :: 0 <= k < |out| && (out[k].Initialize? || out[k].Load?) ==> Heard(r, i, c, out[k].id)
  }

  /** In an honest run it is enough that a result for each of them has arrived. */
  lemma AnsweringAllIsServed(r: Run, i: nat, c: Gen)
    requires IsRun(r) && Honest(r) && i < |r.states| && Live(r.states[i].slot.home, c)
    requires Sent(r.states[i].links, c) != [] && AllAnswered(r, i, c)
    ensures MuxGen(r.states[i].slot.home) == Some(c)
  {
    hide Good, Honest, Heard, HubLinks.LinksOk, IsOwed;
    Reachable(r, i);
    GoodSlot(r.states[i]);
    if MuxGen(r.states[i].slot.home) != Some(c) {
      var h, k := SomethingOwed(r.states[i], c);
      OwedIsUnheard(r, i, c, h);
    }
  }
}

/** The handshake of a candidate only moves forward, and its timed stages end within a fixed time
    of the accept. */
module HubHandshake {
  import opened Json
  import opened SessionOrder
  import opened PendingLoads
  import opened HubState
  import opened HubSteps
  import opened HubRuns
  import opened HubReplacement
  import HubLinks
  import HubLinkEffects

  function Stage(incoming: Incoming): int {
    match incoming
    case WaitRegistered(_, _) => 0
    case WaitReady(_, _) => 1
    case WaitInitialize(_) => 2
    case WaitLoads(_, _) => 3
    case Ready(_) => 4
  }

  /** A candidate after a step was just accepted, or was the candidate before and has not gone back;
      only entering the second stage sets a new deadline. */
  ghost predicate StageMoves(s: State, l: Label, home': Home, c: Gen) {
    CandidateAt(home', c).Some? ==>
      var after := CandidateAt(home', c).value;
      || (l.event == Accepted && c == s.slot.nextGen + 1 && after == WaitRegistered(c, l.now + REGISTER_WAIT))
      || (CandidateAt(s.slot.home, c).Some?
          && var before := CandidateAt(s.slot.home, c).value;
             && Stage(before) <= Stage(after)
             && (IncomingDeadline(after).Some? ==>
                   before == after || (before.WaitRegistered? && after == WaitReady(c, l.now + READY_WAIT))))
  }

  lemma StaysMoves(s: State, l: Label, home': Home, c: Gen)
    requires home' == s.slot.home || CandidateAt(home', c).None?
    ensures StageMoves(s, l, home', c)
  {
  }

  lemma DropMoves(s: State, l: Label, g: Gen, c: Gen)
    ensures StageMoves(s, l, DropIncoming(s.slot).home, c)
    ensures StageMoves(s, l, OnHomeEof(s, g).slot.home, c)
  {
  }

  lemma RegisteredMoves(s: State, l: Label, g: Gen, ready: bool, version: int, c: Gen)
    ensures StageMoves(s, l, OnRegistered(s, g, ready, version, l.now).slot.home, c)
    ensures StageMoves(s, l, OnLeaderReady(s, g).slot.home, c)
  {
  }

  lemma AfterMoves(s: State, l: Label, g: Gen, id: ReqId, c: Gen)
    ensures StageMoves(s, l, AfterInitialize(s, g).slot.home, c)
    ensures StageMoves(s, l, AfterLoad(s, g, id).slot.home, c)
    ensures StageMoves(s, l, FailIncoming(s.slot, g).home, c)
  {
    hide Loaded, Start, Ordered;
  }

  lemma OutstandingIrrelevant(s: State, outstanding: map<ReqId, Wait>, l: Label, home': Home, c: Gen)
    requires StageMoves(s.(outstanding := outstanding), l, home', c)
    ensures StageMoves(s, l, home', c)
  {
  }

  lemma ResultMovesStage(s: State, l: Label, g: Gen, obj: Object, c: Gen)
    ensures StageMoves(s, l, OnHomeResult(s, g, obj).slot.home, c)
  {
    hide StageMoves, AfterInitialize, AfterLoad, FailIncoming, RoleOf;
    StaysMoves(s, l, s.slot.home, c);
    var id := AsNat(Id(obj));
    if id.Some? && id.value in s.outstanding {
      var s1 := s.(outstanding := s.outstanding - {id.value});
      AfterMoves(s1, l, g, id.value, c);
      OutstandingIrrelevant(s, s1.outstanding, l, OnHomeResult(s, g, obj).slot.home, c) by {
        if s.outstanding[id.value].Forwarded? {
          ForwardedSame(s1, g, obj, s.outstanding[id.value].phone, s.outstanding[id.value].origin);
        }
        StaysMoves(s1, l, s1.slot.home, c);
      }
    }
  }

  lemma StepMovesStage(s: State, l: Label, c: Gen)
    requires Legal(s, l)
    ensures StageMoves(s, l, Step(s, l).slot.home, c)
  {
    hide StageMoves, OnHomeFrame, OnPhoneText, OnHomeEof, DropPhone, DropIncoming, AcceptSlot;
    StaysMoves(s, l, s.slot.home, c);
    match l.event
    case Accepted => AcceptMoves(s, l, c);
    case HomeFrame(g, frame) => FrameMovesStage(s, l, g, frame, c);
    case HomeEof(g) => DropMoves(s, l, g, c);
    case PhoneText(phone, text) => PhoneTextSame(s, phone, text, l.choice.heirs);
    case PhoneEof(phone) =>
    case PhoneHello =>
    case DeadlinePassed => DropMoves(s, l, 0, c);
  }

  lemma AcceptMoves(s: State, l: Label, c: Gen)
    requires l.event == Accepted
    ensures StageMoves(s, l, AcceptSlot(s.slot, l.now).home, c)
  {
  }

  lemma FrameMovesStage(s: State, l: Label, g: Gen, frame: LeaderFrame, c: Gen)
    ensures StageMoves(s, l, OnHomeFrame(s, g, frame, l.choice.order, l.now).slot.home, c)
  {
    hide StageMoves, OnRegistered, OnLeaderReady, OnHomeEof, OnReverseRequest, OnHomeResult, RoleOf;
    StaysMoves(s, l, s.slot.home, c);
    match frame
    case Registered(ready, version) => RegisteredMoves(s, l, g, ready, version, c);
    case LeaderReady => RegisteredMoves(s, l, g, true, 1, c);
    case LeaderError => DropMoves(s, l, g, c);
    case Acp(payload) =>
      if payload.Some? {
        if IsRequest(payload.value) {
          HubLinks.ReverseSame(s, payload.value, l.choice.order);
        } else if IsResult(payload.value) {
          ResultMovesStage(s, l, g, payload.value, c);
        }
      }
    case Pong =>
    case OtherFrame =>
  }

  // ----- Timed runs

  /** Time does not run backwards, and nothing else happens once a deadline has been reached: the
      latest moment of a step out of a state with a deadline is that deadline. */
  ghost predicate IsTimed(r: Run) {
    && |r.states| == |r.labels| + 1
    && (forall i, j :: 0 <= i <= j < |r.labels| ==> r.labels[i].now <= r.labels[j].now)
    && (forall i :: 0 <= i < |r.labels| && CurrentDeadline(r.states[i].slot.home).Some? ==>
          r.labels[i].now <= CurrentDeadline(r.states[i].slot.home).value)
  }

  ghost predicate AcceptedAt(r: Run, j: nat, c: Gen)
    requires j < |r.labels| && |r.states| == |r.labels| + 1
  {
    r.labels[j].event == Accepted && r.states[j].slot.nextGen + 1 == c
  }

  /** The deadline a stage may carry, counted from the accept. */
  predicate Bounded(incoming: Incoming, accepted: int) {
    && (incoming.WaitRegistered? ==> incoming.deadline == accepted + REGISTER_WAIT)
    && (incoming.WaitReady? ==> incoming.deadline <= accepted + REGISTER_WAIT + READY_WAIT)
  }

  lemma {:induction false} DeadlinesCountFromAccept(r: Run, j: nat, i: nat, c: Gen)
    requires IsRun(r) && IsTimed(r) && j < i < |r.states| && AcceptedAt(r, j, c)
    ensures c <= r.states[i].slot.nextGen
    ensures CandidateAt(r.states[i].slot.home, c).Some? ==>
              Bounded(CandidateAt(r.states[i].slot.home, c).value, r.labels[j].now)
    decreases i
  {
    hide Step, Legal, Good;
    assert StepAt(r, i - 1);
    StepMovesStage(r.states[i - 1], r.labels[i - 1], c);
    StepOrder(r.states[i - 1], r.labels[i - 1]);
    if i == j + 1 {
      AcceptedIsCandidate(r.states[j], r.labels[j]);
    } else {
      DeadlinesCountFromAccept(r, j, i - 1, c);
      var home := r.states[i - 1].slot.home;
      if CandidateAt(home, c).Some? && CandidateAt(home, c).value.WaitRegistered? {
        assert CurrentDeadline(home) == Some(CandidateAt(home, c).value.deadline);
      }
    }
  }

  lemma AcceptedIsCandidate(s: State, l: Label)
    requires Legal(s, l) && l.event == Accepted
    ensures CandidateAt(Step(s, l).slot.home, s.slot.nextGen + 1)
            == Some(WaitRegistered(s.slot.nextGen + 1, l.now + REGISTER_WAIT))
    ensures Step(s, l).slot.nextGen == s.slot.nextGen + 1
  {
  }

  /** The bound: whatever frames a leader sends, and however often it registers, 130 seconds after
      its accept no candidate is still in a stage before initialize. */
  lemma EarlyStagesEnd(r: Run, j: nat, i: nat, c: Gen)
    requires IsRun(r) && IsTimed(r) && j < i < |r.labels| && AcceptedAt(r, j, c)
    requires r.labels[i].now > r.labels[j].now + 130_000
    ensures CandidateAt(r.states[i].slot.home, c).Some? ==> Stage(CandidateAt(r.states[i].slot.home, c).value) in {2, 3}
  {
    hide IsRun, Good;
    DeadlinesCountFromAccept(r, j, i, c);
    Reachable(r, i);
    GoodSlot(r.states[i]);
  }

  /** A link's stages only move forward for as long as it is the candidate. */
  lemma {:induction false} StagesMoveForward(r: Run, i: nat, j: nat, c: Gen)
    requires IsRun(r) && i <= j < |r.states| && c <= r.states[i].slot.nextGen
    requires CandidateAt(r.states[j].slot.home, c).Some?
    ensures CandidateAt(r.states[i].slot.home, c).Some?
    ensures Stage(CandidateAt(r.states[i].slot.home, c).value) <= Stage(CandidateAt(r.states[j].slot.home, c).value)
    decreases j
  {
    hide Step, Legal, Good;
    if i < j {
      assert StepAt(r, j - 1);
      GenerationsGrow(r, i, j - 1);
      StepMovesStage(r.states[j - 1], r.labels[j - 1], c);
      StagesMoveForward(r, i, j - 1, c);
    }
  }

  /** The deadline a timed run ends with has not been passed by any of its steps. */
  lemma DeadlineAhead(r: Run)
    requires IsRun(r) && IsTimed(r) && |r.labels| > 0 && CurrentDeadline(r.states[|r.labels|].slot.home).Some?
    ensures r.labels[|r.labels| - 1].now <= CurrentDeadline(r.states[|r.labels|].slot.home).value
  {
    hide Step, Legal;
    var n := |r.labels| - 1;
    assert StepAt(r, n);
    StepMovesStage(r.states[n], r.labels[n], CandidateOf(r.states[n + 1].slot.home).value.link);
  }

  /** Time can go on past any deadline: a timed run that ends with one goes on with the wake-up at that
      moment, and then the candidate is halted, the served link stays and no deadline stands. */
  lemma TimeGoesOn(r: Run)
    requires IsRun(r) && IsTimed(r) && CurrentDeadline(r.states[|r.labels|].slot.home).Some?
    ensures var s := r.states[|r.labels|];
            exists l: Label, s' ::
              && l.event == DeadlinePassed && l.now == CurrentDeadline(s.slot.home).value
              && var r' := Run(r.states + [s'], r.labels + [l]);
                 && IsRun(r') && IsTimed(r') && CurrentDeadline(s'.slot.home) == None
                 && s'.slot.halts == s.slot.halts + [CandidateOf(s.slot.home).value.link]
                 && MuxGen(s'.slot.home) == MuxGen(s.slot.home)
  {
    hide IsRun, Step, Legal, CurrentDeadline, IncomingDeadline;
    var s := r.states[|r.labels|];
    var l := Label(DeadlinePassed, Choice(map[], []), CurrentDeadline(s.slot.home).value);
    assert Legal(s, l) by { WakesUp(s, l); }
    var s' := Step(s, l);
    HubLinkEffects.DeadlineEffect(s, l);
    NoDeadline(s'.slot.home);
    RunExtends(r, l, s');
    if |r.labels| > 0 { DeadlineAhead(r); }
    var r' := Run(r.states + [s'], r.labels + [l]);
    assert IsTimed(r');
  }

  lemma WakesUp(s: State, l: Label)
    requires l.event == DeadlinePassed && CurrentDeadline(s.slot.home) == Some(l.now)
    ensures Legal(s, l)
  {
  }

  lemma NoDeadline(home: Home)
    requires CandidateOf(home).None?
    ensures CurrentDeadline(home).None?
  {
  }

  /** The bound is met: a timed run that ends with a link still in a stage before initialize goes on, no later than
      130 seconds after that link's accept, with the wake-up that halts it. */
  lemma EarlyStageEndsInTime(r: Run, j: nat, c: Gen)
    requires IsRun(r) && IsTimed(r) && j < |r.labels| && AcceptedAt(r, j, c)
    requires var incoming := CandidateAt(r.states[|r.labels|].slot.home, c);
             incoming.Some? && (incoming.value.WaitRegistered? || incoming.value.WaitReady?)
    ensures exists l: Label, s' ::
              && l.event == DeadlinePassed && l.now <= r.labels[j].now + 130_000
              && var r' := Run(r.states + [s'], r.labels + [l]);
                 IsRun(r') && IsTimed(r') && c in s'.slot.halts && CandidateAt(s'.slot.home, c) == None
  {
    hide IsRun, Step, Legal, Good;
    var s := r.states[|r.labels|];
    DeadlinesCountFromAccept(r, j, |r.labels|, c);
    TimeGoesOn(r);
    var l: Label, s': State :|
      && l.event == DeadlinePassed && l.now == CurrentDeadline(s.slot.home).value
      && var r' := Run(r.states + [s'], r.labels + [l]);
         && IsRun(r') && IsTimed(r') && CurrentDeadline(s'.slot.home) == None
         && s'.slot.halts == s.slot.halts + [CandidateOf(s.slot.home).value.link]
         && MuxGen(s'.slot.home) == MuxGen(s.slot.home);
    var r' := Run(r.states + [s'], r.labels + [l]);
    assert s'.slot.halts[|s.slot.halts|] == c;
    Reachable(r', |r.labels| + 1);
    HubLinkEffects.HaltedIsNotHeld(s', c);
  }
}

/** Replacing the home link: when a served link may be given up, and what its successor has done
    by then. */
module HubReplacement {
  import opened Json
  import opened SessionOrder
  import opened PendingLoads
  import opened HubState
  import opened HubSteps
  import opened HubRuns
  import HubLinks

  /** The result a frame brings from link `g`, if it brings one. */
  function ResultFrom(event: Event, g: Gen): Option<Object> {
    if event.HomeFrame? && event.gen == g && event.frame.Acp? && event.frame.payload.Some?
       && IsResult(event.frame.payload.value)
    then event.frame.payload else None
  }

  function ResultId(event: Event, g: Gen): Option<int> {
    if ResultFrom(event, g).Some? then AsNat(Id(ResultFrom(event, g).value)) else None
  }

  /** A bare result with this id. */
  function Result(n: int): Object {
    map["id" := Int(n), "result" := Null]
  }

  lemma ResultIs(n: nat)
    ensures IsResult(Result(n)) && !IsRequest(Result(n)) && !IsNotification(Result(n)) && IsReply(Result(n))
    ensures Id(Result(n)) == Some(Int(n)) && AsNat(Id(Result(n))) == Some(n)
    ensures "error" !in Result(n) && SessionIn(Result(n)) == None
  {
  }

  /** The served link's own end: its connection is gone, or its leader reports an error. */
  predicate OwnEnd(event: Event, g: Gen) {
    event == HomeEof(g) || event == HomeFrame(g, LeaderError)
  }

  /** A candidate waiting for initialize sends a result without an error under `h`, an id under which
      the hub waits for the initialize of some link: this one, or one it has held before. */
  predicate InitializeAnswered(s: State, event: Event, c: Gen, h: ReqId) {
    && CandidateAt(s.slot.home, c).Some? && CandidateAt(s.slot.home, c).value.WaitInitialize?
    && ResultId(event, c) == Some(h) && h in s.outstanding && s.outstanding[h].HubInitialize?
    && "error" !in ResultFrom(event, c).value
  }

  /** Such a result is what takes a candidate past initialize. */
  predicate PassesInitialize(s: State, event: Event, c: Gen) {
    ResultId(event, c).Some? && InitializeAnswered(s, event, c, ResultId(event, c).value)
  }

  /** The answer to the only load still open arrives on the candidate's own link. */
  ghost predicate LastLoadAnswered(s: State, event: Event, c: Gen) {
    && CandidateAt(s.slot.home, c).Some? && CandidateAt(s.slot.home, c).value.WaitLoads?
    && ResultId(event, c).Some?
    && var loadIds := CandidateAt(s.slot.home, c).value.pending.loadIds;
       ResultId(event, c).value in loadIds && forall id :: id in loadIds ==> id == ResultId(event, c).value
  }

  ghost predicate Completes(s: State, event: Event, c: Gen) {
    (PassesInitialize(s, event, c) && s.book.watchers.Keys == {}) || LastLoadAnswered(s, event, c)
  }

  /** The three things a step can do to who is served. */
  ghost predicate ServiceMoves(s: State, event: Event, home': Home) {
    || MuxGen(home') == MuxGen(s.slot.home)
    || (MuxGen(home').None? && MuxGen(s.slot.home).Some? && OwnEnd(event, MuxGen(s.slot.home).value))
    || (MuxGen(home').Some? && Completes(s, event, MuxGen(home').value))
  }

  lemma AfterLoadMoves(s: State, g: Gen, id: ReqId)
    requires HubLinks.LinksOk(s.slot, s.links)
    ensures var home' := AfterLoad(s, g, id).slot.home;
            MuxGen(home') == MuxGen(s.slot.home)
            || (MuxGen(home') == Some(g) && CandidateAt(s.slot.home, g).Some? && CandidateAt(s.slot.home, g).value.WaitLoads?
                && id in CandidateAt(s.slot.home, g).value.pending.loadIds
                && forall i :: i in CandidateAt(s.slot.home, g).value.pending.loadIds ==> i == id)
  {
    if CandidateAt(s.slot.home, g).Some? && CandidateAt(s.slot.home, g).value.WaitLoads? {
      LoadedCrossesOff(CandidateAt(s.slot.home, g).value.pending, id);
    }
  }

  lemma AfterInitializeMoves(s: State, g: Gen)
    ensures var home' := AfterInitialize(s, g).slot.home;
            MuxGen(home') == MuxGen(s.slot.home)
            || (MuxGen(home') == Some(g) && s.book.watchers.Keys == {} && CandidateAt(s.slot.home, g).Some?
                && CandidateAt(s.slot.home, g).value.WaitInitialize?)
  {
  }

  lemma ResultMoves(s: State, g: Gen, obj: Object)
    requires HubLinks.LinksOk(s.slot, s.links) && IsResult(obj)
    ensures ServiceMoves(s, HomeFrame(g, Acp(Some(obj))), OnHomeResult(s, g, obj).slot.home)
  {
    hide HubLinks.LinksOk, AfterInitialize, AfterLoad, Say, RoleOf;
    var id := AsNat(Id(obj));
    if id.Some? && id.value in s.outstanding {
      var s1 := s.(outstanding := s.outstanding - {id.value});
      match s.outstanding[id.value]
      case Forwarded(phone, origin) => ForwardedSame(s1, g, obj, phone, origin);
      case HubInitialize => AfterInitializeMoves(s1, g);
      case HubLoad => AfterLoadMoves(s1, g, id.value);
    }
  }

  lemma ForwardedSame(s: State, g: Gen, obj: Object, phone: PhoneId, origin: Value)
    ensures OnForwardedResult(s, g, obj, phone, origin).slot == s.slot
    ensures OnForwardedResult(s, g, obj, phone, origin).links == s.links
    ensures OnForwardedResult(s, g, obj, phone, origin).outstanding == s.outstanding
  {
  }

  lemma PhoneTextSame(s: State, phone: PhoneId, text: Option<Object>, heirs: map<SessionId, PhoneId>)
    requires text.Some? && Closes(text.value).Some? ==> HeirOk(s.book, phone, Closes(text.value).value, heirs)
    ensures OnPhoneText(s, phone, text, heirs).slot == s.slot
  {
    hide HeirOk, Subscribe, NeedsInitialized, Method, Id, Closes;
  }

  lemma EofMoves(s: State, g: Gen)
    ensures var home' := OnHomeEof(s, g).slot.home;
            MuxGen(home') == MuxGen(s.slot.home) || (MuxGen(home').None? && MuxGen(s.slot.home) == Some(g))
  {
  }

  lemma HomeFrameMoves(s: State, g: Gen, frame: LeaderFrame, order: seq<PhoneId>, now: int)
    requires HubLinks.LinksOk(s.slot, s.links)
    ensures ServiceMoves(s, HomeFrame(g, frame), OnHomeFrame(s, g, frame, order, now).slot.home)
  {
    hide HubLinks.LinksOk, OnReverseRequest, OnHomeResult, OnHomeEof, Completes;
    match frame
    case Registered(ready, version) => RegisteredSame(s, g, ready, version, now);
    case LeaderReady =>
    case LeaderError => EofMoves(s, g);
    case Acp(payload) =>
      if payload.Some? {
        if IsRequest(payload.value) {
          HubLinks.ReverseSame(s, payload.value, order);
        } else if IsResult(payload.value) {
          ResultMoves(s, g, payload.value);
        }
      }
    case Pong =>
    case OtherFrame =>
  }

  lemma RegisteredSame(s: State, g: Gen, ready: bool, version: int, now: int)
    ensures MuxGen(OnRegistered(s, g, ready, version, now).slot.home) == MuxGen(s.slot.home)
  {
  }

  /** Who is served changes only by the served link's own end or by a candidate that completes: a
      newer accept, a failed candidate, a refused version and a deadline all leave it alone. */
  lemma StepMovesService(s: State, l: Label)
    requires HubLinks.LinksOk(s.slot, s.links) && Legal(s, l)
    ensures ServiceMoves(s, l.event, Step(s, l).slot.home)
  {
    hide HubLinks.LinksOk, OnHomeFrame, OnPhoneText, DropPhone, OnHomeEof, Completes;
    match l.event
    case Accepted =>
    case HomeFrame(g, frame) => HomeFrameMoves(s, g, frame, l.choice.order, l.now);
    case HomeEof(g) => EofMoves(s, g);
    case PhoneText(phone, text) => PhoneTextSame(s, phone, text, l.choice.heirs);
    case PhoneEof(phone) =>
    case PhoneHello =>
    case DeadlinePassed =>
  }

  /** A link the hub does not hold cannot move it. */
  lemma StrangerChangesNothing(s: State, l: Label, g: Gen)
    requires Legal(s, l) && !Live(s.slot.home, g)
    requires l.event == HomeEof(g) || (l.event.HomeFrame? && l.event.gen == g)
    ensures Step(s, l) == s
  {
  }

  // ----- Monotone service

  /** No link below `g` is held or can still come to be. */
  predicate AtLeast(slot: Slot, g: Gen) {
    && g <= slot.nextGen
    && (MuxGen(slot.home).Some? ==> g <= MuxGen(slot.home).value)
    && (CandidateOf(slot.home).Some? ==> g <= CandidateOf(slot.home).value.link)
  }

  ghost predicate LinkOrder(slot: Slot, slot': Slot) {
    && slot.nextGen <= slot'.nextGen
    && (forall g :: Live(slot'.home, g) ==> Live(slot.home, g) || slot.nextGen < g)
    && (forall g :: g in slot.halts ==> g in slot'.halts)
  }

  lemma SlotOrder(slot: Slot, incoming: Incoming, g: Gen, now: int)
    ensures LinkOrder(slot, AcceptSlot(slot, now))
    ensures LinkOrder(slot, DropIncoming(slot)) && LinkOrder(slot, FailIncoming(slot, g))
    ensures LinkOrder(slot, LoseMux(slot, g))
    ensures CandidateAt(slot.home, incoming.link).Some? ==> LinkOrder(slot, WithIncoming(slot, incoming))
    ensures LinkOrder(slot, slot)
  {
  }

  lemma FinishOrder(s: State, g: Gen)
    requires CandidateAt(s.slot.home, g).Some?
    ensures LinkOrder(s.slot, FinishSuccessor(s, g).slot)
  {
    hide Appended;
  }

  lemma AfterOrder(s: State, g: Gen, id: ReqId)
    ensures LinkOrder(s.slot, AfterInitialize(s, g).slot)
    ensures LinkOrder(s.slot, AfterLoad(s, g, id).slot)
  {
    hide Loaded, Numbered, Ordered, LinkOrder, FinishSuccessor, WithIncoming, LoadRequests;
    SlotOrder(s.slot, Ready(g), g, 0);
    if CandidateAt(s.slot.home, g).Some? {
      FinishOrder(s, g);
      if s.book.watchers.Keys != {} {
        SlotOrder(s.slot, WaitLoads(g, Start(s.book.watchers.Keys, s.nextReq).value), g, 0);
      }
      if CandidateAt(s.slot.home, g).value.WaitLoads? {
        var progress := Loaded(CandidateAt(s.slot.home, g).value.pending, id);
        if !progress.Done? {
          SlotOrder(s.slot, WaitLoads(g, progress.pending), g, 0);
        }
      }
    }
  }

  lemma ResultOrder(s: State, g: Gen, obj: Object)
    ensures LinkOrder(s.slot, OnHomeResult(s, g, obj).slot)
  {
    hide RoleOf, AfterInitialize, AfterLoad, FailIncoming;
    var id := AsNat(Id(obj));
    if id.Some? && id.value in s.outstanding {
      var s1 := s.(outstanding := s.outstanding - {id.value});
      AfterOrder(s1, g, id.value);
      SlotOrder(s.slot, Ready(0), g, 0);
    }
  }

  lemma HandshakeOrder(s: State, g: Gen, ready: bool, version: int, now: int)
    ensures LinkOrder(s.slot, OnRegistered(s, g, ready, version, now).slot)
    ensures LinkOrder(s.slot, OnLeaderReady(s, g).slot)
  {
    hide LinkOrder, WithIncoming, FailIncoming;
    RefusedOrder(s.slot, Some(version), g);
    RefusedOrder(s.slot, None, g);
    SlotOrder(s.slot, Ready(g), g, 0);
    if CandidateAt(s.slot.home, g).Some? {
      MovedOrder(s.slot, None, WaitInitialize(g));
      MovedOrder(s.slot, None, WaitReady(g, now + READY_WAIT));
      SlotOrder(s.slot, WaitInitialize(g), g, 0);
    }
  }

  lemma RefusedOrder(slot: Slot, refused: Option<int>, g: Gen)
    ensures LinkOrder(slot, slot.(refusedVersion := refused))
    ensures LinkOrder(slot, FailIncoming(slot.(refusedVersion := refused), g))
  {
  }

  lemma MovedOrder(slot: Slot, refused: Option<int>, incoming: Incoming)
    requires CandidateAt(slot.home, incoming.link).Some?
    ensures LinkOrder(slot, WithIncoming(slot.(refusedVersion := refused), incoming))
  {
  }

  lemma EofOrder(s: State, g: Gen)
    ensures LinkOrder(s.slot, OnHomeEof(s, g).slot)
  {
    hide LinkOrder, LoseMux, FailIncoming, Appended;
    SlotOrder(s.slot, Ready(g), g, 0);
  }

  lemma HomeFrameOrder(s: State, g: Gen, frame: LeaderFrame, order: seq<PhoneId>, now: int)
    ensures LinkOrder(s.slot, OnHomeFrame(s, g, frame, order, now).slot)
  {
    hide LinkOrder, OnRegistered, OnLeaderReady, OnHomeEof, OnReverseRequest, OnHomeResult, RoleOf, Appended;
    SlotOrder(s.slot, Ready(g), g, 0);
    match frame
    case Registered(ready, version) => HandshakeOrder(s, g, ready, version, now);
    case LeaderReady => HandshakeOrder(s, g, true, 1, now);
    case LeaderError => EofOrder(s, g);
    case Acp(payload) =>
      if payload.Some? && IsRequest(payload.value) {
        HubLinks.ReverseSame(s, payload.value, order);
      } else if payload.Some? && IsResult(payload.value) {
        ResultOrder(s, g, payload.value);
      }
    case Pong =>
    case OtherFrame =>
  }

  lemma StepOrder(s: State, l: Label)
    requires Legal(s, l)
    ensures LinkOrder(s.slot, Step(s, l).slot)
  {
    hide OnHomeFrame, OnPhoneText, DropPhone, AcceptSlot;
    match l.event
    case Accepted => SlotOrder(s.slot, Ready(0), 0, l.now);
    case HomeFrame(g, frame) => HomeFrameOrder(s, g, frame, l.choice.order, l.now);
    case HomeEof(g) =>
    case PhoneText(phone, text) => PhoneTextSame(s, phone, text, l.choice.heirs);
    case PhoneEof(phone) =>
    case PhoneHello =>
    case DeadlinePassed =>
  }

  lemma {:induction false} FloorStays(r: Run, i: nat, j: nat, g: Gen)
    requires IsRun(r) && i <= j < |r.states| && AtLeast(r.states[i].slot, g)
    ensures AtLeast(r.states[j].slot, g)
    decreases j
  {
    hide Step, Legal;
    if i < j {
      FloorStays(r, i, j - 1, g);
      assert StepAt(r, j - 1);
      StepOrder(r.states[j - 1], r.labels[j - 1]);
      var home' := r.states[j].slot.home;
      if MuxGen(home').Some? { assert Live(home', MuxGen(home').value); }
      if CandidateOf(home').Some? { assert Live(home', CandidateOf(home').value.link); }
    }
  }

  lemma {:induction false} GenerationsGrow(r: Run, i: nat, j: nat)
    requires IsRun(r) && i <= j < |r.states|
    ensures r.states[i].slot.nextGen <= r.states[j].slot.nextGen
    decreases j
  {
    hide Step, Legal;
    if i < j {
      assert StepAt(r, j - 1);
      GenerationsGrow(r, i, j - 1);
      StepOrder(r.states[j - 1], r.labels[j - 1]);
    }
  }

  /** Over a whole run the served link only ever gives way to a newer one, across any time away. */
  lemma ServiceIsMonotone(r: Run, i: nat, j: nat)
    requires IsRun(r) && i <= j < |r.states|
    requires MuxGen(r.states[i].slot.home).Some? && MuxGen(r.states[j].slot.home).Some?
    ensures MuxGen(r.states[i].slot.home).value <= MuxGen(r.states[j].slot.home).value
  {
    Reachable(r, i);
    FloorStays(r, i, j, MuxGen(r.states[i].slot.home).value);
  }

  lemma {:induction false} HaltedStays(r: Run, i: nat, j: nat, g: Gen)
    requires IsRun(r) && i <= j < |r.states| && g in r.states[i].slot.halts
    ensures g in r.states[j].slot.halts
    decreases j
  {
    hide Step, Legal;
    if i < j {
      HaltedStays(r, i, j - 1, g);
      assert StepAt(r, j - 1);
      StepOrder(r.states[j - 1], r.labels[j - 1]);
    }
  }

  /** In every reachable state each accepted link is held or has been halted, never both, and it is
      halted at most once; at shutdown the ones still held are halted too. */
  lemma EveryLinkEndsOnce(r: Run, i: nat, g: Gen)
    requires IsRun(r) && i < |r.states| && 1 <= g <= r.states[i].slot.nextGen
    ensures var s := r.states[i]; Live(s.slot.home, g) <==> g !in s.slot.halts
    ensures var s := r.states[i]; multiset(s.slot.halts)[g] <= 1
    ensures multiset(Shutdown(r.states[i]).slot.halts)[g] == 1
  {
    Reachable(r, i);
    hide Good, StepAt;
    GoodSlot(r.states[i]);
    ShutdownHaltsAll(r.states[i].slot, Shutdown(r.states[i]).slot, g);
  }

  lemma GoodSlot(s: State)
    requires Good(s)
    ensures HubLinks.LinksOk(s.slot, s.links) && HubLinks.Conserved(s.slot)
  {
  }

  lemma {:induction false} OnceEach(halts: seq<Gen>, g: Gen)
    requires forall i, j :: 0 <= i < j < |halts| ==> halts[i] != halts[j]
    ensures multiset(halts)[g] == if g in halts then 1 else 0
  {
    if |halts| > 0 {
      var front := halts[..|halts| - 1];
      assert halts == front + [halts[|halts| - 1]];
      OnceEach(front, g);
      assert g in front ==> g != halts[|halts| - 1];
    }
  }

  lemma ShutdownHaltsAll(slot: Slot, stopped: Slot, g: Gen)
    requires HubLinks.Conserved(slot) && 1 <= g <= slot.nextGen
    requires var s := INITIAL.(slot := slot); stopped == Shutdown(s).slot
    ensures Live(slot.home, g) <==> g !in slot.halts
    ensures multiset(slot.halts)[g] <= 1
    ensures multiset(stopped.halts)[g] == 1
  {
    OnceEach(slot.halts, g);
    match slot.home
    case Away =>
    case BringingUp(incoming) =>
    case Sole(live) =>
    case Dual(incumbent, incoming) =>
      assert multiset([incoming.link, incumbent]) == multiset{incoming.link, incumbent};
  }
}

/** Links: each is held or halted once, at most two are held, and what is put on each follows one
    grammar. */
module HubLinks {
  import opened Json
  import opened SessionOrder
  import opened PendingLoads
  import opened HubState
  import opened HubSteps

  predicate Unhalted(slot: Slot, g: Gen) {
    1 <= g <= slot.nextGen && g !in slot.halts
  }

  /** Every accepted link is either held or has been halted, exactly once; a replacement link is
      newer than the served one; a finished handshake is never left standing. */
  ghost predicate Conserved(slot: Slot) {
    && slot.nextGen >= 0
    && (MuxGen(slot.home).Some? ==> Unhalted(slot, MuxGen(slot.home).value))
    && (CandidateOf(slot.home).Some? ==> Unhalted(slot, CandidateOf(slot.home).value.link))
    && (forall g :: g in slot.halts ==> 1 <= g <= slot.nextGen)
    && (forall g :: 1 <= g <= slot.nextGen ==> Live(slot.home, g) || g in slot.halts)
    && (forall i, j :: 0 <= i < j < |slot.halts| ==> slot.halts[i] != slot.halts[j])
    && (slot.home.Dual? ==> slot.home.incumbent < slot.home.incoming.link)
    && (CandidateOf(slot.home).Some? ==> !CandidateOf(slot.home).value.Ready?)
  }

  lemma AppendDistinct(halts: seq<Gen>, g: Gen)
    requires forall i, j :: 0 <= i < j < |halts| ==> halts[i] != halts[j]
    requires g !in halts
    ensures var halts' := halts + [g]; forall i, j :: 0 <= i < j < |halts'| ==> halts'[i] != halts'[j]
    ensures forall x :: x in halts + [g] <==> x in halts || x == g
  {
    assert forall i :: 0 <= i < |halts| ==> halts[i] in halts;
  }

  lemma AcceptConserves(slot: Slot, now: int)
    requires Conserved(slot)
    ensures Conserved(AcceptSlot(slot, now))
  {
    var slot' := AcceptSlot(slot, now);
    if CandidateOf(slot.home).Some? {
      AppendDistinct(slot.halts, CandidateOf(slot.home).value.link);
    }
    forall g | 1 <= g <= slot'.nextGen ensures Live(slot'.home, g) || g in slot'.halts {
      if g <= slot.nextGen { assert Live(slot.home, g) || g in slot.halts; }
    }
  }

  lemma DropConserves(slot: Slot, g: Gen)
    requires Conserved(slot)
    ensures Conserved(DropIncoming(slot))
    ensures Conserved(FailIncoming(slot, g))
  {
    if CandidateOf(slot.home).Some? {
      var link := CandidateOf(slot.home).value.link;
      AppendDistinct(slot.halts, link);
    }
  }

  lemma LoseConserves(slot: Slot, g: Gen)
    requires Conserved(slot) && MuxGen(slot.home) == Some(g)
    ensures Conserved(LoseMux(slot, g))
  {
    AppendDistinct(slot.halts, g);
  }

  lemma MoveConserves(slot: Slot, incoming: Incoming)
    requires Conserved(slot) && CandidateAt(slot.home, incoming.link).Some? && !incoming.Ready?
    ensures Conserved(WithIncoming(slot, incoming))
  {
  }

  lemma RefuseConserves(slot: Slot, refused: Option<int>)
    requires Conserved(slot)
    ensures Conserved(slot.(refusedVersion := refused))
  {
  }

  // ----- The grammar of one link

  /** `initialize` first and only first, then loads with ids and sessions ascending, then texts of
      phones; any of the later parts may still be missing. */
  ghost predicate Grammar(out: seq<ToHome>) {
    && (forall k :: 0 <= k < |out| ==> (out[k].Initialize? <==> k == 0))
    && (forall j, k :: 0 <= j < k < |out| && out[j].FromPhone? ==> out[k].FromPhone?)
    && (forall j, k :: 0 <= j < k < |out| && out[j].Load? && out[k].Load? ==>
          out[j].id < out[k].id && Before(out[j].session, out[k].session))
    && (forall k :: 0 <= k < |out| && out[k].FromPhone? ==> !AsksToInitialize(out[k].obj))
  }

  predicate AsksToInitialize(obj: Object) {
    IsRequest(obj) && Method(obj).value == "initialize"
  }

  ghost predicate OnlyHub(out: seq<ToHome>) {
    forall k :: 0 <= k < |out| ==> !out[k].FromPhone?
  }

  /** How much of the grammar each stage of the handshake has put on the candidate. */
  ghost predicate StageMatches(incoming: Incoming, out: seq<ToHome>) {
    match incoming
    case WaitRegistered(_, _) => out == []
    case WaitReady(_, _) => out == []
    case WaitInitialize(_) => |out| == 1
    case WaitLoads(_, pending) =>
      && |out| > 0 && OnlyHub(out)
      && Consistent(pending)
      && forall id :: id in pending.loadIds ==> Load(id, pending.loadIds[id]) in out
    case Ready(_) => false
  }

  ghost predicate LinksOk(slot: Slot, links: map<Gen, seq<ToHome>>) {
    && Conserved(slot)
    && (forall g :: g in links <==> 1 <= g <= slot.nextGen)
    && (forall g :: g in links ==> Grammar(links[g]))
    && (CandidateOf(slot.home).Some? ==>
          StageMatches(CandidateOf(slot.home).value, Sent(links, CandidateOf(slot.home).value.link)))
    && (MuxGen(slot.home).Some? ==> |Sent(links, MuxGen(slot.home).value)| > 0)
  }

  lemma AppendText(out: seq<ToHome>, obj: Object)
    requires Grammar(out) && |out| > 0 && !AsksToInitialize(obj)
    ensures Grammar(out + [FromPhone(obj)])
  {
  }

  lemma AppendLoads(out: seq<ToHome>, order: seq<SessionId>, base: int)
    requires Grammar(out) && |out| == 1 && Ascending(order)
    ensures Grammar(out + LoadRequests(order, base)) && OnlyHub(out + LoadRequests(order, base))
  {
  }

  lemma FinishKeeps(s: State, g: Gen)
    requires LinksOk(s.slot, s.links) && CandidateAt(s.slot.home, g).Some? && |Sent(s.links, g)| > 0
    ensures LinksOk(FinishSuccessor(s, g).slot, FinishSuccessor(s, g).links)
  {
    if s.slot.home.Dual? { AppendDistinct(s.slot.halts, s.slot.home.incumbent); }
  }

  lemma DropKeeps(slot: Slot, links: map<Gen, seq<ToHome>>, g: Gen)
    requires LinksOk(slot, links)
    ensures LinksOk(DropIncoming(slot), links) && LinksOk(FailIncoming(slot, g), links)
  {
    DropConserves(slot, g);
  }

  lemma AcceptKeeps(s: State, now: int)
    requires LinksOk(s.slot, s.links)
    ensures LinksOk(Accept(s, now).slot, Accept(s, now).links)
  {
    AcceptConserves(s.slot, now);
  }

  lemma EofKeeps(s: State, g: Gen)
    requires LinksOk(s.slot, s.links)
    ensures LinksOk(OnHomeEof(s, g).slot, OnHomeEof(s, g).links)
  {
    DropKeeps(s.slot, s.links, g);
    if RoleOf(s.slot.home, g) == Mux { LoseConserves(s.slot, g); }
  }

  /** A candidate before initialize has been sent nothing. */
  lemma NothingSentYet(slot: Slot, links: map<Gen, seq<ToHome>>, g: Gen)
    requires LinksOk(slot, links) && CandidateAt(slot.home, g).Some?
    requires CandidateAt(slot.home, g).value.WaitRegistered? || CandidateAt(slot.home, g).value.WaitReady?
    ensures g in links && links[g] == []
  {
  }

  lemma BeginInitializeKeeps(s: State, g: Gen)
    requires LinksOk(s.slot, s.links) && CandidateAt(s.slot.home, g).Some?
    requires CandidateAt(s.slot.home, g).value.WaitRegistered? || CandidateAt(s.slot.home, g).value.WaitReady?
    ensures LinksOk(BeginInitialize(s, g).slot, BeginInitialize(s, g).links)
  {
    hide LinksOk, WithIncoming;
    var out := [Initialize(s.nextReq + 1)];
    NothingSentYet(s.slot, s.links, g);
    assert Sent(s.links, g) + out == out;
    MoveKeeps(s.slot, s.links, WaitInitialize(g), out);
  }

  lemma RefuseKeeps(slot: Slot, links: map<Gen, seq<ToHome>>, refused: Option<int>)
    requires LinksOk(slot, links)
    ensures LinksOk(slot.(refusedVersion := refused), links)
  {
    RefuseConserves(slot, refused);
    hide Conserved, Grammar, StageMatches;
  }

  lemma RegisteredKeeps(s: State, g: Gen, ready: bool, version: int, now: int)
    requires LinksOk(s.slot, s.links)
    ensures LinksOk(OnRegistered(s, g, ready, version, now).slot, OnRegistered(s, g, ready, version, now).links)
  {
    hide LinksOk, BeginInitialize, FailIncoming, WithIncoming;
    if version != LEADER_PROTOCOL_VERSION {
      RefuseKeeps(s.slot, s.links, Some(version));
      DropKeeps(s.slot.(refusedVersion := Some(version)), s.links, g);
    } else {
      RefuseKeeps(s.slot, s.links, None);
      var s1 := s.(slot := s.slot.(refusedVersion := None));
      var incoming := CandidateAt(s.slot.home, g);
      if incoming.Some? && incoming.value.WaitRegistered? {
        if ready {
          BeginInitializeKeeps(s1, g);
        } else {
          NothingSentYet(s1.slot, s.links, g);
          MoveKeeps(s1.slot, s.links, WaitReady(g, now + READY_WAIT), []);
          assert s.links[g := []] == s.links;
        }
      }
    }
  }

  lemma LoadOnTheWire(order: seq<SessionId>, base: int, out: seq<ToHome>, id: ReqId)
    requires id in Numbered(order, base)
    ensures Load(id, Numbered(order, base)[id]) in out + LoadRequests(order, base)
  {
    var requests, k := LoadRequests(order, base), id - base - 1;
    assert requests[k] == Load(id, Numbered(order, base)[id]);
    assert (out + requests)[|out| + k] == requests[k];
  }

  lemma LoadsOnTheWire(watched: set<SessionId>, base: int, out: seq<ToHome>)
    requires watched != {}
    ensures var pending := Start(watched, base).value;
            forall id :: id in pending.loadIds ==>
              Load(id, pending.loadIds[id]) in out + LoadRequests(Ordered(watched), base)
  {
    hide Ordered, Numbered, LoadRequests;
    var order := Ordered(watched);
    forall id | id in Numbered(order, base)
      ensures Load(id, Numbered(order, base)[id]) in out + LoadRequests(order, base)
    {
      LoadOnTheWire(order, base, out, id);
    }
  }

  /** The candidate moves to a later stage that matches what has been put on it by now. */
  lemma MoveKeeps(slot: Slot, links: map<Gen, seq<ToHome>>, incoming: Incoming, out: seq<ToHome>)
    requires LinksOk(slot, links) && CandidateAt(slot.home, incoming.link).Some?
    requires Grammar(out) && StageMatches(incoming, out)
    ensures LinksOk(WithIncoming(slot, incoming), links[incoming.link := out])
  {
    MoveConserves(slot, incoming);
  }

  lemma BeginLoadsKeeps(s: State, g: Gen)
    requires LinksOk(s.slot, s.links) && s.book.watchers.Keys != {}
    requires CandidateAt(s.slot.home, g).Some? && CandidateAt(s.slot.home, g).value.WaitInitialize?
    ensures LinksOk(BeginLoads(s, g).slot, BeginLoads(s, g).links)
  {
    hide Ordered, LoadRequests, Consistent, WithIncoming, Conserved;
    var order := Ordered(s.book.watchers.Keys);
    var pending := Start(s.book.watchers.Keys, s.nextReq).value;
    assert |Sent(s.links, g)| == 1;
    AppendLoads(Sent(s.links, g), order, s.nextReq);
    StartIsConsistent(s.book.watchers.Keys, s.nextReq);
    LoadsOnTheWire(s.book.watchers.Keys, s.nextReq, Sent(s.links, g));
    MoveKeeps(s.slot, s.links, WaitLoads(g, pending), Sent(s.links, g) + LoadRequests(order, s.nextReq));
  }

  lemma AfterInitializeKeeps(s: State, g: Gen)
    requires LinksOk(s.slot, s.links)
    ensures LinksOk(AfterInitialize(s, g).slot, AfterInitialize(s, g).links)
  {
    hide LinksOk, FinishSuccessor, BeginLoads;
    var incoming := CandidateAt(s.slot.home, g);
    if incoming.Some? && incoming.value.WaitInitialize? {
      if s.book.watchers.Keys == {} {
        CandidateHasOut(s, g);
        FinishKeeps(s, g);
      } else {
        BeginLoadsKeeps(s, g);
      }
    }
  }

  lemma CandidateHasOut(s: State, g: Gen)
    requires LinksOk(s.slot, s.links) && CandidateAt(s.slot.home, g).Some?
    requires CandidateAt(s.slot.home, g).value.WaitInitialize? || CandidateAt(s.slot.home, g).value.WaitLoads?
    ensures |Sent(s.links, g)| > 0
  {
  }

  lemma AfterLoadKeeps(s: State, g: Gen, id: ReqId)
    requires LinksOk(s.slot, s.links)
    ensures LinksOk(AfterLoad(s, g, id).slot, AfterLoad(s, g, id).links)
  {
    var incoming := CandidateAt(s.slot.home, g);
    if incoming.Some? && incoming.value.WaitLoads? {
      var pending := incoming.value.pending;
      LoadedCrossesOff(pending, id);
      CandidateHasOut(s, g);
      match Loaded(pending, id)
      case Done => FinishKeeps(s, g);
      case More(left) => MoveConserves(s.slot, WaitLoads(g, left));
      case Ignore(same) => MoveConserves(s.slot, WaitLoads(g, same));
    }
  }

  lemma SendMuxKeeps(s: State, obj: Object)
    requires LinksOk(s.slot, s.links) && !AsksToInitialize(obj)
    ensures LinksOk(SendMux(s, FromPhone(obj)).slot, SendMux(s, FromPhone(obj)).links)
  {
    if MuxGen(s.slot.home).Some? { AppendText(Sent(s.links, MuxGen(s.slot.home).value), obj); }
  }

  lemma ResultKeeps(s: State, g: Gen, obj: Object)
    requires LinksOk(s.slot, s.links)
    ensures LinksOk(OnHomeResult(s, g, obj).slot, OnHomeResult(s, g, obj).links)
  {
    hide LinksOk, AfterInitialize, AfterLoad, FailIncoming, RoleOf;
    var id := AsNat(Id(obj));
    if id.Some? && id.value in s.outstanding {
      var s1 := s.(outstanding := s.outstanding - {id.value});
      AfterInitializeKeeps(s1, g);
      AfterLoadKeeps(s1, g, id.value);
      DropKeeps(s.slot, s.links, g);
    }
  }

  lemma {:induction false} AskAllSame(s: State, obj: Object, claim: ReqId, order: seq<PhoneId>)
    ensures var s' := AskAll(s, obj, claim, order);
            s'.slot == s.slot && s'.links == s.links && s'.outstanding == s.outstanding && s'.nextReq == s.nextReq
  {
    if order != [] { AskAllSame(s, obj, claim, order[..|order| - 1]); }
  }

  lemma ReverseSame(s: State, obj: Object, order: seq<PhoneId>)
    requires IsRequest(obj)
    ensures OnReverseRequest(s, obj, order).slot == s.slot && OnReverseRequest(s, obj, order).links == s.links
    ensures OnReverseRequest(s, obj, order).outstanding == s.outstanding
  {
    hide AskAll;
    var key := s.nextReq + 1;
    AskAllSame(s.(nextReq := key, book := OpenClaim(s.book, key, Id(obj).value)), obj, key, order);
  }

  lemma HomeFrameKeeps(s: State, g: Gen, frame: LeaderFrame, order: seq<PhoneId>, now: int)
    requires LinksOk(s.slot, s.links)
    ensures LinksOk(OnHomeFrame(s, g, frame, order, now).slot, OnHomeFrame(s, g, frame, order, now).links)
  {
    hide LinksOk, OnRegistered, OnHomeEof, BeginInitialize, OnReverseRequest, OnHomeResult, RoleOf;
    match frame
    case Registered(ready, version) => RegisteredKeeps(s, g, ready, version, now);
    case LeaderReady =>
      if CandidateAt(s.slot.home, g).Some? && CandidateAt(s.slot.home, g).value.WaitReady? {
        BeginInitializeKeeps(s, g);
      }
    case LeaderError => EofKeeps(s, g);
    case Acp(payload) =>
      if payload.Some? {
        if IsRequest(payload.value) {
          ReverseSame(s, payload.value, order);
        } else if IsResult(payload.value) {
          ResultKeeps(s, g, payload.value);
        }
      }
    case Pong =>
    case OtherFrame =>
  }

  lemma RequestKeeps(s: State, phone: PhoneId, obj: Object, heirs: map<SessionId, PhoneId>)
    requires LinksOk(s.slot, s.links) && IsRequest(obj)
    requires Closes(obj).Some? ==> HeirOk(s.book, phone, Closes(obj).value, heirs)
    ensures LinksOk(OnPhoneRequest(s, phone, obj, heirs).slot, OnPhoneRequest(s, phone, obj, heirs).links)
  {
    hide LinksOk, SendMux, HeirOk, Subscribe, NeedsInitialized;
    if Method(obj).value != "initialize" {
      var id := s.nextReq + 1;
      SendMuxKeeps(s.(book := Subscribe(s.book, phone, obj, heirs), nextReq := id,
                      outstanding := s.outstanding[id := Forwarded(phone, Id(obj).value)]),
                   SetId(obj, Int(id)));
    }
  }

  lemma ReplyKeeps(s: State, phone: PhoneId, obj: Object)
    requires LinksOk(s.slot, s.links) && IsReply(obj)
    ensures LinksOk(OnPhoneReply(s, phone, obj).slot, OnPhoneReply(s, phone, obj).links)
  {
    hide LinksOk, SendMux;
    var key := (phone, Id(obj).value);
    if key in s.book.reverse && s.book.reverse[key] in s.book.claims && s.book.claims[s.book.reverse[key]].Open? {
      SendMuxKeeps(s.(book := Answered(s.book, key)), SetId(obj, s.book.claims[s.book.reverse[key]].homeId));
    }
  }

  lemma PhoneTextKeeps(s: State, phone: PhoneId, text: Option<Object>, heirs: map<SessionId, PhoneId>)
    requires LinksOk(s.slot, s.links)
    requires text.Some? && Closes(text.value).Some? ==> HeirOk(s.book, phone, Closes(text.value).value, heirs)
    ensures LinksOk(OnPhoneText(s, phone, text, heirs).slot, OnPhoneText(s, phone, text, heirs).links)
  {
    hide LinksOk, SendMux, HeirOk, OnPhoneRequest, OnPhoneReply;
    if text.Some? {
      if IsRequest(text.value) {
        RequestKeeps(s, phone, text.value, heirs);
      } else if IsNotification(text.value) {
        SendMuxKeeps(s, text.value);
      } else if IsReply(text.value) {
        ReplyKeeps(s, phone, text.value);
      }
    }
  }

  /** Conservation of links and the grammar of every link survive every event. */
  lemma StepKeepsLinks(s: State, l: Label)
    requires LinksOk(s.slot, s.links) && Legal(s, l)
    ensures LinksOk(Step(s, l).slot, Step(s, l).links)
  {
    hide LinksOk, OnHomeFrame, OnPhoneText, DropPhone, AddPhone, Accept, OnHomeEof;
    match l.event
    case Accepted => AcceptKeeps(s, l.now);
    case HomeFrame(g, frame) => HomeFrameKeeps(s, g, frame, l.choice.order, l.now);
    case HomeEof(g) => EofKeeps(s, g);
    case PhoneText(phone, text) => PhoneTextKeeps(s, phone, text, l.choice.heirs);
    case PhoneEof(phone) =>
    case PhoneHello =>
    case DeadlinePassed => DropKeeps(s.slot, s.links, 0);
  }
}

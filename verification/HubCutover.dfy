/** What a successor has done by the time it is served: sent a result that the hub takes for its
    initialize, and then answered, on its own link, a load for every session watched at that moment. */
module HubCutover {
  import opened Json
  import opened SessionOrder
  import opened PendingLoads
  import opened HubState
  import opened HubSteps
  import opened HubRuns
  import opened HubReplacement
  import HubIds
  import HubLinks

  /** The hub has taken a result on the link for its initialize. */
  predicate PastInitialize(home: Home, c: Gen) {
    MuxGen(home) == Some(c) || (CandidateAt(home, c).Some? && CandidateAt(home, c).value.WaitLoads?)
  }

  /** The loads still open on a candidate; none on a served link. */
  function OpenLoads(home: Home, c: Gen): map<ReqId, SessionId> {
    if MuxGen(home) != Some(c) && CandidateAt(home, c).Some? && CandidateAt(home, c).value.WaitLoads?
    then CandidateAt(home, c).value.pending.loadIds else map[]
  }

  ghost predicate ExtendsByTexts(out: seq<ToHome>, out': seq<ToHome>) {
    |out| <= |out'| && out == out'[..|out|] && forall k :: |out| <= k < |out'| ==> out'[k].FromPhone?
  }

  /** A link already past initialize only gains texts of phones, and a load of its that is no longer
      open has just been answered on it. */
  ghost predicate Carries(s: State, event: Event, home': Home, out': seq<ToHome>, c: Gen) {
    && PastInitialize(s.slot.home, c)
    && ExtendsByTexts(Sent(s.links, c), out')
    && forall id :: id in OpenLoads(s.slot.home, c) && id !in OpenLoads(home', c) ==> ResultId(event, c) == Some(id)
  }

  /** A link gets past initialize by a result under an id the hub waits for as an initialize, not always
      the link's own; the sessions watched then are what it is to load. */
  ghost predicate Begins(s: State, event: Event, home': Home, out': seq<ToHome>, c: Gen) {
    && PassesInitialize(s, event, c)
    && out' == Sent(s.links, c) + LoadRequests(Ordered(s.book.watchers.Keys), s.nextReq)
    && (forall id :: s.nextReq < id <= s.nextReq + |s.book.watchers.Keys| ==> id in OpenLoads(home', c))
  }

  ghost predicate Progresses(s: State, event: Event, home': Home, links': map<Gen, seq<ToHome>>, c: Gen) {
    PastInitialize(home', c) ==>
      Carries(s, event, home', Sent(links', c), c) || Begins(s, event, home', Sent(links', c), c)
  }

  lemma SameSlotProgresses(s: State, event: Event, links': map<Gen, seq<ToHome>>, c: Gen)
    requires forall g :: ExtendsByTexts(Sent(s.links, g), Sent(links', g))
    ensures Progresses(s, event, s.slot.home, links', c)
  {
    assert ExtendsByTexts(Sent(s.links, c), Sent(links', c));
  }

  lemma SendMuxExtends(s: State, obj: Object)
    ensures forall g :: ExtendsByTexts(Sent(s.links, g), Sent(SendMux(s, FromPhone(obj)).links, g))
  {
  }

  lemma NothingExtends(links: map<Gen, seq<ToHome>>)
    ensures forall g :: ExtendsByTexts(Sent(links, g), Sent(links, g))
  {
  }

  lemma RequestExtends(s: State, phone: PhoneId, obj: Object, heirs: map<SessionId, PhoneId>)
    requires IsRequest(obj) && (Closes(obj).Some? ==> HeirOk(s.book, phone, Closes(obj).value, heirs))
    ensures forall g :: ExtendsByTexts(Sent(s.links, g), Sent(OnPhoneRequest(s, phone, obj, heirs).links, g))
  {
    hide SendMux, HeirOk, Subscribe, NeedsInitialized, ExtendsByTexts, AnswerInitialize;
    NothingExtends(s.links);
    InitializeSame(s, phone, Id(obj).value);
    var id := s.nextReq + 1;
    SendMuxExtends(s.(book := Subscribe(s.book, phone, obj, heirs), nextReq := id,
                      outstanding := s.outstanding[id := Forwarded(phone, Id(obj).value)]),
                   SetId(obj, Int(id)));
  }

  lemma InitializeSame(s: State, phone: PhoneId, id: Value)
    ensures AnswerInitialize(s, phone, id).links == s.links
  {
  }

  lemma PhoneTextExtends(s: State, phone: PhoneId, text: Option<Object>, heirs: map<SessionId, PhoneId>)
    requires text.Some? && Closes(text.value).Some? ==> HeirOk(s.book, phone, Closes(text.value).value, heirs)
    ensures forall g :: ExtendsByTexts(Sent(s.links, g), Sent(OnPhoneText(s, phone, text, heirs).links, g))
  {
    hide SendMux, HeirOk, OnPhoneRequest, ExtendsByTexts;
    NothingExtends(s.links);
    if text.Some? {
      if IsRequest(text.value) {
        RequestExtends(s, phone, text.value, heirs);
      } else if IsNotification(text.value) {
        SendMuxExtends(s, text.value);
      } else if IsReply(text.value) {
        var key := (phone, Id(text.value).value);
        if key in s.book.reverse && s.book.reverse[key] in s.book.claims && s.book.claims[s.book.reverse[key]].Open? {
          SendMuxExtends(s.(book := Answered(s.book, key)), SetId(text.value, s.book.claims[s.book.reverse[key]].homeId));
        }
      }
    }
  }

  /** The candidate is dropped or the served link is lost: whoever is left goes on as before. */
  lemma DropProgresses(s: State, event: Event, g: Gen, c: Gen)
    ensures Progresses(s, event, DropIncoming(s.slot).home, s.links, c)
    ensures Progresses(s, event, FailIncoming(s.slot, g).home, s.links, c)
    ensures MuxGen(s.slot.home) == Some(g) && HubLinks.Conserved(s.slot) ==>
              Progresses(s, event, LoseMux(s.slot, g).home, s.links, c)
  {
  }

  lemma EofProgresses(s: State, event: Event, g: Gen, c: Gen)
    requires HubLinks.Conserved(s.slot)
    ensures Progresses(s, event, OnHomeEof(s, g).slot.home, OnHomeEof(s, g).links, c)
  {
    hide Progresses, LoseMux, FailIncoming, HubLinks.Conserved;
    DropProgresses(s, event, g, c);
    NothingExtends(s.links);
    SameSlotProgresses(s, event, s.links, c);
  }

  /** The candidate moves between stages before it is past initialize. */
  lemma EarlyProgresses(s: State, event: Event, incoming: Incoming, links': map<Gen, seq<ToHome>>, c: Gen)
    requires HubLinks.Conserved(s.slot) && CandidateAt(s.slot.home, incoming.link).Some?
    requires incoming.WaitReady? || incoming.WaitInitialize?
    requires forall g :: g != incoming.link ==> Sent(links', g) == Sent(s.links, g)
    ensures Progresses(s, event, WithIncoming(s.slot, incoming).home, links', c)
  {
  }

  lemma RegisteredProgresses(s: State, event: Event, g: Gen, ready: bool, version: int, now: int, c: Gen)
    requires HubLinks.Conserved(s.slot)
    ensures var s' := OnRegistered(s, g, ready, version, now);
            Progresses(s, event, s'.slot.home, s'.links, c)
  {
    hide HubLinks.Conserved, PastInitialize, OpenLoads, ExtendsByTexts, Begins;
    NothingExtends(s.links);
    RefusedProgresses(s, event, g, version, c);
    var s1 := s.(slot := s.slot.(refusedVersion := None));
    var incoming := CandidateAt(s.slot.home, g);
    if version == LEADER_PROTOCOL_VERSION && incoming.Some? && incoming.value.WaitRegistered? {
      EarlyProgresses(s, event, WaitReady(g, now + READY_WAIT), s.links, c);
      EarlyProgresses(s, event, WaitInitialize(g), BeginInitialize(s1, g).links, c);
    }
  }

  lemma RefusedProgresses(s: State, event: Event, g: Gen, version: int, c: Gen)
    ensures Progresses(s, event, FailIncoming(s.slot.(refusedVersion := Some(version)), g).home, s.links, c)
    ensures Progresses(s, event, s.slot.home, s.links, c)
  {
  }

  lemma FinishProgresses(s: State, event: Event, g: Gen, links': map<Gen, seq<ToHome>>, c: Gen)
    requires CandidateAt(s.slot.home, g).Some? && links' == s.links
    requires Completes(s, event, g)
    ensures Progresses(s, event, Sole(g), links', c)
  {
    if CandidateAt(s.slot.home, g).value.WaitInitialize? {
      assert Ordered(s.book.watchers.Keys) == [];
      assert LoadRequests([], s.nextReq) == [];
      assert Sent(s.links, g) + [] == Sent(s.links, g);
    }
  }

  lemma BegunLoads(s: State, outstanding: map<ReqId, Wait>, g: Gen)
    requires s.book.watchers.Keys != {}
    ensures var s', watched := BeginLoads(s.(outstanding := outstanding), g), s.book.watchers.Keys;
            && s'.slot == WithIncoming(s.slot, WaitLoads(g, Start(watched, s.nextReq).value))
            && s'.links == s.links[g := Sent(s.links, g) + LoadRequests(Ordered(watched), s.nextReq)]
  {
    hide WithIncoming, LoadRequests, Ordered, Numbered;
  }

  lemma BegunOpen(slot: Slot, g: Gen, watched: set<SessionId>, base: int, id: ReqId)
    requires watched != {} && CandidateAt(slot.home, g).Some? && MuxGen(slot.home) != Some(g)
    requires base < id <= base + |watched|
    ensures id in OpenLoads(WithIncoming(slot, WaitLoads(g, Start(watched, base).value)).home, g)
  {
    hide Ordered, Ascending;
  }

  /** A candidate goes on to its loads: whoever is served stays so, and nobody else is a candidate. */
  lemma BegunHome(slot: Slot, g: Gen, pending: PendingLoads, c: Gen)
    requires CandidateAt(slot.home, g).Some? && c != g
    ensures var home' := WithIncoming(slot, WaitLoads(g, pending)).home;
            MuxGen(home') == MuxGen(slot.home) && CandidateAt(home', c).None? && CandidateAt(slot.home, c).None?
  {
  }

  lemma BeginsHere(s: State, event: Event, g: Gen, outstanding: map<ReqId, Wait>)
    requires PassesInitialize(s, event, g) && s.book.watchers.Keys != {}
    requires CandidateAt(s.slot.home, g).Some? && MuxGen(s.slot.home) != Some(g)
    ensures var s' := BeginLoads(s.(outstanding := outstanding), g);
            Begins(s, event, s'.slot.home, Sent(s'.links, g), g)
  {
    hide PassesInitialize, LoadRequests, Ordered, Numbered, WithIncoming, BeginLoads, CandidateAt, MuxGen, OpenLoads;
    BegunLoads(s, outstanding, g);
    forall id | s.nextReq < id <= s.nextReq + |s.book.watchers.Keys|
      ensures id in OpenLoads(BeginLoads(s.(outstanding := outstanding), g).slot.home, g)
    {
      BegunOpen(s.slot, g, s.book.watchers.Keys, s.nextReq, id);
    }
  }

  lemma BeginProgresses(s: State, event: Event, g: Gen, outstanding: map<ReqId, Wait>, c: Gen)
    requires HubLinks.Conserved(s.slot) && PassesInitialize(s, event, g) && s.book.watchers.Keys != {}
    ensures var s' := BeginLoads(s.(outstanding := outstanding), g);
            Progresses(s, event, s'.slot.home, s'.links, c)
  {
    hide PassesInitialize, LoadRequests, Ordered, Numbered, WithIncoming, BeginLoads, HubLinks.Conserved, CandidateAt,
      MuxGen, Begins;
    CandidateIsNotMux(s, event, g);
    if c == g {
      BeginsHere(s, event, g, outstanding);
    } else {
      BegunLoads(s, outstanding, g);
      BegunHome(s.slot, g, Start(s.book.watchers.Keys, s.nextReq).value, c);
      NothingExtends(s.links);
    }
  }

  lemma CandidateIsNotMux(s: State, event: Event, g: Gen)
    requires HubLinks.Conserved(s.slot) && PassesInitialize(s, event, g)
    ensures MuxGen(s.slot.home) != Some(g) && CandidateAt(s.slot.home, g).Some?
  {
  }

  lemma LoadMoves(s: State, event: Event, g: Gen, id: ReqId, left: PendingLoads, c: Gen)
    requires HubLinks.LinksOk(s.slot, s.links) && ResultId(event, g) == Some(id)
    requires CandidateAt(s.slot.home, g).Some? && CandidateAt(s.slot.home, g).value.WaitLoads?
    requires Loaded(CandidateAt(s.slot.home, g).value.pending, id) in {More(left), Ignore(left)}
    ensures Progresses(s, event, WithIncoming(s.slot, WaitLoads(g, left)).home, s.links, c)
  {
    NothingExtends(s.links);
    LoadedCrossesOff(CandidateAt(s.slot.home, g).value.pending, id);
    hide Consistent, ExtendsByTexts, HubLinks.Grammar;
  }

  lemma LastLoadCompletes(s: State, event: Event, g: Gen, id: ReqId)
    requires HubLinks.LinksOk(s.slot, s.links) && ResultId(event, g) == Some(id)
    requires CandidateAt(s.slot.home, g).Some? && CandidateAt(s.slot.home, g).value.WaitLoads?
    requires Loaded(CandidateAt(s.slot.home, g).value.pending, id).Done?
    ensures Completes(s, event, g)
  {
    LoadedCrossesOff(CandidateAt(s.slot.home, g).value.pending, id);
    hide Consistent, HubLinks.Grammar;
  }

  lemma LoadProgresses(s: State, event: Event, g: Gen, id: ReqId, outstanding: map<ReqId, Wait>, c: Gen)
    requires HubLinks.LinksOk(s.slot, s.links) && ResultId(event, g) == Some(id)
    ensures var s' := AfterLoad(s.(outstanding := outstanding), g, id);
            Progresses(s, event, s'.slot.home, s'.links, c)
  {
    hide Progresses, Completes, Loaded, WithIncoming, HubLinks.LinksOk, Appended;
    NothingExtends(s.links);
    SameSlotProgresses(s, event, s.links, c);
    if CandidateAt(s.slot.home, g).Some? && CandidateAt(s.slot.home, g).value.WaitLoads? {
      match Loaded(CandidateAt(s.slot.home, g).value.pending, id)
      case Done =>
        LastLoadCompletes(s, event, g, id);
        FinishProgresses(s, event, g, s.links, c);
      case More(left) => LoadMoves(s, event, g, id, left, c);
      case Ignore(left) => LoadMoves(s, event, g, id, left, c);
    }
  }

  lemma ResultProgresses(s: State, g: Gen, obj: Object, c: Gen)
    requires HubLinks.LinksOk(s.slot, s.links) && IsResult(obj)
    ensures var s' := OnHomeResult(s, g, obj);
            Progresses(s, HomeFrame(g, Acp(Some(obj))), s'.slot.home, s'.links, c)
  {
    hide HubLinks.LinksOk, HubLinks.Conserved, AfterLoad, Progresses, Say, BeginLoads, PassesInitialize, FailIncoming,
      LastLoadAnswered;
    var event := HomeFrame(g, Acp(Some(obj)));
    NothingExtends(s.links);
    SameSlotProgresses(s, event, s.links, c);
    ConservedOf(s);
    var id := AsNat(Id(obj));
    if id.Some? && id.value in s.outstanding {
      var s1 := s.(outstanding := s.outstanding - {id.value});
      match s.outstanding[id.value]
      case Forwarded(phone, origin) => ForwardedSame(s1, g, obj, phone, origin);
      case HubLoad => LoadProgresses(s, event, g, id.value, s1.outstanding, c);
      case HubInitialize =>
        DropProgresses(s, event, g, c);
        if "error" !in obj && CandidateAt(s.slot.home, g).Some? && CandidateAt(s.slot.home, g).value.WaitInitialize? {
          AnsweredHere(s, g, obj);
          if s.book.watchers.Keys == {} {
            FinishProgresses(s, event, g, s.links, c);
          } else {
            BeginProgresses(s, event, g, s1.outstanding, c);
          }
        }
    }
  }

  lemma AnsweredHere(s: State, g: Gen, obj: Object)
    requires IsResult(obj) && AsNat(Id(obj)).Some? && AsNat(Id(obj)).value in s.outstanding
    requires s.outstanding[AsNat(Id(obj)).value].HubInitialize? && "error" !in obj
    requires CandidateAt(s.slot.home, g).Some? && CandidateAt(s.slot.home, g).value.WaitInitialize?
    ensures PassesInitialize(s, HomeFrame(g, Acp(Some(obj))), g)
  {
  }

  lemma ConservedOf(s: State)
    requires HubLinks.LinksOk(s.slot, s.links)
    ensures HubLinks.Conserved(s.slot)
  {
  }

  lemma HomeFrameProgresses(s: State, g: Gen, frame: LeaderFrame, order: seq<PhoneId>, now: int, c: Gen)
    requires HubLinks.LinksOk(s.slot, s.links)
    ensures var s' := OnHomeFrame(s, g, frame, order, now);
            Progresses(s, HomeFrame(g, frame), s'.slot.home, s'.links, c)
  {
    hide HubLinks.LinksOk, HubLinks.Conserved, Progresses, OnRegistered, BeginInitialize, OnReverseRequest, OnHomeResult,
      OnHomeEof, RoleOf;
    var event := HomeFrame(g, frame);
    NothingExtends(s.links);
    SameSlotProgresses(s, event, s.links, c);
    ConservedOf(s);
    match frame
    case Registered(ready, version) => RegisteredProgresses(s, event, g, ready, version, now, c);
    case LeaderReady =>
      if CandidateAt(s.slot.home, g).Some? { ReadyProgresses(s, event, g, c); }
    case LeaderError => EofProgresses(s, event, g, c);
    case Acp(payload) =>
      if payload.Some? {
        if IsRequest(payload.value) {
          HubLinks.ReverseSame(s, payload.value, order);
        } else if IsResult(payload.value) {
          ResultProgresses(s, g, payload.value, c);
        }
      }
    case Pong =>
    case OtherFrame =>
  }

  lemma ReadyProgresses(s: State, event: Event, g: Gen, c: Gen)
    requires HubLinks.Conserved(s.slot) && CandidateAt(s.slot.home, g).Some?
    ensures Progresses(s, event, BeginInitialize(s, g).slot.home, BeginInitialize(s, g).links, c)
  {
    hide HubLinks.Conserved, Progresses;
    EarlyProgresses(s, event, WaitInitialize(g), BeginInitialize(s, g).links, c);
  }

  lemma AcceptProgresses(s: State, event: Event, now: int, c: Gen)
    requires HubLinks.LinksOk(s.slot, s.links)
    ensures Progresses(s, event, Accept(s, now).slot.home, Accept(s, now).links, c)
  {
    assert s.slot.nextGen + 1 !in s.links;
  }

  lemma StepProgresses(s: State, l: Label, c: Gen)
    requires HubLinks.LinksOk(s.slot, s.links) && Legal(s, l)
    ensures Progresses(s, l.event, Step(s, l).slot.home, Step(s, l).links, c)
  {
    hide HubLinks.LinksOk, HubLinks.Conserved, Progresses, OnHomeFrame, OnPhoneText, DropPhone, OnHomeEof, Accept,
      ExtendsByTexts, DropIncoming;
    ConservedOf(s);
    NothingExtends(s.links);
    SameSlotProgresses(s, l.event, s.links, c);
    match l.event
    case Accepted => AcceptProgresses(s, l.event, l.now, c);
    case HomeFrame(g, frame) => HomeFrameProgresses(s, g, frame, l.choice.order, l.now, c);
    case HomeEof(g) => EofProgresses(s, l.event, g, c);
    case PhoneText(phone, text) =>
      PhoneTextSame(s, phone, text, l.choice.heirs);
      PhoneTextExtends(s, phone, text, l.choice.heirs);
      SameSlotProgresses(s, l.event, OnPhoneText(s, phone, text, l.choice.heirs).links, c);
    case PhoneEof(phone) =>
    case PhoneHello =>
    case DeadlinePassed => DropProgresses(s, l.event, 0, c);
  }

  // ----- Over a run

  /** A result with this id has arrived on link `c` after step `j` and before state `i`. */
  ghost predicate HeardSince(r: Run, j: nat, i: nat, c: Gen, id: ReqId) {
    exists k :: j < k < i && k < |r.labels| && ResultId(r.labels[k].event, c) == Some(id)
  }

  /** The link was asked to load this session. */
  predicate Loads(out: seq<ToHome>, session: SessionId) {
    exists k :: 0 <= k < |out| && out[k].Load? && out[k].session == session
  }

  /** In step `j` a result under `h` was taken for the answer to the link's initialize, the only thing it
      had been sent; the sessions watched just then are the ones it was asked to load. */
  ghost predicate Snapshot(r: Run, j: nat, h: ReqId, out: seq<ToHome>, c: Gen)
    requires j < |r.labels| && |r.states| == |r.labels| + 1
  {
    && InitializeAnswered(r.states[j], r.labels[j].event, c, h)
    && out != [] && out[0].Initialize? && Sent(r.states[j].links, c) == out[..1]
    && forall session :: session in r.states[j].book.watchers <==> Loads(out, session)
  }

  /** Every load put on the link is open, or has been answered there since. */
  ghost predicate LoadsHeard(r: Run, j: nat, i: nat, out: seq<ToHome>, open: map<ReqId, SessionId>, c: Gen) {
    forall k :: 0 <= k < |out| && out[k].Load? ==> out[k].id in open || HeardSince(r, j, i, c, out[k].id)
  }

  ghost predicate Prepared(r: Run, i: nat, c: Gen)
    requires i < |r.states| == |r.labels| + 1
  {
    var s := r.states[i];
    exists j: nat, h ::
      j < i && Snapshot(r, j, h, Sent(s.links, c), c)
      && LoadsHeard(r, j, i, Sent(s.links, c), OpenLoads(s.slot.home, c), c)
  }

  lemma TextsAreNoLoads(out: seq<ToHome>, out': seq<ToHome>, session: SessionId)
    requires ExtendsByTexts(out, out')
    ensures Loads(out', session) <==> Loads(out, session)
  {
    if Loads(out, session) {
      var k :| 0 <= k < |out| && out[k].Load? && out[k].session == session;
      assert out'[k] == out[k];
    }
  }

  lemma CarriedHeard(r: Run, j: nat, i: nat, c: Gen)
    requires IsRun(r) && j < i < |r.labels|
    requires var s, s' := r.states[i], r.states[i + 1];
             && Carries(s, r.labels[i].event, s'.slot.home, Sent(s'.links, c), c)
             && LoadsHeard(r, j, i, Sent(s.links, c), OpenLoads(s.slot.home, c), c)
    ensures var s' := r.states[i + 1]; LoadsHeard(r, j, i + 1, Sent(s'.links, c), OpenLoads(s'.slot.home, c), c)
  {
    hide Step, Legal, OpenLoads, PastInitialize, ResultId, StepAt;
    var s, s' := r.states[i], r.states[i + 1];
    var out, out' := Sent(s.links, c), Sent(s'.links, c);
    forall k | 0 <= k < |out'| && out'[k].Load?
      ensures out'[k].id in OpenLoads(s'.slot.home, c) || HeardSince(r, j, i + 1, c, out'[k].id)
    {
      assert out[k] == out'[k];
      if HeardSince(r, j, i, c, out[k].id) {
        var m :| j < m < i && m < |r.labels| && ResultId(r.labels[m].event, c) == Some(out[k].id);
      }
    }
  }

  lemma CarriedPrepared(r: Run, i: nat, c: Gen)
    requires IsRun(r) && i < |r.labels| && Prepared(r, i, c)
    requires var s' := r.states[i + 1]; Carries(r.states[i], r.labels[i].event, s'.slot.home, Sent(s'.links, c), c)
    ensures Prepared(r, i + 1, c)
  {
    hide Step, Legal, OpenLoads, PastInitialize, ResultId, InitializeAnswered, StepAt, LoadsHeard;
    var s, s' := r.states[i], r.states[i + 1];
    var out, out' := Sent(s.links, c), Sent(s'.links, c);
    var j: nat, h :| j < i && Snapshot(r, j, h, out, c) && LoadsHeard(r, j, i, out, OpenLoads(s.slot.home, c), c);
    forall session ensures Loads(out', session) <==> Loads(out, session) { TextsAreNoLoads(out, out', session); }
    assert out'[..1] == out[..1];
    assert Snapshot(r, j, h, out', c);
    CarriedHeard(r, j, i, c);
  }

  lemma BegunPrepared(r: Run, i: nat, c: Gen)
    requires IsRun(r) && i < |r.labels| && HubLinks.LinksOk(r.states[i].slot, r.states[i].links)
    requires var s' := r.states[i + 1]; Begins(r.states[i], r.labels[i].event, s'.slot.home, Sent(s'.links, c), c)
    ensures Prepared(r, i + 1, c)
  {
    hide Step, Legal, OpenLoads, StepAt, HubLinks.LinksOk, Loads, LoadsHeard, Snapshot, Begins;
    var s, s' := r.states[i], r.states[i + 1];
    BegunSnapshot(r, i, c);
    assert Snapshot(r, i, ResultId(r.labels[i].event, c).value, Sent(s'.links, c), c);
    assert LoadsHeard(r, i, i + 1, Sent(s'.links, c), OpenLoads(s'.slot.home, c), c);
  }

  lemma BegunSnapshot(r: Run, i: nat, c: Gen)
    requires i < |r.labels| && |r.states| == |r.labels| + 1 && HubLinks.LinksOk(r.states[i].slot, r.states[i].links)
    requires var s' := r.states[i + 1]; Begins(r.states[i], r.labels[i].event, s'.slot.home, Sent(s'.links, c), c)
    ensures ResultId(r.labels[i].event, c).Some?
    ensures var s' := r.states[i + 1];
            && Snapshot(r, i, ResultId(r.labels[i].event, c).value, Sent(s'.links, c), c)
            && LoadsHeard(r, i, i + 1, Sent(s'.links, c), OpenLoads(s'.slot.home, c), c)
  {
    hide OpenLoads, HubLinks.LinksOk, Loads, ResultId, ResultFrom, LoadRequests, Ordered, HeardSince, InitializeAnswered;
    var s, s' := r.states[i], r.states[i + 1];
    var out := Sent(s.links, c);
    AnsweredWaits(s, r.labels[i].event, c);
    OneInitialize(s, c);
    LoadsExactly(out, Ordered(s.book.watchers.Keys), s.nextReq);
    assert Sent(s'.links, c)[..1] == out;
  }

  lemma AnsweredWaits(s: State, event: Event, c: Gen)
    requires PassesInitialize(s, event, c)
    ensures CandidateAt(s.slot.home, c).Some? && CandidateAt(s.slot.home, c).value.WaitInitialize?
  {
  }

  lemma LoadsExactly(out: seq<ToHome>, order: seq<SessionId>, base: int)
    requires |out| == 1 && out[0].Initialize?
    ensures var out' := out + LoadRequests(order, base);
            && (forall session :: session in order <==> Loads(out', session))
            && forall k :: 0 <= k < |out'| && out'[k].Load? ==> base < out'[k].id <= base + |order|
  {
    var requests := LoadRequests(order, base);
    var out' := out + requests;
    forall session ensures session in order <==> Loads(out', session) {
      if session in order {
        var k :| 0 <= k < |order| && order[k] == session;
        assert out'[1 + k] == requests[k];
      }
      if Loads(out', session) {
        var k :| 0 <= k < |out'| && out'[k].Load? && out'[k].session == session;
        assert out'[k] == requests[k - 1];
      }
    }
    forall k | 0 <= k < |out'| && out'[k].Load? ensures base < out'[k].id <= base + |order| {
      assert out'[k] == requests[k - 1];
    }
  }

  lemma OneInitialize(s: State, c: Gen)
    requires HubLinks.LinksOk(s.slot, s.links)
    requires CandidateAt(s.slot.home, c).Some? && CandidateAt(s.slot.home, c).value.WaitInitialize?
    ensures |Sent(s.links, c)| == 1 && Sent(s.links, c)[0].Initialize?
  {
  }

  /** In every reachable state, every link past initialize has been prepared. */
  lemma {:induction false} AlwaysPrepared(r: Run, i: nat, c: Gen)
    requires IsRun(r) && i < |r.states| && PastInitialize(r.states[i].slot.home, c)
    ensures Prepared(r, i, c)
  {
    hide Step, Legal, Good, Prepared, Begins, HubLinks.LinksOk;
    if i > 0 {
      assert StepAt(r, i - 1);
      Reachable(r, i - 1);
      GoodSlot(r.states[i - 1]);
      StepProgresses(r.states[i - 1], r.labels[i - 1], c);
      var s' := r.states[i];
      if Carries(r.states[i - 1], r.labels[i - 1].event, s'.slot.home, Sent(s'.links, c), c) {
        AlwaysPrepared(r, i - 1, c);
        CarriedPrepared(r, i - 1, c);
      } else {
        BegunPrepared(r, i - 1, c);
      }
    }
  }

  // ----- Whose initialize was answered

  /** The id of the link's own initialize, once it has been sent. */
  function OwnInitialize(links: map<Gen, seq<ToHome>>, c: Gen): Option<ReqId> {
    var out := Sent(links, c);
    if out != [] && out[0].Initialize? then Some(out[0].id) else None
  }

  /** No initialize but the link's own is waited for. */
  ghost predicate OnlyOwnWaits(s: State, c: Gen) {
    forall h :: h in s.outstanding && s.outstanding[h].HubInitialize? ==> OwnInitialize(s.links, c) == Some(h)
  }

  /** Exactly when a candidate can get past initialize only by an answer to its own: when no initialize of
      another link is still waited for. Those of dropped candidates are never given up. */
  lemma OwnInitializeIff(s: State, c: Gen)
    requires HubIds.IdsOk(s)
    requires CandidateAt(s.slot.home, c).Some? && CandidateAt(s.slot.home, c).value.WaitInitialize?
    ensures OnlyOwnWaits(s, c)
            <==> forall l, h :: Legal(s, l) && InitializeAnswered(s, l.event, c, h) ==> OwnInitialize(s.links, c) == Some(h)
  {
    hide OwnInitialize, HubIds.NeverReused, HubIds.Asked;
    if !OnlyOwnWaits(s, c) {
      var h :| h in s.outstanding && s.outstanding[h].HubInitialize? && OwnInitialize(s.links, c) != Some(h);
      var l := Label(HomeFrame(c, Acp(Some(Result(h)))), Choice(map[], []), 0);
      ResultIs(h);
      assert Legal(s, l) && InitializeAnswered(s, l.event, c, h);
    }
  }

  lemma SnapshotOfOwn(r: Run, j: nat, h: ReqId, out: seq<ToHome>, c: Gen)
    requires j < |r.labels| && |r.states| == |r.labels| + 1 && Snapshot(r, j, h, out, c)
    ensures OnlyOwnWaits(r.states[j], c) ==> out[0] == Initialize(h)
  {
    hide Loads, ResultFrom, CandidateAt;
    assert out[..1][0] == out[0];
  }

  /** Replacement order, over every run. A served link stops being served only by its own end, or
      because a successor takes over. By then the successor has sent a result that the hub took for the
      answer to its initialize, and it was the answer to its own if no other link's was still waited
      for; and for every session watched at that moment a load was put on the successor's own link and
      a result for it has arrived there since. */
  lemma ReplacementOrder(r: Run, i: nat)
    requires IsRun(r) && i < |r.labels|
    requires MuxGen(r.states[i].slot.home).Some? && MuxGen(r.states[i + 1].slot.home) != MuxGen(r.states[i].slot.home)
    ensures var g, after := MuxGen(r.states[i].slot.home).value, MuxGen(r.states[i + 1].slot.home);
            if after.None? then OwnEnd(r.labels[i].event, g)
            else
              var c, out := after.value, Sent(r.states[i + 1].links, after.value);
              && c > g
              && exists j: nat, h ::
                   && j <= i && Snapshot(r, j, h, out, c)
                   && (OnlyOwnWaits(r.states[j], c) ==> out[0] == Initialize(h))
                   && forall k :: 0 <= k < |out| && out[k].Load? ==> HeardSince(r, j, i + 1, c, out[k].id)
  {
    hide IsRun, Step, Legal, Good, Snapshot, HubLinks.LinksOk, Completes, HeardSince, OnlyOwnWaits, OwnEnd;
    StepIn(r, i);
    Reachable(r, i);
    GoodSlot(r.states[i]);
    StepMovesService(r.states[i], r.labels[i]);
    var after := MuxGen(r.states[i + 1].slot.home);
    if after.Some? {
      var c, out := after.value, Sent(r.states[i + 1].links, after.value);
      AlwaysPrepared(r, i + 1, c);
      ServiceIsMonotone(r, i, i + 1);
      var j: nat, h :| j < i + 1 && Snapshot(r, j, h, out, c)
        && LoadsHeard(r, j, i + 1, out, OpenLoads(r.states[i + 1].slot.home, c), c);
      SnapshotOfOwn(r, j, h, out, c);
      assert Snapshot(r, j, h, out, c) && forall k :: 0 <= k < |out| && out[k].Load? ==> HeardSince(r, j, i + 1, c, out[k].id);
    }
  }

  lemma StepIn(r: Run, i: nat)
    requires IsRun(r) && i < |r.labels|
    ensures |r.states| == |r.labels| + 1
    ensures Legal(r.states[i], r.labels[i]) && r.states[i + 1] == Step(r.states[i], r.labels[i])
  {
    hide Step, Legal;
    assert StepAt(r, i);
  }
}

/** What becomes of each phone request: answered here, or forwarded under a fresh id and then
    answered at most once, to the phone that sent it and under the id it used. */
module HubRequests {
  import opened Json
  import opened SessionOrder
  import opened PendingLoads
  import opened HubState
  import opened HubSteps
  import opened HubReplacement
  import HubLinks
  import HubIds

  /** This step forwards a request of `phone` with id `origin` on the served link, under id `h`. */
  ghost predicate ForwardedHere(s: State, event: Event, s': State, phone: PhoneId, origin: Value, h: ReqId) {
    && event.PhoneText? && event.phone == phone && phone in s.book.phones
    && event.text.Some? && IsRequest(event.text.value) && Id(event.text.value) == Some(origin)
    && MuxGen(s.slot.home).Some? && h == s.nextReq + 1
    && s'.links == s.links[MuxGen(s.slot.home).value :=
         Sent(s.links, MuxGen(s.slot.home).value) + [FromPhone(event.text.value["id" := Int(h)])]]
    && s'.outstanding == s.outstanding[h := Forwarded(phone, origin)]
    && s'.texts == s.texts
  }

  /** A result under id `h` arrives on a link the hub holds. */
  predicate ResultHere(s: State, event: Event, h: ReqId) {
    event.HomeFrame? && Live(s.slot.home, event.gen) && ResultId(event, event.gen) == Some(h)
  }

  /** Waits only leave by a result under their id, and only enter under numbers never used before;
      a forwarded one enters when it is forwarded. */
  ghost predicate Ledger(s: State, event: Event, s': State) {
    && s.nextReq <= s'.nextReq
    && (forall h :: h in s.outstanding ==>
          (h in s'.outstanding && s'.outstanding[h] == s.outstanding[h]) || ResultHere(s, event, h))
    && (forall h :: h in s'.outstanding && h !in s.outstanding ==> s.nextReq < h <= s'.nextReq)
    && (forall h :: h in s'.outstanding && h !in s.outstanding && s'.outstanding[h].Forwarded? ==>
          ForwardedHere(s, event, s', s'.outstanding[h].phone, s'.outstanding[h].origin, h))
  }

  lemma SameLedger(s: State, event: Event, s': State)
    requires s'.outstanding == s.outstanding && s.nextReq <= s'.nextReq
    ensures Ledger(s, event, s')
  {
  }

  lemma BeginLedger(s: State, event: Event, g: Gen)
    requires HubIds.IdsOk(s)
    ensures Ledger(s, event, BeginInitialize(s, g))
  {
    hide ForwardedHere, ResultHere, WithIncoming, HubIds.NeverReused, HubIds.Asked;
  }

  lemma LoadsLedger(s: State, event: Event, g: Gen)
    requires HubIds.IdsOk(s) && s.book.watchers.Keys != {}
    ensures Ledger(s, event, BeginLoads(s, g))
  {
    hide ForwardedHere, ResultHere, WithIncoming, HubIds.NeverReused, HubIds.Asked, LoadRequests, First;
  }

  /** The wait under `h` is gone, and whatever else happened is in the ledger of the rest. */
  lemma RemoveLedger(s: State, event: Event, h: ReqId, s': State)
    requires h in s.outstanding && ResultHere(s, event, h)
    requires Ledger(s.(outstanding := s.outstanding - {h}), event, s')
    requires !event.PhoneText? && 1 <= h <= s.nextReq
    ensures Ledger(s, event, s')
  {
  }

  lemma FinishLedger(s: State, event: Event, g: Gen, id: ReqId)
    ensures Ledger(s, event, FinishSuccessor(s, g))
    ensures Ledger(s, event, AfterLoad(s, g, id))
  {
    hide Ledger, Loaded;
    SameLedger(s, event, FinishSuccessor(s, g));
    SameLedger(s, event, AfterLoad(s, g, id));
  }

  lemma ShrunkIds(s: State, h: ReqId)
    requires HubIds.IdsOk(s)
    ensures HubIds.IdsOk(s.(outstanding := s.outstanding - {h}))
    ensures h in s.outstanding ==> 1 <= h <= s.nextReq
  {
    hide HubIds.NeverReused, HubIds.Asked;
  }

  lemma ResultLedger(s: State, g: Gen, obj: Object)
    requires HubIds.IdsOk(s) && IsResult(obj) && Live(s.slot.home, g)
    ensures Ledger(s, HomeFrame(g, Acp(Some(obj))), OnHomeResult(s, g, obj))
  {
    hide Ledger, HubIds.IdsOk, BeginLoads, FinishSuccessor, AfterLoad, OnForwardedResult, FailIncoming, RoleOf, CandidateAt,
      Live;
    var event := HomeFrame(g, Acp(Some(obj)));
    var s' := OnHomeResult(s, g, obj);
    var id := AsNat(Id(obj));
    if id.Some? && id.value in s.outstanding {
      var s1 := s.(outstanding := s.outstanding - {id.value});
      ShrunkIds(s, id.value);
      match s.outstanding[id.value] {
        case Forwarded(phone, origin) =>
          ForwardedSame(s1, g, obj, phone, origin);
          ForwardedNext(s1, g, obj, phone, origin);
          SameLedger(s1, event, s');
        case HubInitialize =>
          SameLedger(s1, event, s1);
          SameLedger(s1, event, s1.(slot := FailIncoming(s.slot, g)));
          FinishLedger(s1, event, g, id.value);
          if s.book.watchers.Keys != {} {
            LoadsLedger(s1, event, g);
          }
        case HubLoad =>
          SameLedger(s1, event, s1);
          FinishLedger(s1, event, g, id.value);
      }
      RemoveLedger(s, event, id.value, s');
    } else {
      SameLedger(s, event, s');
    }
  }

  lemma ForwardedNext(s: State, g: Gen, obj: Object, phone: PhoneId, origin: Value)
    ensures OnForwardedResult(s, g, obj, phone, origin).nextReq == s.nextReq
  {
  }

  lemma {:induction false} AskAllNext(s: State, obj: Object, claim: ReqId, order: seq<PhoneId>)
    ensures AskAll(s, obj, claim, order).nextReq == s.nextReq
  {
    if order != [] { AskAllNext(s, obj, claim, order[..|order| - 1]); }
  }

  lemma ReverseNext(s: State, obj: Object, order: seq<PhoneId>)
    requires IsRequest(obj)
    ensures s.nextReq <= OnReverseRequest(s, obj, order).nextReq
  {
    var key := s.nextReq + 1;
    AskAllNext(s.(nextReq := key, book := OpenClaim(s.book, key, Id(obj).value)), obj, key, order);
  }

  lemma RegisteredLedger(s: State, event: Event, g: Gen, ready: bool, version: int, now: int)
    requires HubIds.IdsOk(s) && !event.PhoneText?
    ensures Ledger(s, event, OnRegistered(s, g, ready, version, now))
  {
    hide Ledger, HubIds.IdsOk, FailIncoming, WithIncoming, CandidateAt, BeginInitialize;
    var s1 := s.(slot := s.slot.(refusedVersion := None));
    var s' := OnRegistered(s, g, ready, version, now);
    if s' == BeginInitialize(s1, g) {
      HubIds.ShrinkKeeps(s, s1);
      BeginLedger(s1, event, g);
      SlotLedger(s, s1, event, s');
    } else {
      SameLedger(s, event, s');
    }
  }

  lemma SlotLedger(s: State, s1: State, event: Event, s': State)
    requires s1 == s.(slot := s1.slot) && s1.slot.home == s.slot.home && Ledger(s1, event, s')
    ensures Ledger(s, event, s')
  {
  }

  lemma HomeFrameLedger(s: State, g: Gen, frame: LeaderFrame, order: seq<PhoneId>, now: int)
    requires HubIds.IdsOk(s)
    ensures Ledger(s, HomeFrame(g, frame), OnHomeFrame(s, g, frame, order, now))
  {
    hide Ledger, HubIds.IdsOk, OnRegistered, BeginInitialize, OnReverseRequest, OnHomeResult, OnHomeEof, CandidateAt;
    var event := HomeFrame(g, frame);
    SameLedger(s, event, s);
    match frame
    case Registered(ready, version) => RegisteredLedger(s, event, g, ready, version, now);
    case LeaderReady => BeginLedger(s, event, g);
    case LeaderError => EofLedger(s, event, g);
    case Acp(payload) =>
      if payload.Some? && Live(s.slot.home, g) {
        if IsRequest(payload.value) {
          HubLinks.ReverseSame(s, payload.value, order);
          ReverseNext(s, payload.value, order);
          SameLedger(s, event, OnReverseRequest(s, payload.value, order));
        } else if IsNotification(payload.value) {
          SameLedger(s, event, OnHomeNotification(s, payload.value));
        } else if IsResult(payload.value) {
          ResultLedger(s, g, payload.value);
        }
      }
    case Pong =>
    case OtherFrame =>
  }

  lemma EofLedger(s: State, event: Event, g: Gen)
    ensures Ledger(s, event, OnHomeEof(s, g))
  {
    hide Ledger;
    SameLedger(s, event, OnHomeEof(s, g));
  }

  // ----- Requests of phones

  /** The texts put on the phone's channel in answer to a request the hub does not forward. */
  predicate LocalAnswer(origin: Value, added: seq<ToPhone>) {
    || (|added| == 1 && added[0].Failure? && added[0].id == origin)
    || added == [InitializeResult(origin)]
    || added == [InitializeResult(origin), HostAway(true)]
  }

  ghost predicate AnsweredHere(s: State, s': State, phone: PhoneId, origin: Value) {
    && s'.links == s.links && s'.outstanding == s.outstanding && s'.nextReq == s.nextReq
    && phone in s'.texts
    && exists added ::
         LocalAnswer(origin, added) && s'.texts == s.texts[phone := Sent(s.texts, phone) + added]
  }

  /** The requests the hub answers itself: these two methods, those about sessions, except closing one, of a
      phone that has not initialized, and all while no link is served. */
  predicate KeptHere(s: State, phone: PhoneId, name: string) {
    || name == "initialize" || name == "authenticate"
    || ("session/" <= name && name != "session/close"
        && !(phone in s.book.phones && s.book.phones[phone] == Initialized))
    || MuxGen(s.slot.home) == None
  }

  lemma SaidHere(s: State, phone: PhoneId, text: ToPhone)
    requires phone in s.book.phones && text.Failure?
    ensures AnsweredHere(s, Say(s, phone, text), phone, text.id)
  {
    assert LocalAnswer(text.id, [text]);
  }

  lemma InitializedHere(s: State, phone: PhoneId, id: Value)
    requires phone in s.book.phones
    ensures AnsweredHere(s, AnswerInitialize(s, phone, id), phone, id)
  {
    var s' := AnswerInitialize(s, phone, id);
    if HomeAway(s.slot.home) {
      var added := [InitializeResult(id), HostAway(true)];
      assert LocalAnswer(id, added);
      assert Sent(s.texts, phone) + [InitializeResult(id)] + [HostAway(true)] == Sent(s.texts, phone) + added;
      assert s'.texts == s.texts[phone := Sent(s.texts, phone) + added];
    } else {
      assert LocalAnswer(id, [InitializeResult(id)]);
    }
  }

  lemma SubscribePhones(s: State, phone: PhoneId, obj: Object, heirs: map<SessionId, PhoneId>)
    requires Closes(obj).Some? ==> HeirOk(s.book, phone, Closes(obj).value, heirs)
    ensures Subscribe(s.book, phone, obj, heirs).phones == s.book.phones
  {
  }

  lemma AwayErrorHere(s: State, book: Book, phone: PhoneId, origin: Value, obj: Object)
    requires HomeAway(s.slot.home) && phone in s.book.phones && book.phones == s.book.phones
    ensures AnsweredHere(s, ForwardRequest(s.(book := book), phone, origin, obj), phone, origin)
  {
    SaidHere(s, phone, AwayError(s.slot.refusedVersion, origin));
  }

  /** Every request of a connected phone is answered right here by exactly one answer under its id,
      or forwarded on the served link under a fresh id; never both, never neither. */
  lemma RequestAnsweredOrForwarded(s: State, phone: PhoneId, obj: Object, heirs: map<SessionId, PhoneId>)
    requires "id" in obj && "method" in obj && obj["method"].Str? && phone in s.book.phones
    requires Closes(obj).Some? ==> HeirOk(s.book, phone, Closes(obj).value, heirs)
    ensures var s' := OnPhoneText(s, phone, Some(obj), heirs);
            if KeptHere(s, phone, obj["method"].s) then AnsweredHere(s, s', phone, obj["id"])
            else ForwardedHere(s, PhoneText(phone, Some(obj)), s', phone, obj["id"], s.nextReq + 1)
                 && s'.nextReq == s.nextReq + 1
  {
    hide AnsweredHere, HeirOk, Subscribe, AnswerInitialize, Say;
    SubscribePhones(s, phone, obj, heirs);
    InitializedHere(s, phone, Id(obj).value);
    SaidHere(s, phone, Failure(Id(obj).value, -32601, "Method not found"));
    SaidHere(s, phone, Uninitialized(Id(obj).value));
    if HomeAway(s.slot.home) {
      AwayErrorHere(s, Subscribe(s.book, phone, obj, heirs), phone, Id(obj).value, obj);
    }
  }

  /** What a phone is told about a request that is not forwarded. */
  function AnswerTo(s: State, phone: PhoneId, name: string, origin: Value): seq<ToPhone> {
    if name == "initialize" then
      [InitializeResult(origin)] + if MuxGen(s.slot.home) == None then [HostAway(true)] else []
    else if name == "authenticate" then [Failure(origin, -32601, "Method not found")]
    else if "session/" <= name && name != "session/close"
            && !(phone in s.book.phones && s.book.phones[phone] == Initialized)
    then [Failure(origin, -32600, "phone has not initialized")]
    else [Failure(origin, -32003,
                  match s.slot.refusedVersion
                  case Some(version) => "host is away (unsupported leader protocol version " + Decimal(version) + ")"
                  case None => "host is away")]
  }

  /** A request that is not forwarded gets the answer its method and the state call for. */
  lemma AnswersByMethod(s: State, phone: PhoneId, obj: Object, heirs: map<SessionId, PhoneId>)
    requires "id" in obj && "method" in obj && obj["method"].Str? && phone in s.book.phones
    requires Closes(obj).Some? ==> HeirOk(s.book, phone, Closes(obj).value, heirs)
    requires KeptHere(s, phone, obj["method"].s)
    ensures OnPhoneText(s, phone, Some(obj), heirs).texts
            == s.texts[phone := Sent(s.texts, phone) + AnswerTo(s, phone, obj["method"].s, obj["id"])]
  {
    hide HeirOk, Subscribe, AnswerInitialize, Closes, OnPhoneRequest, ForwardRequest;
    SubscribePhones(s, phone, obj, heirs);
    InitializeTexts(s, phone, obj["id"]);
    if HomeAway(s.slot.home) {
      AwaySaid(s, Subscribe(s.book, phone, obj, heirs), phone, obj["id"], obj);
    }
    RequestTexts(s, phone, obj, heirs);
  }

  lemma AwaySaid(s: State, book: Book, phone: PhoneId, origin: Value, obj: Object)
    requires HomeAway(s.slot.home) && phone in s.book.phones && book.phones == s.book.phones
    ensures ForwardRequest(s.(book := book), phone, origin, obj).texts
            == s.texts[phone := Sent(s.texts, phone) + [AwayError(s.slot.refusedVersion, origin)]]
  {
  }

  /** The arms of a request, as far as the phone's channel goes. */
  lemma RequestTexts(s: State, phone: PhoneId, obj: Object, heirs: map<SessionId, PhoneId>)
    requires IsRequest(obj) && phone in s.book.phones
    requires Closes(obj).Some? ==> HeirOk(s.book, phone, Closes(obj).value, heirs)
    ensures var name, id, book := Method(obj).value, Id(obj).value, Subscribe(s.book, phone, obj, heirs);
            OnPhoneRequest(s, phone, obj, heirs).texts ==
            if name == "initialize" then AnswerInitialize(s, phone, id).texts
            else if name == "authenticate" then
              s.texts[phone := Sent(s.texts, phone) + [Failure(id, -32601, "Method not found")]]
            else if NeedsInitialized(name) && !PhoneReady(s.book, phone) then
              s.texts[phone := Sent(s.texts, phone) + [Uninitialized(id)]]
            else ForwardRequest(s.(book := book), phone, id, obj).texts
  {
    hide HeirOk, Subscribe, AnswerInitialize, Closes, ForwardRequest, NeedsInitialized, PhoneReady;
  }

  /** Of all requests only `initialize` changes which phones are ready: it makes its own phone so. */
  lemma OnlyInitializeReadies(s: State, phone: PhoneId, obj: Object, heirs: map<SessionId, PhoneId>)
    requires "id" in obj && "method" in obj && obj["method"].Str? && phone in s.book.phones
    requires Closes(obj).Some? ==> HeirOk(s.book, phone, Closes(obj).value, heirs)
    ensures OnPhoneText(s, phone, Some(obj), heirs).book.phones
            == if obj["method"].s == "initialize" then s.book.phones[phone := Initialized] else s.book.phones
  {
    hide HeirOk, Subscribe, AnswerInitialize, Closes;
    SubscribePhones(s, phone, obj, heirs);
    InitializeTexts(s, phone, obj["id"]);
  }

  lemma InitializeTexts(s: State, phone: PhoneId, id: Value)
    requires phone in s.book.phones
    ensures AnswerInitialize(s, phone, id).texts
            == s.texts[phone := Sent(s.texts, phone) + AnswerTo(s, phone, "initialize", id)]
    ensures AnswerInitialize(s, phone, id).book == s.book.(phones := s.book.phones[phone := Initialized])
  {
    var answer := Sent(s.texts, phone) + [InitializeResult(id)];
    if HomeAway(s.slot.home) {
      assert answer + [HostAway(true)] == Sent(s.texts, phone) + ([InitializeResult(id)] + [HostAway(true)]);
      assert AnswerInitialize(s, phone, id).texts == s.texts[phone := answer + [HostAway(true)]];
    } else {
      assert [InitializeResult(id)] + [] == [InitializeResult(id)];
    }
  }

  lemma RequestLedger(s: State, event: Event, s': State, phone: PhoneId, origin: Value)
    requires HubIds.IdsOk(s) && s.nextReq <= s'.nextReq
    requires AnsweredHere(s, s', phone, origin)
             || (ForwardedHere(s, event, s', phone, origin, s.nextReq + 1) && s'.nextReq == s.nextReq + 1)
    ensures Ledger(s, event, s')
  {
    hide HubIds.NeverReused, HubIds.Asked, LocalAnswer;
  }

  lemma PhoneTextLedger(s: State, phone: PhoneId, text: Option<Object>, heirs: map<SessionId, PhoneId>)
    requires HubIds.IdsOk(s)
    requires text.Some? && Closes(text.value).Some? ==> HeirOk(s.book, phone, Closes(text.value).value, heirs)
    ensures Ledger(s, PhoneText(phone, text), OnPhoneText(s, phone, text, heirs))
  {
    hide Ledger, HubIds.IdsOk, OnPhoneRequest, HeirOk, AnsweredHere, ForwardedHere;
    var event := PhoneText(phone, text);
    var s' := OnPhoneText(s, phone, text, heirs);
    if phone in s.book.phones && text.Some? && IsRequest(text.value) {
      RequestAnsweredOrForwarded(s, phone, text.value, heirs);
      NextOf(s, s', phone, Id(text.value).value);
      RequestLedger(s, event, s', phone, Id(text.value).value);
    } else {
      SameLedger(s, event, s');
    }
  }

  lemma NextOf(s: State, s': State, phone: PhoneId, origin: Value)
    ensures AnsweredHere(s, s', phone, origin) ==> s'.nextReq == s.nextReq
  {
  }

  lemma StepLedger(s: State, l: Label)
    requires HubIds.IdsOk(s) && Legal(s, l)
    ensures Ledger(s, l.event, Step(s, l))
  {
    hide Ledger, HubIds.IdsOk, OnHomeFrame, OnPhoneText, DropPhone, OnHomeEof, Accept, DropIncoming;
    match l.event
    case Accepted => AcceptLedger(s, l);
    case HomeFrame(g, frame) => HomeFrameLedger(s, g, frame, l.choice.order, l.now);
    case HomeEof(g) => EofLedger(s, l.event, g);
    case PhoneText(phone, text) => PhoneTextLedger(s, phone, text, l.choice.heirs);
    case PhoneEof(phone) => SameLedger(s, l.event, Step(s, l));
    case PhoneHello => SameLedger(s, l.event, Step(s, l));
    case DeadlinePassed => SameLedger(s, l.event, Step(s, l));
  }

  lemma AcceptLedger(s: State, l: Label)
    ensures Ledger(s, l.event, Accept(s, l.now))
  {
    hide Ledger, AcceptSlot;
    SameLedger(s, l.event, Accept(s, l.now));
  }
}

/** What phones have been told about the host being away is always what is so. */
module HubAway {
  import opened Json
  import opened SessionOrder
  import opened PendingLoads
  import opened HubState
  import opened HubSteps
  import HubSubscriptions

  /** What the last host-away note among these texts says; no note at all says "not away". */
  function LastAway(texts: seq<ToPhone>): bool {
    if texts == [] then false
    else
      var last := texts[|texts| - 1];
      if last.HostAway? then last.away else LastAway(texts[..|texts| - 1])
  }

  lemma LastAwayAppend(texts: seq<ToPhone>, text: ToPhone)
    ensures LastAway(texts + [text]) == if text.HostAway? then text.away else LastAway(texts)
  {
    assert (texts + [text])[..|texts|] == texts;
  }

  ghost predicate Told(phones: map<PhoneId, Phone>, texts: map<PhoneId, seq<ToPhone>>, away: bool) {
    forall p :: p in phones ==> p in texts && LastAway(texts[p]) == (phones[p].Initialized? && away)
  }

  /** Every initialized phone has last been told whether the host is away, and it is so that the
      host is away exactly when no link is served. */
  ghost predicate AwayAgrees(s: State) {
    && Told(s.book.phones, s.texts, HomeAway(s.slot.home))
    && (HomeAway(s.slot.home) <==> MuxGen(s.slot.home).None?)
  }

  lemma SayKeeps(s: State, phone: PhoneId, text: ToPhone)
    requires AwayAgrees(s) && !text.HostAway?
    ensures AwayAgrees(Say(s, phone, text))
  {
    LastAwayAppend(Sent(s.texts, phone), text);
  }

  lemma SayAllKeeps(s: State, phones: set<PhoneId>, text: ToPhone)
    requires AwayAgrees(s) && !text.HostAway?
    ensures AwayAgrees(SayAll(s, phones, text))
  {
    forall p | p in s.book.phones ensures LastAway(SayAll(s, phones, text).texts[p]) == LastAway(s.texts[p]) {
      LastAwayAppend(s.texts[p], text);
    }
  }

  /** A broadcast makes the claim true for everybody who is initialized. */
  lemma BroadcastTells(s: State, before: bool, away: bool)
    requires Told(s.book.phones, s.texts, before)
    ensures Told(s.book.phones, Broadcast(s, away).texts, away)
  {
    forall p | p in s.book.phones
      ensures p in Broadcast(s, away).texts
      ensures LastAway(Broadcast(s, away).texts[p]) == (s.book.phones[p].Initialized? && away)
    {
      LastAwayAppend(s.texts[p], HostAway(away));
    }
  }

  lemma FinishKeeps(s: State, g: Gen)
    requires AwayAgrees(s) && CandidateAt(s.slot.home, g).Some?
    ensures AwayAgrees(FinishSuccessor(s, g))
  {
    hide Broadcast, Told;
    BroadcastTells(s.(slot := s.slot.(home := Sole(g))), HomeAway(s.slot.home), false);
    BroadcastFrame(s.(slot := s.slot.(home := Sole(g))), false);
  }

  lemma BroadcastFrame(s: State, away: bool)
    ensures Broadcast(s, away) == s.(texts := Broadcast(s, away).texts)
  {
  }

  lemma EofKeeps(s: State, g: Gen)
    requires AwayAgrees(s)
    ensures AwayAgrees(OnHomeEof(s, g))
  {
    hide Broadcast, Told;
    BroadcastTells(s.(slot := LoseMux(s.slot, g)), HomeAway(s.slot.home), true);
    BroadcastFrame(s.(slot := LoseMux(s.slot, g)), true);
  }

  lemma InitializeKeeps(s: State, phone: PhoneId, id: Value)
    requires AwayAgrees(s)
    ensures AwayAgrees(AnswerInitialize(s, phone, id))
  {
    if phone in s.book.phones {
      var t1 := s.texts[phone] + [InitializeResult(id)];
      LastAwayAppend(s.texts[phone], InitializeResult(id));
      LastAwayAppend(t1, HostAway(true));
    }
  }

  lemma {:induction false} AskAllKeeps(s: State, obj: Object, claim: ReqId, order: seq<PhoneId>)
    requires AwayAgrees(s)
    ensures AwayAgrees(AskAll(s, obj, claim, order))
    ensures AskAll(s, obj, claim, order).book.phones == s.book.phones
  {
    if order != [] {
      var s1 := AskAll(s, obj, claim, order[..|order| - 1]);
      AskAllKeeps(s, obj, claim, order[..|order| - 1]);
      SayKeeps(s1.(book := AskBook(s1.book, claim, order[|order| - 1])), order[|order| - 1],
               FromHome(SetId(obj, QuestionId(s1.book.reverseSeq + 1))));
    }
  }

  lemma ReverseKeeps(s: State, obj: Object, order: seq<PhoneId>)
    requires AwayAgrees(s) && IsRequest(obj)
    ensures AwayAgrees(OnReverseRequest(s, obj, order))
  {
    hide AskAll;
    var key := s.nextReq + 1;
    AskAllKeeps(s.(nextReq := key, book := OpenClaim(s.book, key, Id(obj).value)), obj, key, order);
  }

  lemma SubscribePhones(b: Book, phone: PhoneId, obj: Object, heirs: map<SessionId, PhoneId>)
    requires Closes(obj).Some? ==> HeirOk(b, phone, Closes(obj).value, heirs)
    ensures Subscribe(b, phone, obj, heirs).phones == b.phones
  {
  }

  lemma RequestKeeps(s: State, phone: PhoneId, obj: Object, heirs: map<SessionId, PhoneId>)
    requires AwayAgrees(s) && IsRequest(obj)
    requires Closes(obj).Some? ==> HeirOk(s.book, phone, Closes(obj).value, heirs)
    ensures AwayAgrees(OnPhoneRequest(s, phone, obj, heirs))
  {
    hide Told, Subscribe, AnswerInitialize, Say, HeirOk, NeedsInitialized;
    var id := Id(obj).value;
    InitializeKeeps(s, phone, id);
    SubscribePhones(s.book, phone, obj, heirs);
    var s1 := s.(book := Subscribe(s.book, phone, obj, heirs));
    SayKeeps(s, phone, Failure(id, -32601, "Method not found"));
    SayKeeps(s, phone, Uninitialized(id));
    SayKeeps(s1, phone, AwayError(s1.slot.refusedVersion, id));
  }

  lemma ResultKeeps(s: State, g: Gen, obj: Object)
    requires AwayAgrees(s)
    ensures AwayAgrees(OnHomeResult(s, g, obj))
  {
    hide Told, FinishSuccessor, BeginLoads, Watch, Say, FailIncoming;
    var id := AsNat(Id(obj));
    if id.Some? && id.value in s.outstanding {
      var s1 := s.(outstanding := s.outstanding - {id.value});
      match s.outstanding[id.value]
      case Forwarded(phone, origin) =>
        HubSubscriptions.WatchPhones(s.book, phone, SessionIn(obj));
        SayKeeps(s1, phone, FromHome(SetId(obj, origin)));
        if SessionIn(obj).Some? {
          SayKeeps(s1.(book := Watch(s.book, phone, SessionIn(obj).value)), phone, FromHome(SetId(obj, origin)));
        }
      case HubInitialize =>
        DropKeeps(s1, g);
        if CandidateAt(s.slot.home, g).Some? { FinishKeeps(s1, g); BeginLoadsFrame(s1, g); }
      case HubLoad =>
        if CandidateAt(s.slot.home, g).Some? { FinishKeeps(s1, g); }
    }
  }

  lemma BeginLoadsFrame(s: State, g: Gen)
    ensures s.book.watchers.Keys != {} ==>
              var s' := BeginLoads(s, g);
              s'.book == s.book && s'.texts == s.texts
              && HomeAway(s'.slot.home) == HomeAway(s.slot.home)
              && MuxGen(s'.slot.home) == MuxGen(s.slot.home)
  {
  }

  lemma DropKeeps(s: State, g: Gen)
    requires AwayAgrees(s)
    ensures AwayAgrees(s.(slot := FailIncoming(s.slot, g)))
    ensures AwayAgrees(s.(slot := DropIncoming(s.slot)))
  {
  }

  lemma HomeFrameKeeps(s: State, g: Gen, frame: LeaderFrame, order: seq<PhoneId>, now: int)
    requires AwayAgrees(s)
    ensures AwayAgrees(OnHomeFrame(s, g, frame, order, now))
  {
    hide Told, OnHomeEof, OnReverseRequest, OnHomeResult, SayAll, FailIncoming;
    match frame
    case Registered(ready, version) =>
      DropKeeps(s.(slot := s.slot.(refusedVersion := Some(version))), g);
    case LeaderReady =>
    case LeaderError => EofKeeps(s, g);
    case Acp(payload) =>
      if payload.Some? {
        var obj := payload.value;
        if IsRequest(obj) {
          ReverseKeeps(s, obj, order);
        } else if IsNotification(obj) {
          if SessionIn(obj).Some? { SayAllKeeps(s, Watching(s.book, SessionIn(obj).value), FromHome(obj)); }
        } else if IsResult(obj) {
          ResultKeeps(s, g, obj);
        }
      }
    case Pong =>
    case OtherFrame =>
  }

  lemma PhoneTextKeeps(s: State, phone: PhoneId, text: Option<Object>, heirs: map<SessionId, PhoneId>)
    requires AwayAgrees(s)
    requires text.Some? && Closes(text.value).Some? ==> HeirOk(s.book, phone, Closes(text.value).value, heirs)
    ensures AwayAgrees(OnPhoneText(s, phone, text, heirs))
  {
    hide Told, OnPhoneRequest, Say, HeirOk;
    SayKeeps(s, phone, Failure(Null, -32700, "Parse error"));
    if text.Some? && IsRequest(text.value) { RequestKeeps(s, phone, text.value, heirs); }
  }

  lemma PhoneEofKeeps(s: State, phone: PhoneId, heirs: map<SessionId, PhoneId>)
    requires AwayAgrees(s)
    requires forall session :: session in s.book.driver ==> HeirOk(s.book, phone, session, heirs)
    ensures AwayAgrees(s.(book := DropPhone(s.book, phone, heirs)))
  {
  }

  lemma HelloKeeps(s: State)
    requires AwayAgrees(s) && HubSubscriptions.PhonesNumbered(s.book)
    ensures AwayAgrees(OnPhoneHello(s))
  {
  }

  /** Host-away agreement survives every event: accept, failure, timeout, end of a link, cutover and
      a repeated initialize. */
  lemma StepKeepsAway(s: State, l: Label)
    requires AwayAgrees(s) && Legal(s, l) && HubSubscriptions.PhonesNumbered(s.book)
    ensures AwayAgrees(Step(s, l))
  {
    hide Told, OnHomeFrame, OnPhoneText, DropPhone, AddPhone, OnHomeEof, OnPhoneHello, HubSubscriptions.PhonesNumbered;
    match l.event
    case Accepted =>
    case HomeFrame(g, frame) => HomeFrameKeeps(s, g, frame, l.choice.order, l.now);
    case HomeEof(g) => EofKeeps(s, g);
    case PhoneText(phone, text) => PhoneTextKeeps(s, phone, text, l.choice.heirs);
    case PhoneEof(phone) => PhoneEofKeeps(s, phone, l.choice.heirs);
    case PhoneHello => HelloKeeps(s);
    case DeadlinePassed => DropKeeps(s, 0);
  }
}

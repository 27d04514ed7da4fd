/** Updates and questions from home: who gets them, and that the first answer to a question is the
    only one that goes home. */
module HubQuestions {
  import opened Json
  import opened SessionOrder
  import opened PendingLoads
  import opened HubState
  import opened HubSteps
  import opened HubSubscriptions
  import opened HubRuns
  import opened HubRequests
  import HubLinks
  import HubIds
  import HubTexts
  import HubWatching
  import HubLoops

  // ----- Fan-out

  /** A session update from the served link puts one copy on the channel of each watcher of the
      session, and does nothing else. */
  lemma UpdateReachesWatchers(s: State, l: Label, obj: Object, session: SessionId)
    requires Legal(s, l) && Subscribed(s.book)
    requires MuxGen(s.slot.home).Some? && l.event == HomeFrame(MuxGen(s.slot.home).value, Acp(Some(obj)))
    requires "id" !in obj && "method" in obj && obj["method"] in {Str("session/update"), Str("_session/update")}
    requires AboutSession(obj, session)
    ensures var s' := Step(s, l);
            && s' == s.(texts := s'.texts)
            && (forall p :: p in Watching(s.book, session) ==> Sent(s'.texts, p) == Sent(s.texts, p) + [FromHome(obj)])
            && (forall p :: p !in Watching(s.book, session) ==> Sent(s'.texts, p) == Sent(s.texts, p))
  {
    hide SessionIn, AboutSession, Unwrapped, OnReverseRequest, OnHomeResult, OnRegistered, OnHomeEof;
    SessionIs(obj, session);
    UpdateNames(obj["method"].s);
    assert Driven(s.book, session);
  }

  /** Any other notification, and a request that names no session, changes nothing. */
  lemma NothingToPassOn(s: State, l: Label, g: Gen, obj: Object)
    requires Legal(s, l) && l.event == HomeFrame(g, Acp(Some(obj))) && "method" in obj && obj["method"].Str?
    requires (forall session :: !AboutSession(obj, session))
             || ("id" !in obj && obj["method"] != Str("session/update") && obj["method"] != Str("_session/update"))
    ensures Step(s, l) == s
  {
    hide SessionIn, AboutSession, Unwrapped;
    if SessionIn(obj).Some? { SessionIs(obj, SessionIn(obj).value); }
    UpdateNames(obj["method"].s);
  }

  /** A candidate's requests and notifications reach nobody. */
  lemma CandidateIsNotHeard(s: State, l: Label, g: Gen, obj: Object)
    requires Legal(s, l) && l.event == HomeFrame(g, Acp(Some(obj))) && MuxGen(s.slot.home) != Some(g)
    requires Method(obj).Some?
    ensures Step(s, l) == s
  {
  }

  /** The copy of a question for the i-th phone asked. */
  function Copy(obj: Object, seqNo: int): ToPhone {
    FromHome(obj["id" := Str("aq:" + Decimal(seqNo))])
  }

  ghost predicate Distinct(order: seq<PhoneId>) {
    forall i, j :: 0 <= i < j < |order| ==> order[i] != order[j]
  }

  lemma {:induction false} AskAllCounts(s: State, obj: Object, claim: ReqId, order: seq<PhoneId>)
    ensures var b := AskAll(s, obj, claim, order).book;
            b.phones == s.book.phones && b.claims == s.book.claims && b.reverseSeq == s.book.reverseSeq + |order|
  {
    hide QuestionId;
    if order != [] { AskAllCounts(s, obj, claim, order[..|order| - 1]); }
  }

  /** The i-th phone asked gets the copy with the i-th new number, and nothing else. */
  lemma {:induction false} AskAllAt(s: State, obj: Object, claim: ReqId, order: seq<PhoneId>, i: nat)
    requires Distinct(order) && i < |order| && forall p :: p in order ==> p in s.book.phones
    ensures var s', n := AskAll(s, obj, claim, order), s.book.reverseSeq + 1 + i;
            && Sent(s'.texts, order[i]) == Sent(s.texts, order[i]) + [Copy(obj, n)]
            && (order[i], QuestionId(n)) in s'.book.reverse && s'.book.reverse[(order[i], QuestionId(n))] == claim
  {
    hide QuestionId, Copy, Ask;
    var front, last := order[..|order| - 1], order[|order| - 1];
    var s1 := AskAll(s, obj, claim, front);
    AskAllCounts(s, obj, claim, front);
    assert last in order;
    AskOneCopy(s1, obj, claim, last);
    if i < |front| {
      AskAllAt(s, obj, claim, front, i);
      assert front[i] == order[i] && order[i] != last;
    } else {
      AskAllOthers(s, obj, claim, front, last);
    }
  }

  lemma {:induction false} AskAllOthers(s: State, obj: Object, claim: ReqId, order: seq<PhoneId>, p: PhoneId)
    requires p !in order
    ensures Sent(AskAll(s, obj, claim, order).texts, p) == Sent(s.texts, p)
  {
    hide QuestionId;
    if order != [] {
      assert p !in order[..|order| - 1] && order[|order| - 1] in order;
      AskAllOthers(s, obj, claim, order[..|order| - 1], p);
    }
  }

  ghost predicate IsNewKey(key: (PhoneId, Value), order: seq<PhoneId>, base: int) {
    exists i :: 0 <= i < |order| && key == (order[i], QuestionId(base + 1 + i))
  }

  /** An open id leads where it did, or is one of the new ones and leads to the claim. */
  lemma {:induction false} AskAllKey(s: State, obj: Object, claim: ReqId, order: seq<PhoneId>, key: (PhoneId, Value))
    requires key in AskAll(s, obj, claim, order).book.reverse
    ensures var reverse := AskAll(s, obj, claim, order).book.reverse;
            || (key in s.book.reverse && reverse[key] == s.book.reverse[key])
            || (reverse[key] == claim && IsNewKey(key, order, s.book.reverseSeq))
  {
    hide QuestionId;
    if order != [] {
      var n := |order| - 1;
      AskAllCounts(s, obj, claim, order[..n]);
      if key != (order[n], QuestionId(s.book.reverseSeq + 1 + n)) {
        AskAllKey(s, obj, claim, order[..n], key);
        if IsNewKey(key, order[..n], s.book.reverseSeq) {
          var i :| 0 <= i < n && key == (order[..n][i], QuestionId(s.book.reverseSeq + 1 + i));
          assert key == (order[i], QuestionId(s.book.reverseSeq + 1 + i));
        }
      }
    }
  }

  lemma AskOneCopy(s: State, obj: Object, claim: ReqId, phone: PhoneId)
    requires phone in s.book.phones
    ensures var s', n := Ask(s, obj, claim, phone), s.book.reverseSeq + 1;
            && s'.book == AskBook(s.book, claim, phone)
            && s'.texts == s.texts[phone := Sent(s.texts, phone) + [Copy(obj, n)]]
  {
  }

  lemma ReverseReachesTargets(s: State, obj: Object, session: SessionId, order: seq<PhoneId>)
    requires Subscribed(s.book) && IsRequest(obj) && SessionIn(obj) == Some(session)
    requires Enumerates(order, Targets(s.book, Method(obj).value, session))
    ensures var s', targets, key := OnReverseRequest(s, obj, order), Targets(s.book, Method(obj).value, session), s.nextReq + 1;
            && (targets == {} ==> s' == s)
            && (targets != {} ==>
                  s' == s.(nextReq := key, texts := s'.texts,
                           book := s.book.(claims := s.book.claims[key := Open(Id(obj).value)],
                                           reverse := s'.book.reverse, reverseSeq := s'.book.reverseSeq)))
            && (forall p :: p !in targets ==> Sent(s'.texts, p) == Sent(s.texts, p))
            && (forall p :: p in targets ==> WasAskedOnce(s, s', obj, p, key))
  {
    hide Subscribed, Targets, AskAll, QuestionId, SessionIn, Copy;
    var targets := Targets(s.book, Method(obj).value, session);
    var key := s.nextReq + 1;
    var s1 := s.(nextReq := key, book := OpenClaim(s.book, key, Id(obj).value));
    var s' := AskAll(s1, obj, key, order);
    TargetsReady(s.book, Method(obj).value, session);
    AskAllCounts(s1, obj, key, order);
    HubLoops.AskedSame(s1, obj, key, order);
    forall p | p !in targets ensures Sent(s'.texts, p) == Sent(s.texts, p) {
      AskAllOthers(s1, obj, key, order, p);
    }
    forall p | p in targets ensures WasAskedOnce(s, s', obj, p, key) {
      var i :| 0 <= i < |order| && order[i] == p;
      AskAllAt(s1, obj, key, order, i);
    }
  }

  /** Exactly one text more, the question under a new number, which leads to the claim. */
  ghost predicate WasAskedOnce(s: State, s': State, obj: Object, p: PhoneId, claim: ReqId) {
    exists n ::
      && s.book.reverseSeq < n <= s'.book.reverseSeq
      && Sent(s'.texts, p) == Sent(s.texts, p) + [Copy(obj, n)]
      && (p, QuestionId(n)) in s'.book.reverse && s'.book.reverse[(p, QuestionId(n))] == claim
  }

  /** The questions every watcher of their session is asked. */
  predicate IsForEveryone(name: string) {
    || name == "session/request_permission" || name == "_session/request_permission"
    || name == "x.ai/ask_user_question" || name == "_x.ai/ask_user_question"
    || name == "x.ai/exit_plan_mode" || name == "_x.ai/exit_plan_mode"
    || name == "x.ai/mcp/elicit" || name == "_x.ai/mcp/elicit"
  }

  /** A question from the served link opens one claim and reaches each of its targets once, under an
      id of its own that leads to the claim: every watcher if it is an interaction, the driver alone
      otherwise. Nobody else hears of it. */
  lemma QuestionReachesTargets(s: State, l: Label, obj: Object, name: string, session: SessionId)
    requires Legal(s, l) && Subscribed(s.book)
    requires MuxGen(s.slot.home).Some? && l.event == HomeFrame(MuxGen(s.slot.home).value, Acp(Some(obj)))
    requires "id" in obj && "method" in obj && obj["method"] == Str(name) && AboutSession(obj, session)
    ensures var s', key := Step(s, l), s.nextReq + 1;
            var targets := if IsForEveryone(name) then Watching(s.book, session)
                           else if session in s.book.driver then {s.book.driver[session]} else {};
            && (targets == {} ==> s' == s)
            && (targets != {} ==>
                  s' == s.(nextReq := key, texts := s'.texts,
                           book := s.book.(claims := s.book.claims[key := Open(obj["id"])],
                                           reverse := s'.book.reverse, reverseSeq := s'.book.reverseSeq)))
            && (forall p :: p !in targets ==> Sent(s'.texts, p) == Sent(s.texts, p))
            && (forall p :: p in targets ==> WasAskedOnce(s, s', obj, p, key))
  {
    hide Subscribed, OnReverseRequest, WasAskedOnce, SessionIn, AboutSession, IsInteraction, OnHomeNotification, OnHomeResult,
      Enumerates;
    SessionIs(obj, session);
    InteractionNames(name);
    ReverseReachesTargets(s, obj, session, l.choice.order);
  }

  // ----- Claims and answers in one step

  /** A phone answers a question, under an id that leads to this claim. */
  ghost predicate Answers(s: State, event: Event, claim: ReqId) {
    && event.PhoneText? && event.phone in s.book.phones && event.text.Some? && IsReply(event.text.value)
    && var key := (event.phone, Id(event.text.value).value);
       key in s.book.reverse && s.book.reverse[key] == claim
  }

  /** The served link asks a question, under a new claim; the phone gets its copy under this id. */
  ghost predicate AskedHere(s: State, event: Event, s': State, key: (PhoneId, Value), claim: ReqId) {
    && event.HomeFrame? && MuxGen(s.slot.home) == Some(event.gen)
    && event.frame.Acp? && event.frame.payload.Some? && IsRequest(event.frame.payload.value)
    && var obj := event.frame.payload.value;
       && claim == s.nextReq + 1 && claim in s'.book.claims && s'.book.claims[claim] == Open(Id(obj).value)
       && Sent(s'.texts, key.0) == Sent(s.texts, key.0) + [FromHome(SetId(obj, key.1))]
  }

  ghost predicate ClaimMoves(s: State, event: Event, s': State) {
    && (forall c :: c in s.book.claims ==>
          && c in s'.book.claims
          && (s'.book.claims[c] == s.book.claims[c] || (s'.book.claims[c].Taken? && Answers(s, event, c))))
    && (forall c :: c in s'.book.claims && c !in s.book.claims ==> s.nextReq < c && s'.book.claims[c].Open?)
    && (forall c :: c in s.book.claims && Answers(s, event, c) ==> s'.book.claims[c].Taken?)
    && (forall key :: key in s'.book.reverse ==>
          (key in s.book.reverse && s'.book.reverse[key] == s.book.reverse[key])
          || AskedHere(s, event, s', key, s'.book.reverse[key]))
  }

  lemma QuietMoves(s: State, event: Event, s': State)
    requires s'.book.claims == s.book.claims && !event.PhoneText?
    requires forall key :: key in s'.book.reverse ==> key in s.book.reverse && s'.book.reverse[key] == s.book.reverse[key]
    ensures ClaimMoves(s, event, s')
  {
  }

  lemma ReverseMoves(s: State, g: Gen, obj: Object, order: seq<PhoneId>)
    requires Subscribed(s.book) && HubIds.IdsOk(s) && IsRequest(obj) && MuxGen(s.slot.home) == Some(g)
    requires SessionIn(obj).Some? ==> Enumerates(order, Targets(s.book, Method(obj).value, SessionIn(obj).value))
    ensures ClaimMoves(s, HomeFrame(g, Acp(Some(obj))), OnReverseRequest(s, obj, order))
  {
    hide Subscribed, Targets, AskAll, QuestionId, SessionIn, HubIds.NeverReused, HubIds.Asked, Copy, AskedHere;
    var event, s' := HomeFrame(g, Acp(Some(obj))), OnReverseRequest(s, obj, order);
    if SessionIn(obj).Some? && Targets(s.book, Method(obj).value, SessionIn(obj).value) != {} {
      TargetsReady(s.book, Method(obj).value, SessionIn(obj).value);
      var key := s.nextReq + 1;
      var s1 := s.(nextReq := key, book := OpenClaim(s.book, key, Id(obj).value));
      AskAllCounts(s1, obj, key, order);
      forall k | k in s'.book.reverse && !(k in s.book.reverse && s'.book.reverse[k] == s.book.reverse[k])
        ensures AskedHere(s, event, s', k, s'.book.reverse[k])
      {
        AskAllKey(s1, obj, key, order, k);
        var i :| 0 <= i < |order| && k == (order[i], QuestionId(s1.book.reverseSeq + 1 + i));
        AskAllAt(s1, obj, key, order, i);
        NewKeyAsked(s, g, obj, s', k, s1.book.reverseSeq + 1 + i);
      }
    }
  }

  lemma NewKeyAsked(s: State, g: Gen, obj: Object, s': State, key: (PhoneId, Value), n: int)
    requires IsRequest(obj) && MuxGen(s.slot.home) == Some(g) && key.1 == QuestionId(n)
    requires s'.book.claims == s.book.claims[s.nextReq + 1 := Open(Id(obj).value)]
    requires Sent(s'.texts, key.0) == Sent(s.texts, key.0) + [Copy(obj, n)]
    ensures AskedHere(s, HomeFrame(g, Acp(Some(obj))), s', key, s.nextReq + 1)
  {
  }

  lemma ResultBook(s: State, g: Gen, obj: Object)
    ensures OnHomeResult(s, g, obj).book.claims == s.book.claims && OnHomeResult(s, g, obj).book.reverse == s.book.reverse
  {
    hide AfterInitialize, AfterLoad, RoleOf, FailIncoming;
    var id := AsNat(Id(obj));
    if id.Some? && id.value in s.outstanding { HubWatching.CutoverSame(s.(outstanding := s.outstanding - {id.value}), g, id.value); }
  }

  lemma HomeFrameMovesClaims(s: State, g: Gen, frame: LeaderFrame, order: seq<PhoneId>, now: int)
    requires Subscribed(s.book) && HubIds.IdsOk(s)
    requires Question(frame).Some? ==>
               var obj := Question(frame).value;
               Enumerates(order, Targets(s.book, Method(obj).value, SessionIn(obj).value))
    ensures ClaimMoves(s, HomeFrame(g, frame), OnHomeFrame(s, g, frame, order, now))
  {
    hide ClaimMoves, Subscribed, HubIds.IdsOk, Enumerates, OnReverseRequest, OnHomeResult;
    var s' := OnHomeFrame(s, g, frame, order, now);
    if frame.Acp? && frame.payload.Some? && IsRequest(frame.payload.value) && RoleOf(s.slot.home, g) == Mux {
      ReverseMoves(s, g, frame.payload.value, order);
    } else {
      if frame.Acp? && frame.payload.Some? && IsResult(frame.payload.value) { ResultBook(s, g, frame.payload.value); }
      QuietMoves(s, HomeFrame(g, frame), s');
    }
  }

  lemma SubscribeBook(b: Book, phone: PhoneId, obj: Object, heirs: map<SessionId, PhoneId>)
    requires Closes(obj).Some? ==> HeirOk(b, phone, Closes(obj).value, heirs)
    ensures var b' := Subscribe(b, phone, obj, heirs); b'.claims == b.claims && b'.reverse == b.reverse
  {
  }

  lemma RequestBook(s: State, phone: PhoneId, obj: Object, heirs: map<SessionId, PhoneId>)
    requires IsRequest(obj) && (Closes(obj).Some? ==> HeirOk(s.book, phone, Closes(obj).value, heirs))
    ensures var b := OnPhoneRequest(s, phone, obj, heirs).book; b.claims == s.book.claims && b.reverse == s.book.reverse
  {
    hide HeirOk, NeedsInitialized, Subscribe, Method, Id;
    SubscribeBook(s.book, phone, obj, heirs);
  }

  /** Neither a claim nor an open id changes. */
  lemma SameMoves(s: State, event: Event, s': State)
    requires s'.book.claims == s.book.claims && s'.book.reverse == s.book.reverse
    requires forall c :: c in s.book.claims ==> !Answers(s, event, c)
    ensures ClaimMoves(s, event, s')
  {
  }

  lemma ReplyBook(s: State, phone: PhoneId, obj: Object)
    requires IsReply(obj)
    ensures var key := (phone, Id(obj).value);
            OnPhoneReply(s, phone, obj).book == if key in s.book.reverse then Answered(s.book, key) else s.book
  {
  }

  lemma ReplyMoves(s: State, phone: PhoneId, obj: Object)
    requires IsReply(obj) && phone in s.book.phones
    ensures ClaimMoves(s, PhoneText(phone, Some(obj)), OnPhoneReply(s, phone, obj))
  {
    hide AskedHere, OnPhoneReply, IsReply, Id;
    ReplyBook(s, phone, obj);
  }

  lemma PhoneTextMovesClaims(s: State, phone: PhoneId, text: Option<Object>, heirs: map<SessionId, PhoneId>)
    requires text.Some? && Closes(text.value).Some? ==> HeirOk(s.book, phone, Closes(text.value).value, heirs)
    ensures ClaimMoves(s, PhoneText(phone, text), OnPhoneText(s, phone, text, heirs))
  {
    hide ClaimMoves, HeirOk, OnPhoneRequest, OnPhoneReply;
    if phone in s.book.phones && text.Some? && IsReply(text.value) {
      ReplyMoves(s, phone, text.value);
    } else {
      if text.Some? && IsRequest(text.value) { RequestBook(s, phone, text.value, heirs); }
      SameMoves(s, PhoneText(phone, text), OnPhoneText(s, phone, text, heirs));
    }
  }

  lemma StepMovesClaims(s: State, l: Label)
    requires Legal(s, l) && Subscribed(s.book) && HubIds.IdsOk(s)
    ensures ClaimMoves(s, l.event, Step(s, l))
  {
    hide ClaimMoves, Subscribed, HubIds.IdsOk, OnHomeFrame, OnPhoneText, OnHomeEof, DropIncoming, AcceptSlot;
    match l.event
    case Accepted => QuietMoves(s, l.event, Step(s, l));
    case HomeFrame(g, frame) => HomeFrameMovesClaims(s, g, frame, l.choice.order, l.now);
    case HomeEof(g) => HubWatching.EofSame(s, g); QuietMoves(s, l.event, Step(s, l));
    case PhoneText(phone, text) => PhoneTextMovesClaims(s, phone, text, l.choice.heirs);
    case PhoneEof(phone) => QuietMoves(s, l.event, Step(s, l));
    case PhoneHello => QuietMoves(s, l.event, Step(s, l));
    case DeadlinePassed => QuietMoves(s, l.event, Step(s, l));
  }

  /** What answering a claim does: the first time, the answer goes to the served link under the
      home's own id; any other time nothing goes home. */
  lemma AnswerGoesHomeOnce(s: State, l: Label, claim: ReqId)
    requires Legal(s, l) && Answers(s, l.event, claim) && claim in s.book.claims
    ensures var s' := Step(s, l);
            && s'.slot == s.slot && s'.outstanding == s.outstanding && s'.texts == s.texts
            && (s.book.claims[claim].Taken? ==> s'.links == s.links && s'.book.claims == s.book.claims)
            && (s.book.claims[claim].Open? ==>
                  s'.links == SendMux(s, FromPhone(SetId(l.event.text.value, s.book.claims[claim].homeId))).links)
  {
  }

  // ----- How long a question stays open

  /** The phone is gone, or answers the question. */
  predicate QuestionEnds(event: Event, key: (PhoneId, Value)) {
    || event == PhoneEof(key.0)
    || (event.PhoneText? && event.phone == key.0 && event.text.Some? && IsReply(event.text.value)
        && Id(event.text.value) == Some(key.1))
  }

  lemma {:induction false} AskAllSpares(s: State, obj: Object, claim: ReqId, order: seq<PhoneId>, key: (PhoneId, Value), n: nat)
    requires key in s.book.reverse && key.1 == QuestionId(n) && n <= s.book.reverseSeq
    ensures var reverse := AskAll(s, obj, claim, order).book.reverse;
            key in reverse && reverse[key] == s.book.reverse[key]
  {
    hide QuestionId;
    if order != [] {
      var front := order[..|order| - 1];
      AskAllSpares(s, obj, claim, front, key, n);
      AskAllCounts(s, obj, claim, front);
      if key.1 == QuestionId(s.book.reverseSeq + |front| + 1) {
        QuestionIdInjective(n, s.book.reverseSeq + |front| + 1);
      }
    }
  }

  /** An id the hub has already given to a question. */
  ghost predicate WasGiven(id: Value, bound: int) {
    exists n: nat :: n <= bound && id == QuestionId(n)
  }

  lemma ReverseSpares(s: State, obj: Object, order: seq<PhoneId>, key: (PhoneId, Value))
    requires WasGiven(key.1, s.book.reverseSeq) && key in s.book.reverse && IsRequest(obj)
    ensures var reverse := OnReverseRequest(s, obj, order).book.reverse;
            key in reverse && reverse[key] == s.book.reverse[key]
  {
    hide AskAll, Targets, SessionIn, QuestionId;
    var n: nat :| n <= s.book.reverseSeq && key.1 == QuestionId(n);
    var claim := s.nextReq + 1;
    AskAllSpares(s.(nextReq := claim, book := OpenClaim(s.book, claim, Id(obj).value)), obj, claim, order, key, n);
  }

  lemma FrameSparesQuestion(s: State, g: Gen, frame: LeaderFrame, order: seq<PhoneId>, now: int, key: (PhoneId, Value))
    requires WasGiven(key.1, s.book.reverseSeq) && key in s.book.reverse
    ensures var reverse := OnHomeFrame(s, g, frame, order, now).book.reverse;
            key in reverse && reverse[key] == s.book.reverse[key]
  {
    hide WasGiven, OnHomeResult, OnReverseRequest, OnRegistered, OnLeaderReady, OnHomeEof, SessionIn, Appended, RoleOf;
    if !frame.Acp? {
      HubWatching.HandlersSame(s, g, frame, order, now);
    } else if frame.payload.Some? {
      var obj := frame.payload.value;
      if IsRequest(obj) {
        ReverseSpares(s, obj, order, key);
      } else if IsResult(obj) {
        ResultBook(s, g, obj);
      }
    }
  }

  lemma TextEndsQuestion(s: State, phone: PhoneId, text: Option<Object>, heirs: map<SessionId, PhoneId>, key: (PhoneId, Value))
    requires text.Some? && Closes(text.value).Some? ==> HeirOk(s.book, phone, Closes(text.value).value, heirs)
    requires key in s.book.reverse && key.0 in s.book.phones
    ensures var reverse := OnPhoneText(s, phone, text, heirs).book.reverse;
            && (key in reverse <==> !QuestionEnds(PhoneText(phone, text), key))
            && (key in reverse ==> reverse[key] == s.book.reverse[key])
  {
    hide HeirOk, OnPhoneRequest, OnPhoneReply;
    if text.Some? && IsRequest(text.value) {
      RequestBook(s, phone, text.value, heirs);
    } else if text.Some? && IsReply(text.value) {
      ReplyBook(s, phone, text.value);
    }
  }

  lemma StepEndsQuestion(s: State, l: Label, key: (PhoneId, Value))
    requires Legal(s, l) && Subscribed(s.book) && key in s.book.reverse && WasGiven(key.1, s.book.reverseSeq)
    ensures var reverse := Step(s, l).book.reverse;
            && (key in reverse <==> !QuestionEnds(l.event, key))
            && (key in reverse ==> reverse[key] == s.book.reverse[key])
  {
    hide WasGiven, WatchersReady, PhonesNumbered, Driven, OnHomeFrame, OnPhoneText, OnHomeEof;
    assert PhoneReady(s.book, key.0);
    match l.event
    case Accepted =>
    case HomeFrame(g, frame) => FrameSparesQuestion(s, g, frame, l.choice.order, l.now, key);
    case HomeEof(g) => HubWatching.EofSame(s, g);
    case PhoneText(phone, text) => TextEndsQuestion(s, phone, text, l.choice.heirs, key);
    case PhoneEof(phone) =>
    case PhoneHello =>
    case DeadlinePassed =>
  }

  // ----- Over a run

  ghost predicate AnswersAt(r: Run, i: nat, claim: ReqId)
    requires i < |r.labels| && |r.states| == |r.labels| + 1
  {
    Answers(r.states[i], r.labels[i].event, claim)
  }

  ghost predicate AskedAt(r: Run, i: nat, key: (PhoneId, Value), claim: ReqId)
    requires i < |r.labels| && |r.states| == |r.labels| + 1
  {
    AskedHere(r.states[i], r.labels[i].event, r.states[i + 1], key, claim)
  }

  lemma ClaimStepOf(r: Run, i: nat)
    requires IsRun(r) && i < |r.labels|
    ensures Good(r.states[i]) && Subscribed(r.states[i].book) && HubIds.IdsOk(r.states[i])
    ensures Legal(r.states[i], r.labels[i]) && r.states[i + 1] == Step(r.states[i], r.labels[i])
    ensures ClaimMoves(r.states[i], r.labels[i].event, r.states[i + 1])
    ensures r.states[i].nextReq <= r.states[i + 1].nextReq
  {
    hide Step, Legal, ClaimMoves, Subscribed, HubLinks.LinksOk, HubTexts.TextsOk, HubIds.IdsOk;
    Reachable(r, i);
    assert StepAt(r, i);
    StepMovesClaims(r.states[i], r.labels[i]);
    StepLedger(r.states[i], r.labels[i]);
  }

  /** A taken claim was answered earlier, and an answered claim stays taken. */
  lemma {:induction false} TakenMeansAnswered(r: Run, i: nat, claim: ReqId)
    requires IsRun(r) && i < |r.states| && claim in r.states[i].book.claims
    ensures r.states[i].book.claims[claim].Taken? <==> exists m :: 0 <= m < i && AnswersAt(r, m, claim)
  {
    hide Step, Legal, Good, Subscribed, HubIds.NeverReused, HubIds.Asked, Answers, AskedHere;
    if i > 0 {
      ClaimStepOf(r, i - 1);
      if claim in r.states[i - 1].book.claims {
        TakenMeansAnswered(r, i - 1, claim);
        assert AnswersAt(r, i - 1, claim) <==> Answers(r.states[i - 1], r.labels[i - 1].event, claim);
      } else {
        forall m | 0 <= m < i ensures !AnswersAt(r, m, claim) { UnopenedUnanswered(r, m, i - 1, claim); }
      }
    }
  }

  /** No phone answers a claim before it is open. */
  lemma UnopenedUnanswered(r: Run, m: nat, i: nat, claim: ReqId)
    requires IsRun(r) && m <= i < |r.labels| && claim !in r.states[i].book.claims
    ensures !AnswersAt(r, m, claim)
  {
    hide Step, Legal, Good, HubIds.NeverReused, HubIds.Asked, ClaimMoves;
    ClaimStepOf(r, m);
    if AnswersAt(r, m, claim) {
      assert claim in r.states[m].book.claims;
      ClaimsStay(r, m, i, claim);
    }
  }

  lemma {:induction false} ClaimsStay(r: Run, m: nat, i: nat, claim: ReqId)
    requires IsRun(r) && m <= i < |r.states| && claim in r.states[m].book.claims
    ensures claim in r.states[i].book.claims
    decreases i
  {
    hide Step, Legal, Good, Subscribed, HubIds.IdsOk, Answers, AskedHere;
    if m < i {
      ClaimsStay(r, m, i - 1, claim);
      ClaimStepOf(r, i - 1);
    }
  }

  /** The home's id in an open claim is the one the claim was opened with. */
  lemma {:induction false} OpenKeepsItsId(r: Run, m: nat, i: nat, claim: ReqId)
    requires IsRun(r) && m <= i < |r.states| && claim in r.states[m].book.claims
    ensures claim in r.states[i].book.claims
    ensures r.states[i].book.claims[claim].Open? ==> r.states[i].book.claims[claim] == r.states[m].book.claims[claim]
    decreases i
  {
    hide Step, Legal, Good, Subscribed, HubIds.IdsOk, Answers, AskedHere;
    if m < i {
      OpenKeepsItsId(r, m, i - 1, claim);
      ClaimStepOf(r, i - 1);
    }
  }

  /** An id still open was asked of its phone, as a copy of the question its claim is for. */
  lemma {:induction false} OpenIdWasAsked(r: Run, i: nat, key: (PhoneId, Value))
    requires IsRun(r) && i < |r.states| && key in r.states[i].book.reverse
    ensures exists m :: 0 <= m < i && AskedAt(r, m, key, r.states[i].book.reverse[key])
  {
    hide Step, Legal, Good, Subscribed, HubIds.IdsOk, Answers, AskedHere;
    if i > 0 {
      ClaimStepOf(r, i - 1);
      if key in r.states[i - 1].book.reverse && r.states[i].book.reverse[key] == r.states[i - 1].book.reverse[key] {
        OpenIdWasAsked(r, i - 1, key);
      } else {
        assert AskedAt(r, i - 1, key, r.states[i].book.reverse[key]);
      }
    }
  }

  /** First answer wins, over every run. An answer of a phone to a question it was asked earlier in
      the run goes to the link served now under the id the home gave that question, if it is the
      first answer of any phone to it; if any phone has answered before, nothing goes home. */
  lemma FirstAnswerWins(r: Run, i: nat, claim: ReqId)
    requires IsRun(r) && i < |r.labels| && AnswersAt(r, i, claim)
    ensures var s, s', obj := r.states[i], r.states[i + 1], r.labels[i].event.text.value;
            exists m ::
              && 0 <= m < i && AskedAt(r, m, (r.labels[i].event.phone, Id(obj).value), claim)
              && s'.links ==
                   if exists k :: 0 <= k < i && AnswersAt(r, k, claim) then s.links
                   else SendMux(s, FromPhone(SetId(obj, Id(r.labels[m].event.frame.payload.value).value))).links
  {
    hide Step, Legal, Good, HubIds.IdsOk, ClaimMoves;
    ClaimStepOf(r, i);
    var key := (r.labels[i].event.phone, Id(r.labels[i].event.text.value).value);
    OpenIdWasAsked(r, i, key);
    var m :| 0 <= m < i && AskedAt(r, m, key, claim);
    TakenMeansAnswered(r, i, claim);
    OpenKeepsItsId(r, m + 1, i, claim);
    AnswerGoesHomeOnce(r.states[i], r.labels[i], claim);
  }

  lemma SendMuxReaches(s: State, message: ToHome, g: Gen)
    ensures var s' := SendMux(s, message);
            && (MuxGen(s.slot.home) == Some(g) <==> Sent(s'.links, g) == Sent(s.links, g) + [message])
            && (MuxGen(s.slot.home) == None ==> s'.links == s.links)
  {
    assert Sent(s.links, g) != Sent(s.links, g) + [message];
  }

  /** A claim does not remember which link asked. The first answer reaches the link that asked exactly
      when that link is still the one served; after a replacement it goes to the successor instead,
      and while no link is served it goes nowhere. */
  lemma AnswerReachesAskerIff(r: Run, i: nat, claim: ReqId)
    requires IsRun(r) && i < |r.labels| && AnswersAt(r, i, claim)
    requires !exists k :: 0 <= k < i && AnswersAt(r, k, claim)
    ensures var s, s', obj := r.states[i], r.states[i + 1], r.labels[i].event.text.value;
            exists m ::
              && 0 <= m < i && AskedAt(r, m, (r.labels[i].event.phone, Id(obj).value), claim)
              && var asker, asked := r.labels[m].event.gen, r.labels[m].event.frame.payload.value;
                 var answer := FromPhone(SetId(obj, Id(asked).value));
                 && (MuxGen(s.slot.home) == Some(asker) <==> Sent(s'.links, asker) == Sent(s.links, asker) + [answer])
                 && (MuxGen(s.slot.home).Some? ==>
                       var served := MuxGen(s.slot.home).value; Sent(s'.links, served) == Sent(s.links, served) + [answer])
                 && (MuxGen(s.slot.home).None? ==> s'.links == s.links)
  {
    hide Step, Legal;
    var s, obj := r.states[i], r.labels[i].event.text.value;
    FirstAnswerWins(r, i, claim);
    var m :| 0 <= m < i && AskedAt(r, m, (r.labels[i].event.phone, Id(obj).value), claim)
      && r.states[i + 1].links == SendMux(s, FromPhone(SetId(obj, Id(r.labels[m].event.frame.payload.value).value))).links;
    var answer := FromPhone(SetId(obj, Id(r.labels[m].event.frame.payload.value).value));
    SendMuxReaches(s, answer, r.labels[m].event.gen);
    if MuxGen(s.slot.home).Some? {
      SendMuxReaches(s, answer, MuxGen(s.slot.home).value);
    }
  }

  /** In every run an open question stays with its phone, and keeps leading to its claim, until exactly
      that phone answers it or is gone; nothing else ends it, not even the loss of the home that asked. */
  lemma QuestionStaysOpen(r: Run, i: nat, key: (PhoneId, Value))
    requires IsRun(r) && i < |r.labels| && key in r.states[i].book.reverse
    ensures var reverse, reverse' := r.states[i].book.reverse, r.states[i + 1].book.reverse;
            && (key in reverse' <==> !QuestionEnds(r.labels[i].event, key))
            && (key in reverse' ==> reverse'[key] == reverse[key])
  {
    hide Step, Legal, Good, Subscribed, HubIds.IdsOk, ClaimMoves, WasGiven, QuestionEnds;
    ClaimStepOf(r, i);
    Reachable(r, i);
    OpenIdWasGiven(r.states[i], key);
    StepEndsQuestion(r.states[i], r.labels[i], key);
  }

  lemma OpenIdWasGiven(s: State, key: (PhoneId, Value))
    requires Good(s) && key in s.book.reverse
    ensures WasGiven(key.1, s.book.reverseSeq)
  {
    hide QuestionId, Subscribed, HubLinks.LinksOk, HubIds.IdsOk, HubTexts.AscendingQuestions, HubTexts.Poses,
         HubTexts.QuietUntilInitialized;
    assert HubTexts.WasAsked(s.texts, key, s.book.reverseSeq);
  }
}

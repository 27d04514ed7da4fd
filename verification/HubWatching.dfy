/** Who watches a session and who drives it: exactly which events make a phone a watcher, which end
    it, and when a session changes hands. */
module HubWatching {
  import opened Json
  import opened SessionOrder
  import opened PendingLoads
  import opened HubState
  import opened HubSteps
  import opened HubSubscriptions
  import opened HubReplacement
  import opened HubLoops
  import HubRequests

  /** A request under this method that names this session. */
  ghost predicate AsksTo(obj: Object, name: string, session: SessionId) {
    "id" in obj && "method" in obj && obj["method"] == Str(name) && AboutSession(obj, session)
  }

  /** A ready phone asks to load or resume the session, or a result it waits for names the session. */
  ghost predicate Joins(s: State, event: Event, session: SessionId, p: PhoneId) {
    && PhoneReady(s.book, p)
    && ((event.PhoneText? && event.phone == p && event.text.Some?
         && (AsksTo(event.text.value, "session/load", session) || AsksTo(event.text.value, "session/resume", session)))
        || (event.HomeFrame? && MuxGen(s.slot.home) == Some(event.gen)
            && ResultFrom(event, event.gen).Some? && AboutSession(ResultFrom(event, event.gen).value, session)
            && ResultId(event, event.gen).Some? && ResultId(event, event.gen).value in s.outstanding
            && s.outstanding[ResultId(event, event.gen).value].Forwarded?
            && s.outstanding[ResultId(event, event.gen).value].phone == p))
  }

  /** The phone asks to close the session, or is gone. */
  ghost predicate Leaves(event: Event, session: SessionId, p: PhoneId) {
    || event == PhoneEof(p)
    || (event.PhoneText? && event.phone == p && event.text.Some? && AsksTo(event.text.value, "session/close", session))
  }

  lemma OpensIs(obj: Object, session: SessionId)
    ensures Opens(obj) == Some(session) <==> AsksTo(obj, "session/load", session) || AsksTo(obj, "session/resume", session)
    ensures Closes(obj) == Some(session) <==> AsksTo(obj, "session/close", session)
  {
    hide SessionIn, AboutSession;
    SessionIs(obj, session);
  }

  ghost predicate Watches(s: State, event: Event, book': Book, session: SessionId, p: PhoneId) {
    p in Watching(book', session) <==>
      Joins(s, event, session, p) || (p in Watching(s.book, session) && !Leaves(event, session, p))
  }

  /** A driver that still watches keeps the session. */
  predicate DriverStays(book: Book, book': Book, session: SessionId) {
    session in book.driver && book.driver[session] in Watching(book', session) ==>
      session in book'.driver && book'.driver[session] == book.driver[session]
  }

  ghost predicate Moves(s: State, event: Event, book': Book, session: SessionId, p: PhoneId) {
    Watches(s, event, book', session, p) && DriverStays(s.book, book', session)
  }

  lemma SameMoves(s: State, event: Event, book': Book, session: SessionId, p: PhoneId)
    requires book'.watchers == s.book.watchers && book'.driver == s.book.driver
    requires !Joins(s, event, session, p) && !Leaves(event, session, p)
    ensures Moves(s, event, book', session, p)
  {
  }

  lemma HandshakeSame(s: State, g: Gen, ready: bool, version: int, now: int)
    ensures OnRegistered(s, g, ready, version, now).book == s.book
    ensures OnLeaderReady(s, g).book == s.book
  {
    hide WithIncoming, FailIncoming;
  }

  lemma EofSame(s: State, g: Gen)
    ensures OnHomeEof(s, g).book == s.book
  {
    hide Appended, LoseMux, FailIncoming;
  }

  lemma CutoverSame(s: State, g: Gen, id: ReqId)
    ensures AfterInitialize(s, g).book == s.book
    ensures AfterLoad(s, g, id).book == s.book
  {
    hide FinishSuccessor, Ordered, Loaded, Numbered, WithIncoming, LoadRequests;
    FinishSame(s, g);
  }

  lemma FinishSame(s: State, g: Gen)
    ensures FinishSuccessor(s, g).book == s.book
  {
    hide Appended;
  }

  /** No frame but a request or a result can change the book. */
  lemma HandlersSame(s: State, g: Gen, frame: LeaderFrame, order: seq<PhoneId>, now: int)
    requires !frame.Acp?
    ensures OnHomeFrame(s, g, frame, order, now).book == s.book
  {
    hide OnRegistered, OnLeaderReady, OnHomeEof, RoleOf;
    EofSame(s, g);
    if frame.Registered? {
      HandshakeSame(s, g, frame.ready, frame.version, now);
    } else {
      HandshakeSame(s, g, true, 1, now);
    }
  }

  lemma ReverseSame(s: State, obj: Object, order: seq<PhoneId>)
    requires IsRequest(obj)
    ensures var book' := OnReverseRequest(s, obj, order).book;
            book'.watchers == s.book.watchers && book'.driver == s.book.driver
  {
    hide AskAll, SessionIn, Targets;
    var key := s.nextReq + 1;
    AskedSame(s.(nextReq := key, book := OpenClaim(s.book, key, Id(obj).value)), obj, key, order);
  }

  lemma WatchMoves(book: Book, phone: PhoneId, into: SessionId, session: SessionId, p: PhoneId)
    requires Subscribed(book)
    ensures var book' := Watch(book, phone, into);
            && (p in Watching(book', session) <==>
                (PhoneReady(book, p) && p == phone && session == into) || p in Watching(book, session))
            && DriverStays(book, book', session)
  {
    assert Driven(book, session);
  }

  lemma UnwatchMoves(book: Book, phone: PhoneId, closed: SessionId, heirs: map<SessionId, PhoneId>,
                     session: SessionId, p: PhoneId)
    requires Subscribed(book) && HeirOk(book, phone, closed, heirs)
    ensures var book' := Unwatch(book, phone, closed, heirs);
            && (p in Watching(book', session) <==> p in Watching(book, session) && !(p == phone && session == closed))
            && DriverStays(book, book', session)
  {
    assert Driven(book, session);
  }

  lemma DropMoves(s: State, phone: PhoneId, heirs: map<SessionId, PhoneId>, session: SessionId, p: PhoneId)
    requires Subscribed(s.book)
    requires forall other :: other in s.book.driver ==> HeirOk(s.book, phone, other, heirs)
    ensures Moves(s, PhoneEof(phone), DropPhone(s.book, phone, heirs), session, p)
  {
    assert Driven(s.book, session);
  }

  lemma ForwardedBook(s: State, g: Gen, obj: Object, phone: PhoneId, origin: Value)
    ensures OnForwardedResult(s, g, obj, phone, origin).book
            == if MuxGen(s.slot.home) == Some(g) && SessionIn(obj).Some? then Watch(s.book, phone, SessionIn(obj).value)
               else s.book
  {
    hide Watch, SetId, SessionIn;
  }

  lemma ResultMovesWatch(s: State, g: Gen, obj: Object, session: SessionId, p: PhoneId)
    requires Subscribed(s.book) && IsResult(obj)
    ensures Moves(s, HomeFrame(g, Acp(Some(obj))), OnHomeResult(s, g, obj).book, session, p)
  {
    hide Subscribed, Watch, OnForwardedResult, AfterInitialize, AfterLoad, FailIncoming, SetId, SessionIn, RoleOf, MuxGen,
      AboutSession;
    var id := AsNat(Id(obj));
    SessionIs(obj, session);
    if id.Some? && id.value in s.outstanding {
      var s1 := s.(outstanding := s.outstanding - {id.value});
      CutoverSame(s1, g, id.value);
      if s.outstanding[id.value].Forwarded? {
        ForwardedBook(s1, g, obj, s.outstanding[id.value].phone, s.outstanding[id.value].origin);
        if SessionIn(obj).Some? {
          WatchMoves(s.book, s.outstanding[id.value].phone, SessionIn(obj).value, session, p);
        }
      }
    }
  }

  lemma MuxRole(home: Home, g: Gen)
    ensures RoleOf(home, g) == Mux <==> MuxGen(home) == Some(g)
  {
  }

  lemma FrameMovesWatch(s: State, g: Gen, frame: LeaderFrame, order: seq<PhoneId>, now: int,
                        session: SessionId, p: PhoneId)
    requires Subscribed(s.book)
    ensures Moves(s, HomeFrame(g, frame), OnHomeFrame(s, g, frame, order, now).book, session, p)
  {
    hide Subscribed, Moves, OnRegistered, OnLeaderReady, OnHomeEof, OnReverseRequest, OnHomeResult, Appended, SessionIn;
    if !frame.Acp? {
      HandlersSame(s, g, frame, order, now);
    }
    if ResultFrom(HomeFrame(g, frame), g).Some? {
      ResultMovesWatch(s, g, frame.payload.value, session, p);
      if RoleOf(s.slot.home, g) == Unknown {
        StrangerSame(s, g, frame, session, p);
      }
    } else {
      if frame.Acp? && frame.payload.Some? && IsRequest(frame.payload.value) {
        ReverseSame(s, frame.payload.value, order);
      }
      SameMoves(s, HomeFrame(g, frame), OnHomeFrame(s, g, frame, order, now).book, session, p);
    }
  }

  lemma StrangerSame(s: State, g: Gen, frame: LeaderFrame, session: SessionId, p: PhoneId)
    requires RoleOf(s.slot.home, g) == Unknown
    ensures Moves(s, HomeFrame(g, frame), s.book, session, p)
  {
    MuxRole(s.slot.home, g);
  }

  lemma OpensAndCloses(obj: Object)
    requires IsRequest(obj)
    ensures var name := Method(obj).value;
            && Opens(obj) == (if name == "session/load" || name == "session/resume" then SessionIn(obj) else None)
            && Closes(obj) == (if name == "session/close" then SessionIn(obj) else None)
  {
  }

  lemma AnswersSame(s: State, phone: PhoneId, id: Value, obj: Object, text: ToPhone)
    ensures var book' := AnswerInitialize(s, phone, id).book;
            book'.watchers == s.book.watchers && book'.driver == s.book.driver
    ensures ForwardRequest(s, phone, id, obj).book == s.book
    ensures Say(s, phone, text).book == s.book
    ensures SendMux(s, FromPhone(obj)).book == s.book
  {
  }

  lemma ReplySame(s: State, phone: PhoneId, obj: Object)
    requires IsReply(obj)
    ensures var book' := OnPhoneReply(s, phone, obj).book;
            book'.watchers == s.book.watchers && book'.driver == s.book.driver
  {
    hide SetId;
  }

  lemma RequestMovesWatch(s: State, phone: PhoneId, obj: Object, heirs: map<SessionId, PhoneId>,
                          session: SessionId, p: PhoneId)
    requires Subscribed(s.book) && IsRequest(obj)
    requires Closes(obj).Some? ==> HeirOk(s.book, phone, Closes(obj).value, heirs)
    ensures Moves(s, PhoneText(phone, Some(obj)), OnPhoneRequest(s, phone, obj, heirs).book, session, p)
  {
    hide Subscribed, OnPhoneRequest, AnswerInitialize, ForwardRequest, Say, Watch, Unwatch, HeirOk, Opens, Closes, SessionIn,
      AsksTo;
    RequestArms(s, phone, obj, heirs);
    OpensAndCloses(obj);
    OpensIs(obj, session);
    var id := Id(obj).value;
    AnswersSame(s, phone, id, obj, Failure(id, -32601, "Method not found"));
    AnswersSame(s, phone, id, obj, Uninitialized(id));
    if SessionIn(obj).Some? {
      var named := SessionIn(obj).value;
      if Closes(obj).Some? {
        UnwatchMoves(s.book, phone, named, heirs, session, p);
        AnswersSame(s.(book := Unwatch(s.book, phone, named, heirs)), phone, id, obj, Uninitialized(id));
      } else {
        WatchMoves(s.book, phone, named, session, p);
        AnswersSame(s.(book := Watch(s.book, phone, named)), phone, id, obj, Uninitialized(id));
      }
    }
  }

  lemma TextMovesWatch(s: State, phone: PhoneId, text: Option<Object>, heirs: map<SessionId, PhoneId>,
                       session: SessionId, p: PhoneId)
    requires Subscribed(s.book)
    requires text.Some? && Closes(text.value).Some? ==> HeirOk(s.book, phone, Closes(text.value).value, heirs)
    ensures Moves(s, PhoneText(phone, text), OnPhoneText(s, phone, text, heirs).book, session, p)
  {
    hide Moves, Subscribed, OnPhoneRequest, OnPhoneReply, SendMux, Say, SessionIn, HeirOk;
    if phone !in s.book.phones {
      GoneMoves(s, phone, text, session, p);
    } else if text.None? || !IsRequest(text.value) {
      AnswersSame(s, phone, Null, if text.Some? then text.value else map[], Failure(Null, -32700, "Parse error"));
      if text.Some? && IsReply(text.value) {
        ReplySame(s, phone, text.value);
      }
      SameMoves(s, PhoneText(phone, text), OnPhoneText(s, phone, text, heirs).book, session, p);
    } else {
      RequestMovesWatch(s, phone, text.value, heirs, session, p);
    }
  }

  /** A phone that is gone watches nothing. */
  lemma GoneMoves(s: State, phone: PhoneId, text: Option<Object>, session: SessionId, p: PhoneId)
    requires Subscribed(s.book) && phone !in s.book.phones
    ensures Moves(s, PhoneText(phone, text), s.book, session, p)
  {
    hide SessionIn, AsksTo;
  }

  /** In every step, whoever watches a session afterwards joined it just now or watched it before and
      has not left, and nobody else does; and its driver keeps it for as long as it watches. */
  lemma StepMovesWatchers(s: State, l: Label, session: SessionId, p: PhoneId)
    requires Subscribed(s.book) && Legal(s, l)
    ensures Moves(s, l.event, Step(s, l).book, session, p)
  {
    hide Subscribed, Moves, OnHomeFrame, OnPhoneText, OnHomeEof, DropPhone, HeirOk;
    match l.event
    case Accepted => SameMoves(s, l.event, s.book, session, p);
    case HomeFrame(g, frame) => FrameMovesWatch(s, g, frame, l.choice.order, l.now, session, p);
    case HomeEof(g) =>
      EofSame(s, g);
      SameMoves(s, l.event, s.book, session, p);
    case PhoneHello => SameMoves(s, l.event, AddPhone(s.book), session, p);
    case PhoneText(phone, text) => TextMovesWatch(s, phone, text, l.choice.heirs, session, p);
    case PhoneEof(phone) => DropMoves(s, phone, l.choice.heirs, session, p);
    case DeadlinePassed => SameMoves(s, l.event, s.book, session, p);
  }

  // ----- Which phones are ready

  predicate Initializes(s: State, event: Event, p: PhoneId) {
    && p in s.book.phones && event.PhoneText? && event.phone == p && event.text.Some?
    && "id" in event.text.value && "method" in event.text.value && event.text.value["method"] == Str("initialize")
  }

  lemma AskedPhones(s: State, obj: Object, order: seq<PhoneId>)
    requires IsRequest(obj)
    ensures OnReverseRequest(s, obj, order).book.phones == s.book.phones
  {
    hide AskAll, SessionIn, Targets;
    var key := s.nextReq + 1;
    AskedSame(s.(nextReq := key, book := OpenClaim(s.book, key, Id(obj).value)), obj, key, order);
  }

  lemma FramePhones(s: State, g: Gen, frame: LeaderFrame, order: seq<PhoneId>, now: int)
    ensures OnHomeFrame(s, g, frame, order, now).book.phones == s.book.phones
  {
    hide OnHomeResult, OnReverseRequest, OnRegistered, OnLeaderReady, OnHomeEof, SessionIn, Appended, RoleOf;
    if !frame.Acp? {
      HandlersSame(s, g, frame, order, now);
    } else if frame.payload.Some? {
      if IsRequest(frame.payload.value) {
        AskedPhones(s, frame.payload.value, order);
      } else if IsResult(frame.payload.value) {
        ResultPhones(s, g, frame.payload.value);
      }
    }
  }

  lemma ResultPhones(s: State, g: Gen, obj: Object)
    ensures OnHomeResult(s, g, obj).book.phones == s.book.phones
  {
    hide OnForwardedResult, AfterInitialize, AfterLoad, FailIncoming, RoleOf;
    var id := AsNat(Id(obj));
    if id.Some? && id.value in s.outstanding {
      var s1 := s.(outstanding := s.outstanding - {id.value});
      CutoverSame(s1, g, id.value);
      if s.outstanding[id.value].Forwarded? {
        ForwardedBook(s1, g, obj, s.outstanding[id.value].phone, s.outstanding[id.value].origin);
      }
    }
  }

  lemma TextPhones(s: State, phone: PhoneId, text: Option<Object>, heirs: map<SessionId, PhoneId>)
    requires text.Some? && Closes(text.value).Some? ==> HeirOk(s.book, phone, Closes(text.value).value, heirs)
    ensures OnPhoneText(s, phone, text, heirs).book.phones
            == if Initializes(s, PhoneText(phone, text), phone) then s.book.phones[phone := Initialized] else s.book.phones
  {
    hide HeirOk, OnPhoneRequest;
    if phone in s.book.phones && text.Some? && IsRequest(text.value) {
      HubRequests.OnlyInitializeReadies(s, phone, text.value, heirs);
    }
  }

  /** A phone becomes ready by its own `initialize` and by nothing else, and stays so until it is gone. */
  lemma StepMovesReady(s: State, l: Label, p: PhoneId)
    requires Legal(s, l) && Subscribed(s.book)
    ensures PhoneReady(Step(s, l).book, p)
            <==> Initializes(s, l.event, p) || (PhoneReady(s.book, p) && l.event != PhoneEof(p))
  {
    hide WatchersReady, Driven, QuestionsReady, OnHomeFrame, OnPhoneText, OnHomeEof, HeirOk;
    match l.event
    case Accepted =>
    case HomeFrame(g, frame) => FramePhones(s, g, frame, l.choice.order, l.now);
    case HomeEof(g) => EofSame(s, g);
    case PhoneText(phone, text) => TextPhones(s, phone, text, l.choice.heirs);
    case PhoneEof(phone) =>
    case PhoneHello =>
    case DeadlinePassed =>
  }
}

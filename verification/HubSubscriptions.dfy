/** Who watches what: watcher sets, drivers and open questions name only initialized phones that
    are still connected, whatever happens. */
module HubSubscriptions {
  import opened Json
  import opened SessionOrder
  import opened PendingLoads
  import opened HubState
  import opened HubSteps

  ghost predicate PhonesNumbered(b: Book) {
    b.nextPhone >= 0 && forall p :: p in b.phones ==> 1 <= p <= b.nextPhone
  }

  ghost predicate WatchersReady(b: Book) {
    forall session :: session in b.watchers ==> forall p :: p in b.watchers[session] ==> PhoneReady(b, p)
  }

  ghost predicate Driven(b: Book, session: SessionId) {
    if session in b.watchers then session in b.driver && b.driver[session] in b.watchers[session]
    else session !in b.driver
  }

  ghost predicate QuestionsReady(b: Book) {
    forall key :: key in b.reverse ==> PhoneReady(b, key.0) && b.reverse[key] in b.claims
  }

  /** Every watcher is an initialized phone that is connected; a session has a driver exactly when
      it is in the watcher table, and the driver is one of its watchers, so no watcher set is empty;
      every open question is one of a connected phone's, and leads to a claim. */
  ghost predicate Subscribed(b: Book) {
    && PhonesNumbered(b)
    && WatchersReady(b)
    && (forall session :: Driven(b, session))
    && QuestionsReady(b)
  }

  lemma AreNumbered(b: Book)
    requires Subscribed(b)
    ensures PhonesNumbered(b)
  {
  }

  lemma WatchPhones(b: Book, phone: PhoneId, session: Option<SessionId>)
    ensures session.Some? ==> Watch(b, phone, session.value).phones == b.phones
  {
  }

  lemma WatchKeeps(b: Book, phone: PhoneId, session: SessionId)
    requires Subscribed(b)
    ensures Subscribed(Watch(b, phone, session))
  {
    var b' := Watch(b, phone, session);
    forall other ensures Driven(b', other) { assert Driven(b, other); }
  }

  lemma UnwatchKeeps(b: Book, phone: PhoneId, session: SessionId, heirs: map<SessionId, PhoneId>)
    requires Subscribed(b) && HeirOk(b, phone, session, heirs)
    ensures Subscribed(Unwatch(b, phone, session, heirs))
  {
    var b' := Unwatch(b, phone, session, heirs);
    forall other ensures Driven(b', other) { assert Driven(b, other); }
  }

  lemma DropKeeps(b: Book, phone: PhoneId, heirs: map<SessionId, PhoneId>)
    requires Subscribed(b)
    requires forall session :: session in b.driver ==> HeirOk(b, phone, session, heirs)
    ensures Subscribed(DropPhone(b, phone, heirs))
  {
    var b' := DropPhone(b, phone, heirs);
    forall other ensures Driven(b', other) {
      assert Driven(b, other);
      if other in b.watchers {
        assert HeirOk(b, phone, other, heirs);
        assert b.driver[other] != phone ==> b.driver[other] in b.watchers[other] - {phone};
      }
    }
  }

  lemma AddKeeps(b: Book)
    requires Subscribed(b)
    ensures Subscribed(AddPhone(b))
  {
    forall other ensures Driven(AddPhone(b), other) { assert Driven(b, other); }
  }

  lemma InitializeKeeps(b: Book, phone: PhoneId)
    requires Subscribed(b) && phone in b.phones
    ensures Subscribed(b.(phones := b.phones[phone := Initialized]))
  {
    var b' := b.(phones := b.phones[phone := Initialized]);
    forall other ensures Driven(b', other) { assert Driven(b, other); }
  }

  /** One question: a key that leads to an existing claim, for a phone that is ready. */
  lemma AskBookKeeps(b: Book, claim: ReqId, phone: PhoneId)
    requires Subscribed(b) && claim in b.claims && PhoneReady(b, phone)
    ensures Subscribed(AskBook(b, claim, phone))
    ensures AskBook(b, claim, phone).phones == b.phones && AskBook(b, claim, phone).claims == b.claims
  {
    forall other ensures Driven(AskBook(b, claim, phone), other) { assert Driven(b, other); }
  }

  lemma {:induction false} AskAllKeeps(s: State, obj: Object, claim: ReqId, order: seq<PhoneId>)
    requires Subscribed(s.book) && claim in s.book.claims
    requires forall p :: p in order ==> PhoneReady(s.book, p)
    ensures var b := AskAll(s, obj, claim, order).book;
            Subscribed(b) && b.phones == s.book.phones && b.claims == s.book.claims
  {
    hide Subscribed, AskBook;
    if order != [] {
      AskAllKeeps(s, obj, claim, order[..|order| - 1]);
      assert PhoneReady(s.book, order[|order| - 1]);
      AskBookKeeps(AskAll(s, obj, claim, order[..|order| - 1]).book, claim, order[|order| - 1]);
    }
  }

  lemma OpenClaimKeeps(b: Book, key: ReqId, homeId: Value)
    requires Subscribed(b)
    ensures Subscribed(OpenClaim(b, key, homeId))
  {
    forall other ensures Driven(OpenClaim(b, key, homeId), other) { assert Driven(b, other); }
  }

  lemma AnsweredKeeps(b: Book, key: (PhoneId, Value))
    requires Subscribed(b) && key in b.reverse
    ensures Subscribed(Answered(b, key))
  {
    forall other ensures Driven(Answered(b, key), other) { assert Driven(b, other); }
  }

  lemma TargetsReady(b: Book, name: string, session: SessionId)
    requires Subscribed(b)
    ensures forall p :: p in Targets(b, name, session) ==> PhoneReady(b, p)
  {
    assert Driven(b, session);
  }

  lemma ReverseKeeps(s: State, obj: Object, order: seq<PhoneId>)
    requires Subscribed(s.book) && IsRequest(obj)
    requires SessionIn(obj).Some? ==> Enumerates(order, Targets(s.book, Method(obj).value, SessionIn(obj).value))
    ensures Subscribed(OnReverseRequest(s, obj, order).book)
  {
    if SessionIn(obj).Some? {
      var session := SessionIn(obj).value;
      TargetsReady(s.book, Method(obj).value, session);
      OpenClaimKeeps(s.book, s.nextReq + 1, Id(obj).value);
      var b := OpenClaim(s.book, s.nextReq + 1, Id(obj).value);
      hide Subscribed;
      AskAllKeeps(s.(nextReq := s.nextReq + 1, book := b), obj, s.nextReq + 1, order);
    }
  }

  lemma RequestKeeps(s: State, phone: PhoneId, obj: Object, heirs: map<SessionId, PhoneId>)
    requires Subscribed(s.book) && IsRequest(obj)
    requires Closes(obj).Some? ==> HeirOk(s.book, phone, Closes(obj).value, heirs)
    ensures Subscribed(OnPhoneRequest(s, phone, obj, heirs).book)
  {
    hide Subscribed, Watch, Unwatch;
    if phone in s.book.phones { InitializeKeeps(s.book, phone); }
    if Opens(obj).Some? { WatchKeeps(s.book, phone, Opens(obj).value); }
    if Closes(obj).Some? { UnwatchKeeps(s.book, phone, Closes(obj).value, heirs); }
  }

  lemma ReplyKeeps(s: State, phone: PhoneId, obj: Object)
    requires Subscribed(s.book) && IsReply(obj)
    ensures Subscribed(OnPhoneReply(s, phone, obj).book)
  {
    hide Subscribed, Answered;
    var key := (phone, Id(obj).value);
    if key in s.book.reverse { AnsweredKeeps(s.book, key); }
  }

  lemma ResultKeeps(s: State, g: Gen, obj: Object)
    requires Subscribed(s.book)
    ensures Subscribed(OnHomeResult(s, g, obj).book)
  {
    hide Subscribed, Watch;
    var id := AsNat(Id(obj));
    if id.Some? && id.value in s.outstanding && s.outstanding[id.value].Forwarded? && SessionIn(obj).Some? {
      WatchKeeps(s.book, s.outstanding[id.value].phone, SessionIn(obj).value);
    }
  }

  lemma HomeFrameKeeps(s: State, g: Gen, frame: LeaderFrame, order: seq<PhoneId>, now: int)
    requires Subscribed(s.book)
    requires Question(frame).Some? ==>
               var obj := Question(frame).value;
               Enumerates(order, Targets(s.book, Method(obj).value, SessionIn(obj).value))
    ensures Subscribed(OnHomeFrame(s, g, frame, order, now).book)
  {
    hide Subscribed, Enumerates, OnReverseRequest, OnHomeResult;
    if frame.Acp? && frame.payload.Some? {
      var obj := frame.payload.value;
      if IsRequest(obj) {
        ReverseKeeps(s, obj, order);
      } else if IsResult(obj) {
        ResultKeeps(s, g, obj);
      }
    }
  }

  lemma PhoneTextKeeps(s: State, phone: PhoneId, text: Option<Object>, heirs: map<SessionId, PhoneId>)
    requires Subscribed(s.book)
    requires text.Some? && Closes(text.value).Some? ==> HeirOk(s.book, phone, Closes(text.value).value, heirs)
    ensures Subscribed(OnPhoneText(s, phone, text, heirs).book)
  {
    hide Subscribed, OnPhoneRequest, OnPhoneReply;
    if text.Some? && IsRequest(text.value) {
      RequestKeeps(s, phone, text.value, heirs);
    } else if text.Some? && IsReply(text.value) {
      ReplyKeeps(s, phone, text.value);
    }
  }

  /** The subscription invariant survives every event, whichever heir the hash order picks. */
  lemma StepKeepsSubscribed(s: State, l: Label)
    requires Subscribed(s.book) && Legal(s, l)
    ensures Subscribed(Step(s, l).book)
  {
    hide Subscribed, OnHomeFrame, OnPhoneText, DropPhone, AddPhone;
    match l.event
    case HomeFrame(g, frame) => HomeFrameKeeps(s, g, frame, l.choice.order, l.now);
    case PhoneText(phone, text) => PhoneTextKeeps(s, phone, text, l.choice.heirs);
    case PhoneEof(phone) => DropKeeps(s.book, phone, l.choice.heirs);
    case PhoneHello => AddKeeps(s.book);
    case Accepted =>
    case HomeEof(g) =>
    case DeadlinePassed =>
  }
}

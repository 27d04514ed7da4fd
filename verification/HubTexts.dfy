/** What phones are sent: every question has its own id, and a phone that has not initialized
    hears nothing of other phones' business. */
module HubTexts {
  import opened Json
  import opened SessionOrder
  import opened PendingLoads
  import opened HubState
  import opened HubSteps
  import opened HubSubscriptions

  /** This text asks its phone the n-th question. */
  predicate Asks(text: ToPhone, n: int) {
    n >= 1 && IsQuestion(text) && Id(text.obj).value == QuestionId(n)
  }

  predicate IsQuestion(text: ToPhone) {
    text.FromHome? && IsRequest(text.obj)
  }

  ghost predicate Poses(out: seq<ToPhone>, n: int) {
    exists k :: 0 <= k < |out| && Asks(out[k], n)
  }

  ghost predicate Numbered(text: ToPhone, bound: int) {
    exists n :: 1 <= n <= bound && Asks(text, n)
  }

  ghost predicate AscendingQuestions(out: seq<ToPhone>, bound: int) {
    && (forall k :: 0 <= k < |out| && IsQuestion(out[k]) ==> Numbered(out[k], bound))
    && (forall j, k, m, n :: 0 <= j < k < |out| && Asks(out[j], m) && Asks(out[k], n) ==> m < n)
  }

  /** This id is that of a question this phone was really asked. */
  ghost predicate WasAsked(texts: map<PhoneId, seq<ToPhone>>, key: (PhoneId, Value), bound: int) {
    exists n :: 1 <= n <= bound && key.1 == QuestionId(n) && Poses(Sent(texts, key.0), n)
  }

  /** No two questions ever put to any phones carry the same id, and an id still open is that of a
      question its phone was asked. */
  ghost predicate QuestionsOk(book: Book, texts: map<PhoneId, seq<ToPhone>>) {
    && book.reverseSeq >= 0
    && (forall p :: p in texts ==> 1 <= p <= book.nextPhone)
    && (forall p :: AscendingQuestions(Sent(texts, p), book.reverseSeq))
    && (forall n, p, p' :: Poses(Sent(texts, p), n) && Poses(Sent(texts, p'), n) ==> p == p')
    && (forall key :: key in book.reverse ==> WasAsked(texts, key, book.reverseSeq))
  }

  lemma NumberUnique(text: ToPhone, m: int, n: int)
    requires Asks(text, m) && Asks(text, n)
    ensures m == n
  {
    QuestionIdInjective(m, n);
  }

  lemma PosesAppend(out: seq<ToPhone>, text: ToPhone, n: int)
    ensures Poses(out + [text], n) <==> Poses(out, n) || Asks(text, n)
  {
    if Poses(out, n) {
      var k :| 0 <= k < |out| && Asks(out[k], n);
      assert (out + [text])[k] == out[k];
    }
    if Asks(text, n) { assert (out + [text])[|out|] == text; }
  }

  lemma PosedBelow(out: seq<ToPhone>, bound: int, n: int)
    requires AscendingQuestions(out, bound) && Poses(out, n)
    ensures 1 <= n <= bound
  {
    var k :| 0 <= k < |out| && Asks(out[k], n);
    var m :| 1 <= m <= bound && Asks(out[k], m);
    NumberUnique(out[k], m, n);
  }

  /** A text that is no question. */
  lemma PlainAppend(out: seq<ToPhone>, text: ToPhone, bound: int)
    requires AscendingQuestions(out, bound) && !IsQuestion(text)
    ensures AscendingQuestions(out + [text], bound)
    ensures forall n :: Poses(out + [text], n) <==> Poses(out, n)
  {
    forall n ensures Poses(out + [text], n) <==> Poses(out, n) { PosesAppend(out, text, n); }
  }

  lemma QuestionAppend(out: seq<ToPhone>, text: ToPhone, bound: int)
    requires AscendingQuestions(out, bound) && bound >= 0 && Asks(text, bound + 1)
    ensures AscendingQuestions(out + [text], bound + 1)
  {
    var out' := out + [text];
    forall k | 0 <= k < |out'| && IsQuestion(out'[k]) ensures Numbered(out'[k], bound + 1) {
      if k < |out| {
        var n :| 1 <= n <= bound && Asks(out[k], n);
      }
    }
    forall j, k, m, n | 0 <= j < k < |out'| && Asks(out'[j], m) && Asks(out'[k], n) ensures m < n {
      if k == |out| {
        NumberUnique(text, n, bound + 1);
        assert Poses(out, m);
        PosedBelow(out, bound, m);
      }
    }
  }

  /** The channels differ only by texts that are no questions, so they pose the same ones. */
  ghost predicate SamePosed(texts: map<PhoneId, seq<ToPhone>>, texts': map<PhoneId, seq<ToPhone>>, bound: int) {
    forall p ::
      && AscendingQuestions(Sent(texts', p), bound)
      && forall n :: Poses(Sent(texts', p), n) <==> Poses(Sent(texts, p), n)
  }

  lemma PlainKeeps(book: Book, texts: map<PhoneId, seq<ToPhone>>, book': Book, texts': map<PhoneId, seq<ToPhone>>)
    requires QuestionsOk(book, texts) && SamePosed(texts, texts', book.reverseSeq)
    requires book'.reverseSeq == book.reverseSeq && (forall key :: key in book'.reverse ==> key in book.reverse)
    requires forall p :: p in texts' ==> 1 <= p <= book'.nextPhone
    ensures QuestionsOk(book', texts')
  {
    hide AscendingQuestions, Poses;
    forall key | key in book'.reverse ensures WasAsked(texts', key, book.reverseSeq) {
      assert WasAsked(texts, key, book.reverseSeq);
    }
  }

  lemma SaySame(s: State, phone: PhoneId, text: ToPhone)
    requires QuestionsOk(s.book, s.texts) && !IsQuestion(text)
    ensures SamePosed(s.texts, Say(s, phone, text).texts, s.book.reverseSeq)
  {
    var texts' := Say(s, phone, text).texts;
    PlainAppend(Sent(s.texts, phone), text, s.book.reverseSeq);
    forall p
      ensures AscendingQuestions(Sent(texts', p), s.book.reverseSeq)
      ensures forall n :: Poses(Sent(texts', p), n) <==> Poses(Sent(s.texts, p), n)
    {
      assert p != phone ==> Sent(texts', p) == Sent(s.texts, p);
    }
  }

  lemma SayAllSame(s: State, phones: set<PhoneId>, text: ToPhone)
    requires QuestionsOk(s.book, s.texts) && !IsQuestion(text)
    ensures SamePosed(s.texts, SayAll(s, phones, text).texts, s.book.reverseSeq)
  {
    var texts' := SayAll(s, phones, text).texts;
    forall p
      ensures AscendingQuestions(Sent(texts', p), s.book.reverseSeq)
      ensures forall n :: Poses(Sent(texts', p), n) <==> Poses(Sent(s.texts, p), n)
    {
      PlainAppend(Sent(s.texts, p), text, s.book.reverseSeq);
      assert Sent(texts', p) == Sent(s.texts, p) || Sent(texts', p) == Sent(s.texts, p) + [text];
    }
  }

  lemma SayKeeps(s: State, phone: PhoneId, text: ToPhone)
    requires QuestionsOk(s.book, s.texts) && PhonesNumbered(s.book) && !IsQuestion(text)
    ensures QuestionsOk(s.book, Say(s, phone, text).texts)
  {
    SaySame(s, phone, text);
    hide SamePosed;
    PlainKeeps(s.book, s.texts, s.book, Say(s, phone, text).texts);
  }

  lemma SayAllKeeps(s: State, phones: set<PhoneId>, text: ToPhone)
    requires QuestionsOk(s.book, s.texts) && PhonesNumbered(s.book) && !IsQuestion(text)
    ensures QuestionsOk(s.book, SayAll(s, phones, text).texts)
  {
    SayAllSame(s, phones, text);
    hide SamePosed;
    PlainKeeps(s.book, s.texts, s.book, SayAll(s, phones, text).texts);
  }

  lemma BookKeeps(book: Book, texts: map<PhoneId, seq<ToPhone>>, book': Book)
    requires QuestionsOk(book, texts)
    requires book'.reverseSeq == book.reverseSeq && book'.nextPhone == book.nextPhone
    requires forall key :: key in book'.reverse ==> key in book.reverse
    ensures QuestionsOk(book', texts)
  {
  }

  lemma AskPosed(s: State, text: ToPhone, phone: PhoneId, n: int, p: PhoneId, p': PhoneId)
    requires QuestionsOk(s.book, s.texts) && phone in s.book.phones && Asks(text, s.book.reverseSeq + 1)
    requires var texts' := Say(s, phone, text).texts; Poses(Sent(texts', p), n) && Poses(Sent(texts', p'), n)
    ensures p == p'
  {
    hide Asks, Poses, AscendingQuestions;
    PosesAppend(Sent(s.texts, phone), text, n);
    assert AscendingQuestions(Sent(s.texts, p), s.book.reverseSeq);
    assert AscendingQuestions(Sent(s.texts, p'), s.book.reverseSeq);
    if Asks(text, n) { NumberUnique(text, n, s.book.reverseSeq + 1); }
    if Poses(Sent(s.texts, p), n) { PosedBelow(Sent(s.texts, p), s.book.reverseSeq, n); }
    if Poses(Sent(s.texts, p'), n) { PosedBelow(Sent(s.texts, p'), s.book.reverseSeq, n); }
  }

  lemma CopyAsks(obj: Object, n: int)
    requires IsRequest(obj) && n >= 1
    ensures Asks(FromHome(SetId(obj, QuestionId(n))), n)
  {
    hide QuestionId;
  }

  lemma AskAscends(s: State, text: ToPhone, phone: PhoneId, p: PhoneId)
    requires QuestionsOk(s.book, s.texts) && phone in s.book.phones && Asks(text, s.book.reverseSeq + 1)
    ensures AscendingQuestions(Sent(Say(s, phone, text).texts, p), s.book.reverseSeq + 1)
  {
    hide Asks, Poses, AscendingQuestions, WasAsked;
    assert AscendingQuestions(Sent(s.texts, p), s.book.reverseSeq);
    if p == phone {
      QuestionAppend(Sent(s.texts, p), text, s.book.reverseSeq);
    } else {
      RaiseBound(Sent(s.texts, p), s.book.reverseSeq);
    }
  }

  lemma AskKeeps(s: State, obj: Object, claim: ReqId, phone: PhoneId)
    requires QuestionsOk(s.book, s.texts) && PhonesNumbered(s.book) && phone in s.book.phones && IsRequest(obj)
    ensures QuestionsOk(Ask(s, obj, claim, phone).book, Ask(s, obj, claim, phone).texts)
  {
    hide Asks, Poses, AscendingQuestions, WasAsked, QuestionId, SetId;
    var n := s.book.reverseSeq + 1;
    var text := FromHome(SetId(obj, QuestionId(n)));
    var s' := Ask(s, obj, claim, phone);
    CopyAsks(obj, n);
    assert s'.texts == Say(s, phone, text).texts;
    forall p ensures AscendingQuestions(Sent(s'.texts, p), n) {
      AskAscends(s, text, phone, p);
    }
    forall i, p, p' | Poses(Sent(s'.texts, p), i) && Poses(Sent(s'.texts, p'), i) ensures p == p' {
      AskPosed(s, text, phone, i, p, p');
    }
    forall key | key in s'.book.reverse ensures WasAsked(s'.texts, key, n) {
      AskedStays(s, text, phone, key);
    }
  }

  lemma RaiseBound(out: seq<ToPhone>, bound: int)
    requires AscendingQuestions(out, bound)
    ensures AscendingQuestions(out, bound + 1)
  {
    forall k | 0 <= k < |out| && IsQuestion(out[k]) ensures Numbered(out[k], bound + 1) {
      var n :| 1 <= n <= bound && Asks(out[k], n);
    }
  }

  lemma AskedStays(s: State, text: ToPhone, phone: PhoneId, key: (PhoneId, Value))
    requires phone in s.book.phones && s.book.reverseSeq >= 0 && Asks(text, s.book.reverseSeq + 1)
    requires WasAsked(s.texts, key, s.book.reverseSeq) || key == (phone, QuestionId(s.book.reverseSeq + 1))
    ensures WasAsked(Say(s, phone, text).texts, key, s.book.reverseSeq + 1)
  {
    var n0 := s.book.reverseSeq + 1;
    var texts' := Say(s, phone, text).texts;
    if key == (phone, QuestionId(n0)) {
      PosesAppend(Sent(s.texts, phone), text, n0);
      assert Poses(Sent(texts', key.0), n0);
    } else {
      var n :| 1 <= n <= s.book.reverseSeq && key.1 == QuestionId(n) && Poses(Sent(s.texts, key.0), n);
      PosesAppend(Sent(s.texts, phone), text, n);
      assert Poses(Sent(texts', key.0), n);
    }
  }

  // ----- Phones that have not initialized

  /** Nothing but errors and results: no note, no update, no question. */
  predicate OnlyAnswers(out: seq<ToPhone>) {
    forall k :: 0 <= k < |out| ==> out[k].Failure? || (out[k].FromHome? && Method(out[k].obj).None?)
  }

  ghost predicate QuietUntilInitialized(book: Book, texts: map<PhoneId, seq<ToPhone>>) {
    forall p :: p in book.phones && book.phones[p].Connected? ==> OnlyAnswers(Sent(texts, p))
  }

  /** The part of the state this module is about. */
  ghost predicate TextsOk(s: State) {
    QuestionsOk(s.book, s.texts) && QuietUntilInitialized(s.book, s.texts)
  }

  lemma SaidOk(s: State, phone: PhoneId, text: ToPhone)
    requires TextsOk(s) && PhonesNumbered(s.book) && !IsQuestion(text)
    requires PhoneReady(s.book, phone) || OnlyAnswers([text])
    ensures TextsOk(Say(s, phone, text))
  {
    SayKeeps(s, phone, text);
    hide QuestionsOk;
    assert [text][0] == text;
  }

  lemma SaidAllOk(s: State, phones: set<PhoneId>, text: ToPhone)
    requires TextsOk(s) && PhonesNumbered(s.book) && !IsQuestion(text)
    requires forall p :: p in phones ==> PhoneReady(s.book, p)
    ensures TextsOk(SayAll(s, phones, text))
  {
    SayAllKeeps(s, phones, text);
    hide QuestionsOk;
  }

  lemma BookOk(s: State, book': Book)
    requires TextsOk(s)
    requires book'.reverseSeq == s.book.reverseSeq && book'.nextPhone == s.book.nextPhone
    requires forall key :: key in book'.reverse ==> key in s.book.reverse
    requires forall p :: p in book'.phones && book'.phones[p].Connected? ==> p in s.book.phones && s.book.phones[p].Connected?
    ensures TextsOk(s.(book := book'))
  {
    BookKeeps(s.book, s.texts, book');
  }

  lemma AskedOk(s: State, obj: Object, claim: ReqId, phone: PhoneId)
    requires TextsOk(s) && PhonesNumbered(s.book) && PhoneReady(s.book, phone) && IsRequest(obj)
    ensures TextsOk(Ask(s, obj, claim, phone))
  {
    AskKeeps(s, obj, claim, phone);
    hide QuestionsOk;
  }

  lemma {:induction false} AskAllOk(s: State, obj: Object, claim: ReqId, order: seq<PhoneId>)
    requires TextsOk(s) && PhonesNumbered(s.book) && IsRequest(obj)
    requires forall p :: p in order ==> PhoneReady(s.book, p)
    ensures var s' := AskAll(s, obj, claim, order);
            TextsOk(s') && s'.book.phones == s.book.phones && s'.book.nextPhone == s.book.nextPhone
  {
    hide TextsOk;
    if order != [] {
      AskAllOk(s, obj, claim, order[..|order| - 1]);
      assert PhoneReady(s.book, order[|order| - 1]);
      AskedOk(AskAll(s, obj, claim, order[..|order| - 1]), obj, claim, order[|order| - 1]);
    }
  }

  lemma OpenKeeps(s: State, homeId: Value)
    requires TextsOk(s) && PhonesNumbered(s.book)
    ensures var s' := s.(nextReq := s.nextReq + 1, book := OpenClaim(s.book, s.nextReq + 1, homeId));
            TextsOk(s') && PhonesNumbered(s'.book)
  {
    BookOk(s, OpenClaim(s.book, s.nextReq + 1, homeId));
  }

  lemma ReverseKeeps(s: State, obj: Object, order: seq<PhoneId>)
    requires TextsOk(s) && Subscribed(s.book) && IsRequest(obj)
    requires SessionIn(obj).Some? ==> Enumerates(order, Targets(s.book, Method(obj).value, SessionIn(obj).value))
    ensures TextsOk(OnReverseRequest(s, obj, order))
  {
    hide TextsOk, Subscribed, Targets, PhonesNumbered, AskAll, Method, SessionIn;
    if SessionIn(obj).Some? {
      TargetsReady(s.book, Method(obj).value, SessionIn(obj).value);
      AreNumbered(s.book);
      OpenKeeps(s, Id(obj).value);
      AskAllOk(s.(nextReq := s.nextReq + 1, book := OpenClaim(s.book, s.nextReq + 1, Id(obj).value)),
               obj, s.nextReq + 1, order);
    }
  }

  lemma BroadcastKeeps(s: State, away: bool)
    requires TextsOk(s) && PhonesNumbered(s.book)
    ensures TextsOk(Broadcast(s, away))
  {
    SaidAllOk(s, ReadyPhones(s.book), HostAway(away));
  }

  lemma NotificationKeeps(s: State, obj: Object)
    requires TextsOk(s) && Subscribed(s.book) && IsNotification(obj)
    ensures TextsOk(OnHomeNotification(s, obj))
  {
    if SessionIn(obj).Some? {
      assert Driven(s.book, SessionIn(obj).value);
      SaidAllOk(s, Watching(s.book, SessionIn(obj).value), FromHome(obj));
    }
  }

  lemma WatchKeepsTexts(s: State, phone: PhoneId, session: SessionId)
    requires TextsOk(s)
    ensures TextsOk(s.(book := Watch(s.book, phone, session)))
  {
    BookOk(s, Watch(s.book, phone, session));
  }

  lemma ForwardedKeeps(s: State, g: Gen, obj: Object, phone: PhoneId, origin: Value)
    requires TextsOk(s) && PhonesNumbered(s.book) && IsResult(obj)
    ensures TextsOk(OnForwardedResult(s, g, obj, phone, origin))
  {
    var text := FromHome(SetId(obj, origin));
    assert Method(text.obj).None?;
    SaidOk(s, phone, text);
    if SessionIn(obj).Some? {
      WatchKeepsTexts(s, phone, SessionIn(obj).value);
      var s1 := s.(book := Watch(s.book, phone, SessionIn(obj).value));
      hide TextsOk;
      SaidOk(s1, phone, text);
    }
  }

  lemma SameTexts(s: State, s': State)
    requires TextsOk(s) && s'.book == s.book && s'.texts == s.texts
    ensures TextsOk(s')
  {
  }

  lemma FinishKeeps(s: State, g: Gen)
    requires TextsOk(s) && PhonesNumbered(s.book)
    ensures TextsOk(FinishSuccessor(s, g))
  {
    hide TextsOk, PhonesNumbered, Broadcast;
    var s1 := s.(slot := s.slot.(home := Sole(g)));
    SameTexts(s, s1);
    BroadcastKeeps(s1, false);
    if s.slot.home.Dual? { SameTexts(s, FinishSuccessor(s, g)); }
  }

  lemma AfterLoadKeeps(s: State, g: Gen, id: ReqId)
    requires TextsOk(s) && PhonesNumbered(s.book)
    ensures TextsOk(AfterLoad(s, g, id))
  {
    hide TextsOk, PhonesNumbered, FinishSuccessor;
    FinishKeeps(s, g);
    if AfterLoad(s, g, id) != FinishSuccessor(s, g) { SameTexts(s, AfterLoad(s, g, id)); }
  }

  lemma AfterInitializeKeeps(s: State, g: Gen)
    requires TextsOk(s) && PhonesNumbered(s.book)
    ensures TextsOk(AfterInitialize(s, g))
  {
    hide TextsOk, PhonesNumbered, FinishSuccessor;
    FinishKeeps(s, g);
    if s.book.watchers.Keys != {} { SameTexts(s, BeginLoads(s, g)); }
  }

  lemma ResultKeeps(s: State, g: Gen, obj: Object)
    requires TextsOk(s) && PhonesNumbered(s.book) && IsResult(obj)
    ensures TextsOk(OnHomeResult(s, g, obj))
  {
    hide TextsOk, PhonesNumbered, AfterInitialize, AfterLoad, FailIncoming, OnForwardedResult, RoleOf;
    var id := AsNat(Id(obj));
    if id.Some? && id.value in s.outstanding {
      var s1 := s.(outstanding := s.outstanding - {id.value});
      SameTexts(s, s1);
      AfterInitializeKeeps(s1, g);
      AfterLoadKeeps(s1, g, id.value);
      SameTexts(s, s1.(slot := FailIncoming(s.slot, g)));
      if s.outstanding[id.value].Forwarded? {
        ForwardedKeeps(s1, g, obj, s.outstanding[id.value].phone, s.outstanding[id.value].origin);
      }
    }
  }

  lemma EofKeeps(s: State, g: Gen)
    requires TextsOk(s) && PhonesNumbered(s.book)
    ensures TextsOk(OnHomeEof(s, g))
  {
    hide TextsOk, PhonesNumbered, Broadcast;
    var s1 := s.(slot := LoseMux(s.slot, g));
    SameTexts(s, s1);
    BroadcastKeeps(s1, true);
    SameTexts(s, s.(slot := FailIncoming(s.slot, g)));
  }

  lemma HomeFrameKeeps(s: State, g: Gen, frame: LeaderFrame, order: seq<PhoneId>, now: int)
    requires TextsOk(s) && Subscribed(s.book)
    requires Question(frame).Some? ==>
               var obj := Question(frame).value;
               Enumerates(order, Targets(s.book, Method(obj).value, SessionIn(obj).value))
    ensures TextsOk(OnHomeFrame(s, g, frame, order, now))
  {
    hide TextsOk, Subscribed, Enumerates, PhonesNumbered, OnHomeEof, OnReverseRequest, OnHomeResult,
      OnHomeNotification, RoleOf;
    AreNumbered(s.book);
    match frame
    case Registered(ready, version) => SameTexts(s, OnRegistered(s, g, ready, version, now));
    case LeaderReady => SameTexts(s, OnLeaderReady(s, g));
    case LeaderError => EofKeeps(s, g);
    case Acp(payload) =>
      if payload.Some? {
        if IsRequest(payload.value) {
          ReverseKeeps(s, payload.value, order);
        } else if IsNotification(payload.value) {
          NotificationKeeps(s, payload.value);
        } else if IsResult(payload.value) {
          ResultKeeps(s, g, payload.value);
        }
      }
    case Pong =>
    case OtherFrame =>
  }

  /** Whether the phone is made ready before or after it is answered makes no difference. */
  lemma InitializedFirst(s: State, phone: PhoneId, id: Value)
    requires phone in s.book.phones
    ensures var s1 := Say(s.(book := s.book.(phones := s.book.phones[phone := Initialized])), phone, InitializeResult(id));
            AnswerInitialize(s, phone, id) == if HomeAway(s.slot.home) then Say(s1, phone, HostAway(true)) else s1
  {
  }

  lemma MadeReadyOk(s: State, phone: PhoneId)
    requires TextsOk(s) && PhonesNumbered(s.book) && phone in s.book.phones
    ensures var s0 := s.(book := s.book.(phones := s.book.phones[phone := Initialized]));
            TextsOk(s0) && PhonesNumbered(s0.book) && PhoneReady(s0.book, phone)
  {
    hide TextsOk;
    BookOk(s, s.book.(phones := s.book.phones[phone := Initialized]));
  }

  lemma InitializeKeepsTexts(s: State, phone: PhoneId, id: Value)
    requires TextsOk(s) && PhonesNumbered(s.book)
    ensures TextsOk(AnswerInitialize(s, phone, id))
  {
    hide TextsOk, PhonesNumbered, Say, OnlyAnswers;
    if phone in s.book.phones {
      var s0 := s.(book := s.book.(phones := s.book.phones[phone := Initialized]));
      MadeReadyOk(s, phone);
      SaidOk(s0, phone, InitializeResult(id));
      var s1 := Say(s0, phone, InitializeResult(id));
      SaidSameBook(s0, phone, InitializeResult(id));
      SaidOk(s1, phone, HostAway(true));
      InitializedFirst(s, phone, id);
    } else {
      assert AnswerInitialize(s, phone, id) == s;
    }
  }

  lemma SaidSameBook(s: State, phone: PhoneId, text: ToPhone)
    ensures Say(s, phone, text).book == s.book
  {
  }

  lemma SubscribeLeaves(b: Book, phone: PhoneId, obj: Object, heirs: map<SessionId, PhoneId>)
    requires Closes(obj).Some? ==> HeirOk(b, phone, Closes(obj).value, heirs)
    ensures var b' := Subscribe(b, phone, obj, heirs);
            b'.phones == b.phones && b'.nextPhone == b.nextPhone && b'.reverse == b.reverse && b'.reverseSeq == b.reverseSeq
  {
    hide HeirOk, Closes, Opens;
  }

  lemma SubscribeKeeps(s: State, phone: PhoneId, obj: Object, heirs: map<SessionId, PhoneId>)
    requires TextsOk(s) && PhonesNumbered(s.book)
    requires Closes(obj).Some? ==> HeirOk(s.book, phone, Closes(obj).value, heirs)
    ensures TextsOk(s.(book := Subscribe(s.book, phone, obj, heirs)))
    ensures PhonesNumbered(Subscribe(s.book, phone, obj, heirs))
  {
    hide TextsOk, Subscribe, HeirOk, Closes;
    SubscribeLeaves(s.book, phone, obj, heirs);
    BookOk(s, Subscribe(s.book, phone, obj, heirs));
  }

  lemma ForwardKeeps(s: State, phone: PhoneId, origin: Value, obj: Object)
    requires TextsOk(s) && PhonesNumbered(s.book)
    ensures TextsOk(ForwardRequest(s, phone, origin, obj))
  {
    SaidOk(s, phone, AwayError(s.slot.refusedVersion, origin));
    hide TextsOk;
    if MuxGen(s.slot.home).Some? { SameTexts(s, ForwardRequest(s, phone, origin, obj)); }
  }

  lemma RequestKeeps(s: State, phone: PhoneId, obj: Object, heirs: map<SessionId, PhoneId>)
    requires TextsOk(s) && PhonesNumbered(s.book) && IsRequest(obj)
    requires Closes(obj).Some? ==> HeirOk(s.book, phone, Closes(obj).value, heirs)
    ensures TextsOk(OnPhoneRequest(s, phone, obj, heirs))
  {
    hide TextsOk, PhonesNumbered, Subscribe, AnswerInitialize, Say, HeirOk, NeedsInitialized, ForwardRequest, PhoneReady;
    var id := Id(obj).value;
    SubscribeKeeps(s, phone, obj, heirs);
    ForwardKeeps(s.(book := Subscribe(s.book, phone, obj, heirs)), phone, id, obj);
    SaidOk(s, phone, Failure(id, -32601, "Method not found"));
    SaidOk(s, phone, Uninitialized(id));
    InitializeKeepsTexts(s, phone, id);
  }

  lemma AnsweredOk(s: State, key: (PhoneId, Value))
    requires TextsOk(s) && key in s.book.reverse
    ensures TextsOk(s.(book := Answered(s.book, key)))
  {
    hide TextsOk;
    BookOk(s, Answered(s.book, key));
  }

  lemma ReplyKeepsTexts(s: State, phone: PhoneId, obj: Object)
    requires TextsOk(s) && IsReply(obj)
    ensures TextsOk(OnPhoneReply(s, phone, obj))
  {
    hide TextsOk, Answered;
    var key := (phone, Id(obj).value);
    if key in s.book.reverse {
      AnsweredOk(s, key);
      SameTexts(s.(book := Answered(s.book, key)), OnPhoneReply(s, phone, obj));
    }
  }

  lemma PhoneTextKeeps(s: State, phone: PhoneId, text: Option<Object>, heirs: map<SessionId, PhoneId>)
    requires TextsOk(s) && PhonesNumbered(s.book)
    requires text.Some? && Closes(text.value).Some? ==> HeirOk(s.book, phone, Closes(text.value).value, heirs)
    ensures TextsOk(OnPhoneText(s, phone, text, heirs))
  {
    hide TextsOk, PhonesNumbered, HeirOk, OnPhoneRequest, OnPhoneReply, Say;
    SaidOk(s, phone, Failure(Null, -32700, "Parse error"));
    if text.Some? {
      if IsRequest(text.value) {
        RequestKeeps(s, phone, text.value, heirs);
      } else if IsNotification(text.value) {
        SameTexts(s, SendMux(s, FromPhone(text.value)));
      } else if IsReply(text.value) {
        ReplyKeepsTexts(s, phone, text.value);
      }
    }
  }

  lemma HelloKeeps(s: State)
    requires TextsOk(s) && PhonesNumbered(s.book)
    ensures TextsOk(OnPhoneHello(s))
  {
    var s' := OnPhoneHello(s);
    assert forall p :: Sent(s'.texts, p) == Sent(s.texts, p);
    forall p
      ensures AscendingQuestions(Sent(s'.texts, p), s.book.reverseSeq)
      ensures forall n :: Poses(Sent(s'.texts, p), n) <==> Poses(Sent(s.texts, p), n) {}
    hide Poses, AscendingQuestions;
    PlainKeeps(s.book, s.texts, s'.book, s'.texts);
  }

  lemma DropKeepsTexts(s: State, phone: PhoneId, heirs: map<SessionId, PhoneId>)
    requires TextsOk(s)
    requires forall session :: session in s.book.driver ==> HeirOk(s.book, phone, session, heirs)
    ensures TextsOk(s.(book := DropPhone(s.book, phone, heirs)))
  {
    BookOk(s, DropPhone(s.book, phone, heirs));
  }

  /** Question ids stay distinct, and uninitialized phones stay undisturbed, whatever happens. */
  lemma StepKeepsTexts(s: State, l: Label)
    requires TextsOk(s) && Subscribed(s.book) && Legal(s, l)
    ensures TextsOk(Step(s, l))
  {
    hide TextsOk, Subscribed, PhonesNumbered, OnHomeFrame, OnPhoneText, DropPhone, OnPhoneHello, OnHomeEof;
    AreNumbered(s.book);
    match l.event
    case Accepted => SameTexts(s, Accept(s, l.now));
    case HomeFrame(g, frame) => HomeFrameKeeps(s, g, frame, l.choice.order, l.now);
    case HomeEof(g) => EofKeeps(s, g);
    case PhoneText(phone, text) => PhoneTextKeeps(s, phone, text, l.choice.heirs);
    case PhoneEof(phone) => DropKeepsTexts(s, phone, l.choice.heirs);
    case PhoneHello => HelloKeeps(s);
    case DeadlinePassed => SameTexts(s, OnDeadline(s));
  }
}

/** Whole runs, from the hub's start, in which something does not happen that one might expect of every
    run. Each is written out state by state. */
module HubScenarios {
  import opened Json
  import opened SessionOrder
  import opened HubState
  import opened HubSteps
  import opened HubRuns
  import opened HubReplacement
  import opened HubLoops
  import HubDelivery
  import HubQuestions

  // ----- Events

  function At(event: Event): Label {
    Label(event, Choice(map[], []), 0)
  }

  function Says(g: Gen, obj: Object): Label {
    At(HomeFrame(g, Acp(Some(obj))))
  }

  function Registers(g: Gen): Label {
    At(HomeFrame(g, Registered(true, LEADER_PROTOCOL_VERSION)))
  }

  ghost predicate Goes(s: State, l: Label, s': State) {
    Legal(s, l) && Step(s, l) == s'
  }

  // ----- The steps of a handshake

  lemma Accepts(s: State)
    ensures Goes(s, At(Event.Accepted), Accept(s, 0))
  {
    hide AcceptSlot;
  }

  function AskedToInitialize(s: State, g: Gen): State {
    s.(slot := WithIncoming(s.slot, WaitInitialize(g)), nextReq := s.nextReq + 1,
       outstanding := s.outstanding[s.nextReq + 1 := HubInitialize], links := s.links[g := [Initialize(s.nextReq + 1)]])
  }

  lemma RegistersGoes(s: State, g: Gen)
    requires CandidateAt(s.slot.home, g).Some? && CandidateAt(s.slot.home, g).value.WaitRegistered?
    requires MuxGen(s.slot.home) != Some(g) && s.slot.refusedVersion.None? && Sent(s.links, g) == []
    ensures Goes(s, Registers(g), AskedToInitialize(s, g))
  {
    hide WithIncoming;
    assert Sent(s.links, g) + [Initialize(s.nextReq + 1)] == [Initialize(s.nextReq + 1)];
    assert s.slot.(refusedVersion := None) == s.slot;
  }

  lemma InitializeGoes(s: State, g: Gen, h: nat)
    requires CandidateAt(s.slot.home, g).Some? && CandidateAt(s.slot.home, g).value.WaitInitialize?
    requires MuxGen(s.slot.home) != Some(g) && s.book.watchers.Keys == {}
    requires h in s.outstanding && s.outstanding[h].HubInitialize?
    ensures Goes(s, Says(g, Result(h)), FinishSuccessor(s.(outstanding := s.outstanding - {h}), g))
  {
    hide Result, FinishSuccessor;
    ResultIs(h);
  }

  // ----- A first link: accepted, registered, initialized

  const NOBODY := Book(map[], 0, map[], map[], map[], map[], 0)

  function Accepted1(): State {
    State(Slot(BringingUp(WaitRegistered(1, REGISTER_WAIT)), 1, None, []), NOBODY, map[], 0, map[1 := []], map[])
  }

  function Asked1(): State {
    State(Slot(BringingUp(WaitInitialize(1)), 1, None, []), NOBODY, map[1 := HubInitialize], 1,
          map[1 := [Initialize(1)]], map[])
  }

  function Served1(): State {
    State(Slot(Sole(1), 1, None, []), NOBODY, map[], 1, map[1 := [Initialize(1)]], map[])
  }

  lemma FirstLink()
    ensures Goes(INITIAL, At(Event.Accepted), Accepted1())
    ensures Goes(Accepted1(), Registers(1), Asked1())
    ensures Goes(Asked1(), Says(1, Result(1)), Served1())
  {
    hide Goes, Result, At, Says, Registers;
    Accepts(INITIAL);
    RegistersGoes(Accepted1(), 1);
    assert AskedToInitialize(Accepted1(), 1) == Asked1();
    InitializeGoes(Asked1(), 1, 1);
    NoOneHears(Served1(), false);
    assert Asked1().outstanding - {1} == map[];
  }

  lemma NoOneHears(s: State, away: bool)
    requires s.book.phones == map[]
    ensures Broadcast(s, away) == s
  {
  }

  // ----- A successor served on another link's answer

  function Accepted2(): State {
    State(Slot(Dual(1, WaitRegistered(2, REGISTER_WAIT)), 2, None, []), NOBODY, map[], 1,
          map[1 := [Initialize(1)], 2 := []], map[])
  }

  function Asked2(): State {
    State(Slot(Dual(1, WaitInitialize(2)), 2, None, []), NOBODY, map[2 := HubInitialize], 2,
          map[1 := [Initialize(1)], 2 := [Initialize(2)]], map[])
  }

  function Accepted3(): State {
    State(Slot(Dual(1, WaitRegistered(3, REGISTER_WAIT)), 3, None, [2]), NOBODY, map[2 := HubInitialize], 2,
          map[1 := [Initialize(1)], 2 := [Initialize(2)], 3 := []], map[])
  }

  function Asked3(): State {
    State(Slot(Dual(1, WaitInitialize(3)), 3, None, [2]), NOBODY, map[2 := HubInitialize, 3 := HubInitialize], 3,
          map[1 := [Initialize(1)], 2 := [Initialize(2)], 3 := [Initialize(3)]], map[])
  }

  function Served3(): State {
    State(Slot(Sole(3), 3, None, [2, 1]), NOBODY, map[3 := HubInitialize], 3,
          map[1 := [Initialize(1)], 2 := [Initialize(2)], 3 := [Initialize(3)]], map[])
  }

  lemma StaleSteps()
    ensures Goes(Served1(), At(Event.Accepted), Accepted2())
    ensures Goes(Accepted2(), Registers(2), Asked2())
    ensures Goes(Asked2(), At(Event.Accepted), Accepted3())
    ensures Goes(Accepted3(), Registers(3), Asked3())
    ensures Goes(Asked3(), Says(3, Result(2)), Served3())
  {
    hide Goes, Result, At, Says, Registers;
    Accepts(Served1());
    RegistersGoes(Accepted2(), 2);
    assert AskedToInitialize(Accepted2(), 2) == Asked2();
    Accepts(Asked2());
    assert Accept(Asked2(), 0) == Accepted3();
    RegistersGoes(Accepted3(), 3);
    assert AskedToInitialize(Accepted3(), 3) == Asked3();
    InitializeGoes(Asked3(), 3, 2);
    assert [2] + [1] == [2, 1];
    assert Asked3().outstanding - {2} == map[3 := HubInitialize];
  }

  function StaleRun(): Run {
    Run([INITIAL, Accepted1(), Asked1(), Served1(), Accepted2(), Asked2(), Accepted3(), Asked3(), Served3()],
        [At(Event.Accepted), Registers(1), Says(1, Result(1)), At(Event.Accepted), Registers(2),
         At(Event.Accepted), Registers(3), Says(3, Result(2))])
  }

  lemma StaleIsRun()
    ensures IsRun(StaleRun())
  {
    hide Goes, Step, Legal, Result, At, Says, Registers, Accepted1, Asked1, Served1, Accepted2, Asked2, Accepted3, Asked3, Served3;
    FirstLink();
    StaleSteps();
    forall i | 0 <= i < |StaleRun().labels| ensures StepAt(StaleRun(), i) {
      GoesIsStep(StaleRun().states[i], StaleRun().labels[i], StaleRun().states[i + 1]);
    }
  }

  lemma GoesIsStep(s: State, l: Label, s': State)
    ensures Goes(s, l, s') <==> Legal(s, l) && s' == Step(s, l)
  {
    hide Step, Legal;
  }

  /** A link takes over from the one served although its own initialize is never answered: the answer to
      the initialize of a dropped candidate, sent on this link, is taken for it. */
  lemma SuccessorUnanswered()
    ensures var r := StaleRun();
            && IsRun(r) && MuxGen(r.states[7].slot.home) == Some(1) && MuxGen(r.states[8].slot.home) == Some(3)
            && Sent(r.states[8].links, 3) == [Initialize(3)] && 3 in r.states[8].outstanding
            && (forall k :: 0 <= k < |r.labels| ==> ResultId(r.labels[k].event, 3) != Some(3))
  {
    StaleIsRun();
    ResultIs(1);
    ResultIs(2);
    hide Result, IsRun;
  }

  // ----- A result that comes on the wrong link

  function Texts(p: PhoneId, obj: Object): Label {
    At(PhoneText(p, Some(obj)))
  }

  function Ping(): Object {
    map["id" := Int(9), "method" := Str("ping")]
  }

  lemma PingIs()
    ensures IsRequest(Ping()) && Id(Ping()) == Some(Int(9)) && Method(Ping()) == Some("ping")
    ensures Closes(Ping()) == None && Opens(Ping()) == None && !NeedsInitialized("ping")
  {
  }

  function Joined(): State {
    State(Slot(Sole(1), 1, None, []), Book(map[1 := Connected], 1, map[], map[], map[], map[], 0), map[], 1,
          map[1 := [Initialize(1)]], map[1 := []])
  }

  function Pinged(): State {
    State(Slot(Sole(1), 1, None, []), Book(map[1 := Connected], 1, map[], map[], map[], map[], 0),
          map[2 := Forwarded(1, Int(9))], 2, map[1 := [Initialize(1), FromPhone(SetId(Ping(), Int(2)))]], map[1 := []])
  }

  function Rivalled(): State {
    State(Slot(Dual(1, WaitRegistered(2, REGISTER_WAIT)), 2, None, []),
          Book(map[1 := Connected], 1, map[], map[], map[], map[], 0), map[2 := Forwarded(1, Int(9))], 2,
          map[1 := [Initialize(1), FromPhone(SetId(Ping(), Int(2)))], 2 := []], map[1 := []])
  }

  function Lost(): State {
    State(Slot(Dual(1, WaitRegistered(2, REGISTER_WAIT)), 2, None, []),
          Book(map[1 := Connected], 1, map[], map[], map[], map[], 0), map[], 2,
          map[1 := [Initialize(1), FromPhone(SetId(Ping(), Int(2)))], 2 := []], map[1 := []])
  }

  lemma HelloGoes(s: State)
    ensures Goes(s, At(PhoneHello), OnPhoneHello(s))
  {
  }

  /** A request that is neither answered here nor about watching, from a connected phone. */
  lemma ForwardGoes(s: State, p: PhoneId, obj: Object)
    requires p in s.book.phones && IsRequest(obj) && MuxGen(s.slot.home).Some?
    requires Method(obj).value != "initialize" && Method(obj).value != "authenticate"
    requires Closes(obj).None? && Opens(obj).None? && !NeedsInitialized(Method(obj).value)
    ensures Goes(s, Texts(p, obj), ForwardRequest(s, p, Id(obj).value, obj))
  {
    hide ForwardRequest, Closes, Opens, NeedsInitialized;
  }

  /** A result for a forwarded request on a link that is held but not served. */
  lemma WrongLinkGoes(s: State, g: Gen, h: nat)
    requires CandidateAt(s.slot.home, g).Some? && MuxGen(s.slot.home) != Some(g)
    requires h in s.outstanding && s.outstanding[h].Forwarded?
    ensures Goes(s, Says(g, Result(h)), s.(outstanding := s.outstanding - {h}))
  {
    hide Result;
    ResultIs(h);
  }

  lemma LostSteps()
    ensures Goes(Served1(), At(PhoneHello), Joined())
    ensures Goes(Joined(), Texts(1, Ping()), Pinged())
    ensures Goes(Pinged(), At(Event.Accepted), Rivalled())
    ensures Goes(Rivalled(), Says(2, Result(2)), Lost())
  {
    hide Goes, Result, At, Says, Texts, Ping, SetId;
    HelloGoes(Served1());
    assert OnPhoneHello(Served1()) == Joined();
    PingIs();
    ForwardGoes(Joined(), 1, Ping());
    var ping := FromPhone(SetId(Ping(), Int(2)));
    assert [Initialize(1)] + [ping] == [Initialize(1), ping];
    assert ForwardRequest(Joined(), 1, Int(9), Ping()) == Pinged();
    Accepts(Pinged());
    assert Accept(Pinged(), 0) == Rivalled();
    WrongLinkGoes(Rivalled(), 2, 2);
    assert Rivalled().outstanding - {2} == map[];
  }

  function LostRun(): Run {
    Run([INITIAL, Accepted1(), Asked1(), Served1(), Joined(), Pinged(), Rivalled(), Lost()],
        [At(Event.Accepted), Registers(1), Says(1, Result(1)), At(PhoneHello), Texts(1, Ping()),
         At(Event.Accepted), Says(2, Result(2))])
  }

  lemma LostIsRun()
    ensures IsRun(LostRun())
  {
    hide Goes, Step, Legal, Result, At, Says, Texts, Ping, Registers, Accepted1, Asked1, Served1, Joined, Pinged, Rivalled, Lost;
    FirstLink();
    LostSteps();
    forall i | 0 <= i < |LostRun().labels| ensures StepAt(LostRun(), i) {
      GoesIsStep(LostRun().states[i], LostRun().labels[i], LostRun().states[i + 1]);
    }
  }

  /** A forwarded request whose phone stays connected and whose link stays served is never answered: a
      candidate sends a result under its id first, and that spends the wait. */
  lemma ResultIsLost()
    ensures var r := LostRun();
            && IsRun(r) && HubDelivery.ForwardedAt(r, 4, 1, Int(9), 2) && HubDelivery.ConsumedAt(r, 6, 2)
            && MuxGen(r.states[7].slot.home) == Some(1) && 1 in r.states[7].book.phones
            && 2 !in r.states[7].outstanding && Sent(r.states[7].texts, 1) == []
  {
    LostIsRun();
    PingIs();
    ResultIs(2);
    var ping := FromPhone(SetId(Ping(), Int(2)));
    hide Result, Ping, IsRun, SetId;
    assert Sent(Joined().links, 1) + [ping] == [Initialize(1), ping];
  }

  // ----- An answer that reaches another link than the one that asked

  function About(id: int, name: string): Object {
    map["id" := Int(id), "method" := Str(name), "params" := Obj(map["sessionId" := Str("s")])]
  }

  lemma AboutIs(id: int, name: string)
    ensures IsRequest(About(id, name)) && Id(About(id, name)) == Some(Int(id)) && Method(About(id, name)) == Some(name)
    ensures SessionIn(About(id, name)) == Some("s")
  {
  }

  function Hi(): Object {
    map["id" := Int(0), "method" := Str("initialize")]
  }

  function Reply(): Object {
    map["id" := QuestionId(1), "result" := Null]
  }

  function Asks(g: Gen, obj: Object, p: PhoneId): Label {
    Label(HomeFrame(g, Acp(Some(obj))), Choice(map[], [p]), 0)
  }

  // The names by which the texts of this run go.

  function OpenS(): Object { About(1, "session/load") }
  function AskS(): Object { About(7, "fs/read_text_file") }
  function CloseS(): Object { About(2, "session/close") }

  lemma Names()
    ensures Method(OpenS()) == Some("session/load") && Method(CloseS()) == Some("session/close")
    ensures IsRequest(OpenS()) && IsRequest(CloseS()) && IsRequest(AskS()) && IsRequest(Hi()) && Method(Hi()) == Some("initialize")
    ensures Id(OpenS()) == Some(Int(1)) && Id(CloseS()) == Some(Int(2)) && Id(AskS()) == Some(Int(7)) && Id(Hi()) == Some(Int(0))
    ensures SessionIn(OpenS()) == SessionIn(CloseS()) == SessionIn(AskS()) == Some("s")
    ensures !IsInteraction(Method(AskS()).value) && Closes(Hi()) == None
    ensures IsReply(Reply()) && !IsRequest(Reply()) && !IsNotification(Reply()) && Id(Reply()) == Some(QuestionId(1))
    ensures Closes(Reply()) == None
  {
    hide QuestionId, About;
    AboutIs(1, "session/load");
    AboutIs(7, "fs/read_text_file");
    AboutIs(2, "session/close");
  }

  lemma OpensGoes(s: State, p: PhoneId, obj: Object, session: SessionId)
    requires PhoneReady(s.book, p) && IsRequest(obj) && Method(obj).value == "session/load" && SessionIn(obj) == Some(session)
    ensures Goes(s, Texts(p, obj), ForwardRequest(s.(book := Watch(s.book, p, session)), p, Id(obj).value, obj))
  {
    hide ForwardRequest, Watch, OnPhoneRequest, Closes, SessionIn;
    ClosesOnlyClose(obj);
    RequestArms(s, p, obj, map[]);
  }

  lemma ClosesGoes(s: State, p: PhoneId, obj: Object, session: SessionId)
    requires p in s.book.phones && IsRequest(obj) && Method(obj).value == "session/close" && SessionIn(obj) == Some(session)
    requires HeirOk(s.book, p, session, map[])
    ensures Goes(s, Texts(p, obj), ForwardRequest(s.(book := Unwatch(s.book, p, session, map[])), p, Id(obj).value, obj))
  {
    hide ForwardRequest, Unwatch, OnPhoneRequest, Closes, SessionIn, HeirOk;
    ClosesOnlyClose(obj);
    RequestArms(s, p, obj, map[]);
  }

  lemma AsksGoes(s: State, g: Gen, obj: Object, session: SessionId, p: PhoneId)
    requires MuxGen(s.slot.home) == Some(g) && IsRequest(obj) && SessionIn(obj) == Some(session)
    requires !IsInteraction(Method(obj).value) && session in s.book.driver && s.book.driver[session] == p
    ensures var key := s.nextReq + 1;
            Goes(s, Asks(g, obj, p), Ask(s.(nextReq := key, book := OpenClaim(s.book, key, Id(obj).value)), obj, key, p))
  {
    hide Ask, SessionIn, IsInteraction;
    var key := s.nextReq + 1;
    var s1 := s.(nextReq := key, book := OpenClaim(s.book, key, Id(obj).value));
    AskedNone(s1, obj, key);
    AskedOne(s1, obj, key, [], p);
    assert [] + [p] == [p];
  }

  lemma AnswersGoes(s: State, p: PhoneId, obj: Object)
    requires p in s.book.phones && IsReply(obj) && Closes(obj) == None
    ensures Goes(s, Texts(p, obj), OnPhoneReply(s, p, obj))
  {
    hide OnPhoneReply, Closes;
  }

  lemma InitializesGoes(s: State, p: PhoneId, obj: Object)
    requires p in s.book.phones && IsRequest(obj) && Method(obj).value == "initialize" && Closes(obj) == None
    ensures Goes(s, Texts(p, obj), AnswerInitialize(s, p, Id(obj).value))
  {
    hide AnswerInitialize, OnPhoneRequest, Closes;
    RequestArms(s, p, obj, map[]);
  }

  function ToLink1(): seq<ToHome> {
    [Initialize(1), FromPhone(SetId(OpenS(), Int(2))), FromPhone(SetId(CloseS(), Int(4)))]
  }

  function ToPhone1(): seq<ToPhone> {
    [InitializeResult(Int(0)), FromHome(SetId(AskS(), QuestionId(1)))]
  }

  function Ready1(): State {
    State(Slot(Sole(1), 1, None, []), Book(map[1 := Initialized], 1, map[], map[], map[], map[], 0), map[], 1,
          map[1 := [Initialize(1)]], map[1 := [InitializeResult(Int(0))]])
  }

  function Opened(): State {
    State(Slot(Sole(1), 1, None, []), Book(map[1 := Initialized], 1, map["s" := {1}], map["s" := 1], map[], map[], 0),
          map[2 := Forwarded(1, Int(1))], 2, map[1 := ToLink1()[..2]], map[1 := [InitializeResult(Int(0))]])
  }

  function Questioned(): State {
    State(Slot(Sole(1), 1, None, []),
          Book(map[1 := Initialized], 1, map["s" := {1}], map["s" := 1], map[(1, QuestionId(1)) := 3], map[3 := Open(Int(7))], 1),
          map[2 := Forwarded(1, Int(1))], 3, map[1 := ToLink1()[..2]], map[1 := ToPhone1()])
  }

  function AskedBook(): Book {
    Book(map[1 := Initialized], 1, map[], map[], map[(1, QuestionId(1)) := 3], map[3 := Open(Int(7))], 1)
  }

  const FORWARDED := map[2 := Forwarded(1, Int(1)), 4 := Forwarded(1, Int(2))]

  function Closed(): State {
    State(Slot(Sole(1), 1, None, []), AskedBook(), FORWARDED, 4, map[1 := ToLink1()], map[1 := ToPhone1()])
  }

  function Challenged(): State {
    State(Slot(Dual(1, WaitRegistered(2, REGISTER_WAIT)), 2, None, []), AskedBook(), FORWARDED, 4,
          map[1 := ToLink1(), 2 := []], map[1 := ToPhone1()])
  }

  function Greeted(): State {
    State(Slot(Dual(1, WaitInitialize(2)), 2, None, []), AskedBook(), FORWARDED[5 := HubInitialize], 5,
          map[1 := ToLink1(), 2 := [Initialize(5)]], map[1 := ToPhone1()])
  }

  function Replaced(): State {
    State(Slot(Sole(2), 2, None, [1]), AskedBook(), FORWARDED, 5,
          map[1 := ToLink1(), 2 := [Initialize(5)]], map[1 := ToPhone1()])
  }

  function Replied(): State {
    State(Slot(Sole(2), 2, None, [1]), Book(map[1 := Initialized], 1, map[], map[], map[], map[3 := Taken], 1), FORWARDED, 5,
          map[1 := ToLink1(), 2 := [Initialize(5), FromPhone(SetId(Reply(), Int(7)))]], map[1 := ToPhone1()])
  }

  lemma Opening()
    ensures Goes(Joined(), Texts(1, Hi()), Ready1())
    ensures Goes(Ready1(), Texts(1, OpenS()), Opened())
  {
    hide Goes, Texts, OpenS, AskS, CloseS, Hi, SetId, Reply, IsReply, SessionIn, QuestionId, Method, Id;
    Names();
    InitializesGoes(Joined(), 1, Hi());
    assert Sent(Joined().texts, 1) + [InitializeResult(Int(0))] == [InitializeResult(Int(0))];
    assert AnswerInitialize(Joined(), 1, Int(0)) == Ready1();
    OpensGoes(Ready1(), 1, OpenS(), "s");
    assert [Initialize(1)] + [FromPhone(SetId(OpenS(), Int(2)))] == ToLink1()[..2];
    assert Watching(Ready1().book, "s") + {1} == {1};
    assert Watch(Ready1().book, 1, "s") == Opened().book;
    assert ForwardRequest(Ready1().(book := Opened().book), 1, Int(1), OpenS()) == Opened();
  }

  lemma Questioning()
    ensures Goes(Opened(), Asks(1, AskS(), 1), Questioned())
  {
    hide Goes, Asks, OpenS, AskS, CloseS, Hi, SetId, Reply, IsReply, SessionIn, QuestionId, Method, Id, IsInteraction, ToLink1;
    Names();
    AsksGoes(Opened(), 1, AskS(), "s", 1);
    assert [InitializeResult(Int(0))] + [FromHome(SetId(AskS(), QuestionId(1)))] == ToPhone1();
    var s1 := Opened().(nextReq := 3, book := OpenClaim(Opened().book, 3, Int(7)));
    assert AskBook(s1.book, 3, 1) == Questioned().book;
    assert Ask(s1, AskS(), 3, 1) == Questioned();
  }

  lemma Closing()
    ensures Goes(Questioned(), Texts(1, CloseS()), Closed())
  {
    hide Goes, Texts, OpenS, AskS, CloseS, Hi, SetId, Reply, IsReply, SessionIn, QuestionId, Method, Id, ToPhone1;
    Names();
    assert {1} - {1} == {};
    assert Watching(Questioned().book, "s") - {1} == {};
    ClosesGoes(Questioned(), 1, CloseS(), "s");
    assert ToLink1()[..2] + [FromPhone(SetId(CloseS(), Int(4)))] == ToLink1();
    assert Unwatch(Questioned().book, 1, "s", map[]) == Closed().book;
    assert map[2 := Forwarded(1, Int(1))][4 := Forwarded(1, Int(2))] == FORWARDED;
    assert ForwardRequest(Questioned().(book := Closed().book), 1, Int(2), CloseS()) == Closed();
  }

  lemma Replacing()
    ensures Goes(Closed(), At(Event.Accepted), Challenged())
    ensures Goes(Challenged(), Registers(2), Greeted())
    ensures Goes(Greeted(), Says(2, Result(5)), Replaced())
  {
    hide Goes, At, Registers, Says, Result, ToLink1, ToPhone1, QuestionId;
    Accepts(Closed());
    assert Accept(Closed(), 0) == Challenged();
    RegistersGoes(Challenged(), 2);
    assert AskedToInitialize(Challenged(), 2) == Greeted();
    InitializeGoes(Greeted(), 2, 5);
    assert Greeted().outstanding - {5} == FORWARDED;
    assert [] + [1] == [1];
    assert FinishSuccessor(Greeted().(outstanding := FORWARDED), 2) == Replaced();
  }

  lemma Replying()
    ensures Goes(Replaced(), Texts(1, Reply()), Replied())
  {
    hide Goes, Texts, OpenS, AskS, CloseS, Hi, SetId, Reply, IsReply, SessionIn, QuestionId, Method, Id, ToLink1, ToPhone1;
    Names();
    AnswersGoes(Replaced(), 1, Reply());
    assert [Initialize(5)] + [FromPhone(SetId(Reply(), Int(7)))] == [Initialize(5), FromPhone(SetId(Reply(), Int(7)))];
    assert Replaced().book.reverse - {(1, QuestionId(1))} == map[];
    assert OnPhoneReply(Replaced(), 1, Reply()) == Replied();
  }

  function ReplacedRun(): Run {
    Run([INITIAL, Accepted1(), Asked1(), Served1(), Joined(), Ready1(), Opened(), Questioned(), Closed(), Challenged(),
         Greeted(), Replaced(), Replied()],
        [At(Event.Accepted), Registers(1), Says(1, Result(1)), At(PhoneHello), Texts(1, Hi()), Texts(1, OpenS()),
         Asks(1, AskS(), 1), Texts(1, CloseS()), At(Event.Accepted), Registers(2), Says(2, Result(5)), Texts(1, Reply())])
  }

  lemma ReplacedIsRun()
    ensures IsRun(ReplacedRun())
  {
    hide Goes, Step, Legal, Result, At, Says, Texts, Asks, Registers, Hi, OpenS, AskS, CloseS, Reply, Accepted1, Asked1, Served1,
      Joined, Ready1, Opened, Questioned, Closed, Challenged, Greeted, Replaced, Replied;
    FirstLink();
    LostSteps();
    Opening();
    Questioning();
    Closing();
    Replacing();
    Replying();
    forall i | 0 <= i < |ReplacedRun().labels| ensures StepAt(ReplacedRun(), i) {
      GoesIsStep(ReplacedRun().states[i], ReplacedRun().labels[i], ReplacedRun().states[i + 1]);
    }
  }

  lemma WasAsked()
    ensures HubQuestions.AskedHere(Opened(), Asks(1, AskS(), 1).event, Questioned(), (1, QuestionId(1)), 3)
  {
    hide OpenS, AskS, CloseS, Hi, Reply, IsReply, SetId, SessionIn, QuestionId, Method, Id;
    Names();
    assert Sent(Opened().texts, 1) + [FromHome(SetId(AskS(), QuestionId(1)))] == ToPhone1();
  }

  lemma IsAnswered()
    ensures HubQuestions.Answers(Replaced(), Texts(1, Reply()).event, 3)
  {
    hide OpenS, AskS, CloseS, Hi, Reply, IsReply, SetId, SessionIn, QuestionId, Method, Id;
    Names();
  }

  /** A question asked by link 1 is answered after link 2 has taken over: the first and only answer to
      it is sent on link 2, and link 1 gets nothing. */
  lemma AnswerGoesToSuccessor()
    ensures var r, answer := ReplacedRun(), FromPhone(SetId(Reply(), Int(7)));
            && IsRun(r)
            && HubQuestions.AskedAt(r, 6, (1, QuestionId(1)), 3) && r.labels[6].event.gen == 1
            && HubQuestions.AnswersAt(r, 11, 3)
            && Sent(r.states[12].links, 1) == Sent(r.states[11].links, 1)
            && Sent(r.states[12].links, 2) == Sent(r.states[11].links, 2) + [answer]
  {
    hide IsRun, OpenS, AskS, CloseS, Hi, Reply, IsReply, SetId, SessionIn, QuestionId, Method, Id, ToLink1, ToPhone1,
      HubQuestions.AskedHere, HubQuestions.Answers;
    ReplacedIsRun();
    WasAsked();
    IsAnswered();
  }
}

/** What each text of a phone, and each result that comes back for one, must bring about, in full and in
    terms of the fields of the message alone. */
module HubPhoneEffects {
  import opened Json
  import opened SessionOrder
  import opened HubState
  import opened HubSteps
  import opened HubSubscriptions
  import opened HubRuns
  import opened HubWatching
  import opened HubVersions
  import HubLinkEffects
  import HubLoops
  import HubRequests

  // ----- Phones come and go

  /** A new phone gets the next number; it is connected and not yet ready, and nothing has been sent to it. */
  lemma HelloEffect(s: State, l: Label)
    requires Legal(s, l) && l.event == PhoneHello
    ensures var n := s.book.nextPhone + 1;
            Step(s, l) == s.(texts := s.texts[n := []],
                             book := s.book.(nextPhone := n, phones := s.book.phones[n := Connected]))
  {
  }

  /** A phone that goes takes its open questions with it and watches nothing any more; each session it drove
      goes to one of the watchers left, or to nobody if it was the last. */
  lemma GoneEffect(s: State, l: Label, phone: PhoneId, session: SessionId)
    requires Subscribed(s.book) && Legal(s, l) && l.event == PhoneEof(phone)
    ensures var s', b := Step(s, l), Step(s, l).book;
            && s' == s.(book := s.book.(phones := s.book.phones - {phone}, watchers := b.watchers, driver := b.driver,
                                        reverse := b.reverse))
            && Watching(b, session) == Watching(s.book, session) - {phone}
            && (session in b.driver <==> Watching(b, session) != {})
            && (session in b.driver && s.book.driver[session] != phone ==> b.driver[session] == s.book.driver[session])
            && (session in b.driver ==> b.driver[session] in Watching(b, session))
            && (forall key :: key in b.reverse <==> key in s.book.reverse && key.0 != phone)
            && (forall key :: key in b.reverse ==> b.reverse[key] == s.book.reverse[key])
  {
    assert Driven(s.book, session);
    DropKeeps(s.book, phone, l.choice.heirs);
    assert Driven(Step(s, l).book, session);
  }

  // ----- Texts that are not requests

  /** This message has been put on the served link, and nothing else has changed; none served, nothing at all. */
  ghost predicate OnlyToHome(s: State, s': State, message: ToHome) {
    s' == match MuxGen(s.slot.home)
          case Some(g) => s.(links := s.links[g := Sent(s.links, g) + [message]])
          case None => s
  }

  /** A connected phone's notification goes to the served link as it is, and changes nothing else. */
  lemma NotificationEffect(s: State, l: Label, phone: PhoneId, obj: Object)
    requires Legal(s, l) && l.event == PhoneText(phone, Some(obj)) && phone in s.book.phones
    requires "method" in obj && obj["method"].Str? && "id" !in obj
    ensures OnlyToHome(s, Step(s, l), FromPhone(obj))
  {
  }

  /** A text that is no JSON object is answered with a parse error that names no id. */
  lemma UnparsableEffect(s: State, l: Label, phone: PhoneId)
    requires Legal(s, l) && l.event == PhoneText(phone, None) && phone in s.book.phones
    ensures Step(s, l) == s.(texts := s.texts[phone := Sent(s.texts, phone) + [Failure(Null, -32700, "Parse error")]])
  {
  }

  /** A text of a phone that is gone, and an object without a method that is no answer to an open question,
      change nothing. */
  lemma IgnoredTexts(s: State, l: Label, phone: PhoneId, text: Option<Object>)
    requires Legal(s, l) && l.event == PhoneText(phone, text)
    requires || phone !in s.book.phones
             || (text.Some? && ("method" in text.value ==> !text.value["method"].Str?)
                 && ("id" !in text.value || (phone, text.value["id"]) !in s.book.reverse
                     || ("result" !in text.value && "error" !in text.value)))
    ensures Step(s, l) == s
  {
  }

  /** An answer to an open question uses up its id; the first one to its claim goes to the served link under
      the id that home gave the question, and any other goes nowhere. */
  lemma AnswerEffect(s: State, l: Label, phone: PhoneId, obj: Object)
    requires Subscribed(s.book) && Legal(s, l) && l.event == PhoneText(phone, Some(obj)) && phone in s.book.phones
    requires ("method" in obj ==> !obj["method"].Str?) && ("result" in obj || "error" in obj)
    requires "id" in obj && (phone, obj["id"]) in s.book.reverse
    ensures var key := (phone, obj["id"]);
            var claim := s.book.reverse[key];
            && claim in s.book.claims
            && var s1 := s.(book := s.book.(reverse := s.book.reverse - {key}, claims := s.book.claims[claim := Taken]));
               match s.book.claims[claim]
               case Open(homeId) => OnlyToHome(s1, Step(s, l), FromPhone(obj["id" := homeId]))
               case Taken => Step(s, l) == s1
  {
    hide WatchersReady, PhonesNumbered, Driven;
  }

  // ----- Sessions

  /** The book once the phone watches the session: nothing else changes, and nobody loses a session it drives. */
  function Joined(b: Book, phone: PhoneId, session: SessionId): Book {
    b.(watchers := b.watchers[session := Watching(b, session) + {phone}],
       driver := if session in b.driver then b.driver else b.driver[session := phone])
  }

  /** A request to load or resume a session makes its phone a watcher, if it is ready, whether or not it can be
      passed on. */
  lemma OpenEffect(s: State, l: Label, phone: PhoneId, obj: Object, session: SessionId)
    requires Legal(s, l) && l.event == PhoneText(phone, Some(obj)) && phone in s.book.phones
    requires AsksTo(obj, "session/load", session) || AsksTo(obj, "session/resume", session)
    ensures Step(s, l).book == if s.book.phones[phone] == Initialized then Joined(s.book, phone, session) else s.book
  {
    hide HeirOk, Unwatch, SessionIn, AboutSession, OnPhoneRequest;
    SessionIs(obj, session);
    HubLoops.RequestArms(s, phone, obj, l.choice.heirs);
  }

  /** The book once the phone no longer watches the session: the last watcher takes it out of both tables, and
      a driver that leaves hands it to one of the watchers left. */
  ghost predicate Left(b: Book, b': Book, phone: PhoneId, session: SessionId) {
    var left := Watching(b, session) - {phone};
    if left == {} then
      b' == b.(watchers := b.watchers - {session}, driver := b.driver - {session})
    else
      && b' == b.(watchers := b.watchers[session := left], driver := b'.driver)
      && session in b.driver && session in b'.driver && b'.driver == b.driver[session := b'.driver[session]]
      && (if b.driver[session] == phone then b'.driver[session] in left else b'.driver[session] == b.driver[session])
  }

  lemma UnwatchLeaves(b: Book, phone: PhoneId, session: SessionId, heirs: map<SessionId, PhoneId>)
    requires Subscribed(b) && HeirOk(b, phone, session, heirs)
    ensures Left(b, Unwatch(b, phone, session, heirs), phone, session)
  {
    assert Driven(b, session);
    assert session !in b.watchers ==> b.watchers - {session} == b.watchers && b.driver - {session} == b.driver;
  }

  /** A request to close a session ends its phone's watch, ready or not and whether or not it can be passed on. */
  lemma CloseEffect(s: State, l: Label, phone: PhoneId, obj: Object, session: SessionId)
    requires Subscribed(s.book) && Legal(s, l) && l.event == PhoneText(phone, Some(obj)) && phone in s.book.phones
    requires AsksTo(obj, "session/close", session)
    ensures Left(s.book, Step(s, l).book, phone, session)
  {
    hide Watch, Unwatch, HeirOk, SessionIn, AboutSession, OnPhoneRequest, Subscribed, Left;
    SessionIs(obj, session);
    HubLoops.RequestArms(s, phone, obj, l.choice.heirs);
    UnwatchLeaves(s.book, phone, session, l.choice.heirs);
  }

  /** Any other request leaves all sessions alone. */
  lemma OtherRequestsEffect(s: State, l: Label, phone: PhoneId, obj: Object)
    requires Legal(s, l) && l.event == PhoneText(phone, Some(obj)) && phone in s.book.phones
    requires "id" in obj && "method" in obj && obj["method"].Str?
    requires forall name, session :: AsksTo(obj, name, session) ==>
               name != "session/load" && name != "session/resume" && name != "session/close"
    ensures Step(s, l).book == s.book.(phones := Step(s, l).book.phones)
  {
    hide Watch, Unwatch, HeirOk, SessionIn, AboutSession, OnPhoneRequest;
    if SessionIn(obj).Some? {
      SessionIs(obj, SessionIn(obj).value);
      assert AsksTo(obj, obj["method"].s, SessionIn(obj).value);
    }
    HubLoops.RequestArms(s, phone, obj, l.choice.heirs);
  }

  /** A result that the served link sends for a phone goes to that phone under the id it used, and to nobody else;
      and if it is about a session, the phone, if it is ready, watches that. */
  lemma ResultEffect(s: State, l: Label, g: Gen, obj: Object, h: nat)
    requires Legal(s, l) && MuxGen(s.slot.home) == Some(g) && HubLinkEffects.Brings(l.event, g, obj, h)
    requires h in s.outstanding && s.outstanding[h].Forwarded?
    ensures var s', phone, origin := Step(s, l), s.outstanding[h].phone, s.outstanding[h].origin;
            && s' == s.(outstanding := s.outstanding - {h}, book := s'.book, texts := s'.texts)
            && s'.texts == (if phone !in s.book.phones then s.texts
                            else s.texts[phone := Sent(s.texts, phone) + [FromHome(obj["id" := origin])]])
            && ((forall session :: !AboutSession(obj, session)) ==> s'.book == s.book)
            && (forall session :: AboutSession(obj, session) ==>
                  s'.book == if phone in s.book.phones && s.book.phones[phone] == Initialized
                             then Joined(s.book, phone, session) else s.book)
  {
    hide SessionIn, AboutSession, Method, Id, AsNat, IsResult, IsRequest, IsNotification;
    HubLinkEffects.BringsResult(l.event, g, obj, h);
    forall session ensures SessionIn(obj) == Some(session) <==> AboutSession(obj, session) { SessionIs(obj, session); }
  }

  /** How the phone that creates a session comes to watch it: the result that names the new session, and has no
      session in any `params`, makes the waiting phone a watcher, and its driver if nobody drives it. */
  lemma NewSessionSubscribes(s: State, l: Label, g: Gen, obj: Object, h: nat, session: SessionId)
    requires Legal(s, l) && MuxGen(s.slot.home) == Some(g) && HubLinkEffects.Brings(l.event, g, obj, h)
    requires h in s.outstanding && s.outstanding[h].Forwarded? && PhoneReady(s.book, s.outstanding[h].phone)
    requires "result" in obj && obj["result"].Obj?
    requires "sessionId" in obj["result"].fields && obj["result"].fields["sessionId"] == Str(session)
    requires !("params" in obj && obj["params"].Obj? && "sessionId" in obj["params"].fields
               && obj["params"].fields["sessionId"].Str?)
    ensures var b, phone := Step(s, l).book, s.outstanding[h].phone;
            && phone in Watching(b, session)
            && session in b.driver && b.driver[session] == if session in s.book.driver then s.book.driver[session] else phone
  {
    hide Legal, Step, HubLinkEffects.Brings;
    ResultEffect(s, l, g, obj, h);
    assert AboutSession(obj, session);
  }

  // ----- Refused while the host is away

  /** A phone whose request is refused because the host is away is told the version under which the last leader
      to register did so, unless that was version 1 or there was none. */
  lemma RefusalNamesVersion(r: Run, j: nat, phone: PhoneId, obj: Object, name: string, version: int)
    requires IsRun(r) && j < |r.labels| && r.labels[j].event == PhoneText(phone, Some(obj))
    requires phone in r.states[j].book.phones && "id" in obj && "method" in obj && obj["method"] == Str(name)
    requires MuxGen(r.states[j].slot.home) == None && name != "initialize" && name != "authenticate"
    requires "session/" <= name ==> name == "session/close" || PhoneReady(r.states[j].book, phone)
    ensures var told, told' := Sent(r.states[j].texts, phone), Sent(r.states[j + 1].texts, phone);
            && (LastRegistered(r, j, version) && version != 1 ==>
                  told' == told + [Failure(obj["id"], -32003,
                    "host is away (unsupported leader protocol version " + Decimal(version) + ")")])
            && ((forall v :: LastRegistered(r, j, v) ==> v == 1) ==>
                  told' == told + [Failure(obj["id"], -32003, "host is away")])
  {
    hide IsRun, LastRegistered, OnPhoneText, HeirOk;
    HubLinkEffects.StepOf(r, j);
    var s := r.states[j];
    HubRequests.AnswersByMethod(s, phone, obj, r.labels[j].choice.heirs);
    RefusedIsLastRegistered(r, j, version);
    if s.slot.refusedVersion.Some? { RefusedIsLastRegistered(r, j, s.slot.refusedVersion.value); }
  }
}

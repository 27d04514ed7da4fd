/** Visiting the members of a set one by one, in whatever order: what the hub's loops over its hash
    tables add up to. */
module HubLoops {
  import opened Json
  import opened SessionOrder
  import opened PendingLoads
  import opened HubState
  import opened HubSteps

  lemma AppendedNone(texts: map<PhoneId, seq<ToPhone>>, text: ToPhone)
    ensures Appended(texts, {}, text) == texts
  {
  }

  lemma AppendedOne(texts: map<PhoneId, seq<ToPhone>>, hit: set<PhoneId>, phone: PhoneId, text: ToPhone)
    requires phone !in hit
    ensures var before := Appended(texts, hit, text);
            Appended(texts, hit + {phone}, text) == before[phone := Sent(before, phone) + [text]]
  {
  }

  /** `after` is `before` with these messages added to one link; none at all leaves it as it was. */
  ghost predicate Added(before: map<Gen, seq<ToHome>>, after: map<Gen, seq<ToHome>>, g: Gen, messages: seq<ToHome>) {
    after == if messages == [] then before else before[g := Sent(before, g) + messages]
  }

  lemma AddedNone(before: map<Gen, seq<ToHome>>, g: Gen)
    ensures Added(before, before, g, [])
  {
  }

  lemma AddedAll(before: map<Gen, seq<ToHome>>, after: map<Gen, seq<ToHome>>, g: Gen, messages: seq<ToHome>)
    requires Added(before, after, g, messages) && messages != []
    ensures after == before[g := Sent(before, g) + messages]
  {
  }

  lemma AddedOne(before: map<Gen, seq<ToHome>>, after: map<Gen, seq<ToHome>>, g: Gen, messages: seq<ToHome>, last: ToHome)
    requires Added(before, after, g, messages)
    ensures Added(before, after[g := Sent(after, g) + [last]], g, messages + [last])
  {
    var more := Sent(before, g) + (messages + [last]);
    assert Sent(after, g) + [last] == more;
    assert after[g := more] == before[g := more];
  }

  lemma NumberedNone(base: int)
    ensures Numbered([], base) == map[]
  {
    assert IdsAfter(base, 0) == {};
  }

  lemma NumberedOne(order: seq<SessionId>, k: nat, base: int)
    requires k < |order|
    ensures Numbered(order[..k + 1], base) == Numbered(order[..k], base)[base + k + 1 := order[k]]
  {
  }

  /** What is noted of `n` load requests numbered after `base`. */
  function LoadWaits(base: int, n: nat): map<ReqId, Wait> {
    map id | id in IdsAfter(base, n) :: HubLoad
  }

  lemma LoadWaitsNone(outstanding: map<ReqId, Wait>, base: int)
    ensures outstanding + LoadWaits(base, 0) == outstanding
  {
    assert IdsAfter(base, 0) == {};
  }

  lemma LoadWaitsOne(outstanding: map<ReqId, Wait>, base: int, n: nat)
    ensures outstanding + LoadWaits(base, n + 1) == (outstanding + LoadWaits(base, n))[base + n + 1 := HubLoad]
  {
  }

  lemma LoadWaitsAll(order: seq<SessionId>, base: int)
    ensures (map id | id in Numbered(order, base) :: HubLoad) == LoadWaits(base, |order|)
  {
  }

  lemma NoLoads(s: State, g: Gen)
    ensures var incoming := CandidateAt(s.slot.home, g);
            && (incoming.None? || !incoming.value.WaitInitialize? ==> AfterInitialize(s, g) == s)
            && (incoming.Some? && incoming.value.WaitInitialize? && s.book.watchers.Keys == {} ==>
                  AfterInitialize(s, g) == FinishSuccessor(s, g))
  {
    hide FinishSuccessor;
  }

  lemma LoadsBegun(s: State, s': State, g: Gen, pending: PendingLoads, order: seq<SessionId>)
    requires s.book.watchers.Keys != {}
    requires CandidateAt(s.slot.home, g).Some? && CandidateAt(s.slot.home, g).value.WaitInitialize?
    requires Some(pending) == Start(s.book.watchers.Keys, s.nextReq) && order == Ordered(s.book.watchers.Keys)
    requires s'.slot.home == if s.slot.home.Dual? then Dual(s.slot.home.incumbent, WaitLoads(g, pending))
                             else BringingUp(WaitLoads(g, pending))
    requires s'.slot == s.slot.(home := s'.slot.home)
    requires s'.book == s.book && s'.texts == s.texts
    requires s'.nextReq == s.nextReq + |order|
    requires s'.outstanding == s.outstanding + LoadWaits(s.nextReq, |order|)
    requires s'.links == s.links[g := Sent(s.links, g) + LoadRequests(order, s.nextReq)]
    ensures s' == AfterInitialize(s, g)
  {
    hide Ordered, LoadWaits, Numbered;
    LoadWaitsAll(order, s.nextReq);
  }

  lemma AskedNone(s: State, obj: Object, claim: ReqId)
    ensures AskAll(s, obj, claim, []) == s
  {
  }

  lemma AskedOne(s: State, obj: Object, claim: ReqId, order: seq<PhoneId>, phone: PhoneId)
    ensures AskAll(s, obj, claim, order + [phone]) == Ask(AskAll(s, obj, claim, order), obj, claim, phone)
  {
    assert (order + [phone])[..|order|] == order;
  }

  lemma AskedSame(s: State, obj: Object, claim: ReqId, order: seq<PhoneId>)
    ensures var s' := AskAll(s, obj, claim, order);
            s' == s.(book := s.book.(reverse := s'.book.reverse, reverseSeq := s'.book.reverseSeq), texts := s'.texts)
  {
    if order != [] { AskedSame(s, obj, claim, order[..|order| - 1]); }
  }

  lemma Member<T>(members: set<T>) returns (x: T)
    requires members != {}
    ensures x in members
  {
    x :| x in members;
  }

  lemma Inhabited(phones: set<PhoneId>)
    requires phones != {}
    ensures exists phone :: phone in phones
  {
    var phone := Member(phones);
  }

  lemma SameMembers(a: set<PhoneId>, b: set<PhoneId>)
    requires forall x :: x in a <==> x in b
    ensures a == b
  {
    if a - b != {} {
      var x := Member(a - b);
      assert false;
    }
    if b - a != {} {
      var x := Member(b - a);
      assert false;
    }
    assert a == a - b + a * b && b == b - a + a * b;
  }

  /** Some order in which a set can be visited. */
  ghost function AnyOrder(phones: set<PhoneId>): (order: seq<PhoneId>)
    ensures Enumerates(order, phones)
  {
    if phones == {} then [] else
      Inhabited(phones);
      var phone :| phone in phones;
      var rest := AnyOrder(phones - {phone});
      assert forall i :: 0 <= i < |rest| ==> rest[i] in phones - {phone};
      [phone] + rest
  }

  /** Some watcher that can take over a session. */
  ghost function AnyHeir(book: Book, phone: PhoneId, session: SessionId): (heirs: map<SessionId, PhoneId>)
    ensures HeirOk(book, phone, session, heirs)
  {
    if Watching(book, session) - {phone} == {} then map[] else
      Inhabited(Watching(book, session) - {phone});
      var next :| next in Watching(book, session) - {phone};
      map[session := next]
  }

  /** Some order in which the targets of a frame's question can be visited. */
  ghost function SomeOrder(book: Book, frame: LeaderFrame): (order: seq<PhoneId>)
    ensures Question(frame).Some? ==> var obj := Question(frame).value;
              Enumerates(order, Targets(book, Method(obj).value, SessionIn(obj).value))
  {
    if Question(frame).None? then [] else
      var obj := Question(frame).value;
      AnyOrder(Targets(book, Method(obj).value, SessionIn(obj).value))
  }

  lemma EofOfCandidate(s: State, g: Gen)
    requires RoleOf(s.slot.home, g) == Candidate
    ensures OnHomeEof(s, g) == s.(slot := FailIncoming(s.slot, g))
  {
  }

  /** Some heir for the session a phone's text closes. */
  ghost function SomeHeirs(book: Book, phone: PhoneId, text: Option<Object>): (heirs: map<SessionId, PhoneId>)
    ensures text.Some? && Closes(text.value).Some? ==> HeirOk(book, phone, Closes(text.value).value, heirs)
  {
    if text.None? || Closes(text.value).None? then map[] else AnyHeir(book, phone, Closes(text.value).value)
  }

  lemma RemovedAfter<T>(watchers: map<SessionId, T>, session: SessionId, left: T)
    ensures watchers[session := left] - {session} == watchers - {session}
  {
  }

  /** The watcher sets with a phone taken out of the `visited` ones, and those it leaves empty removed. */
  ghost function Retained(watchers: map<SessionId, set<PhoneId>>, phone: PhoneId, visited: set<SessionId>)
    : map<SessionId, set<PhoneId>>
  {
    map session | session in watchers && (session in visited ==> watchers[session] - {phone} != {}) ::
      if session in visited then watchers[session] - {phone} else watchers[session]
  }

  lemma RetainedNone(watchers: map<SessionId, set<PhoneId>>, phone: PhoneId)
    ensures Retained(watchers, phone, {}) == watchers
  {
  }

  lemma RetainedOne(watchers: map<SessionId, set<PhoneId>>, phone: PhoneId, visited: set<SessionId>, session: SessionId)
    requires session in watchers && session !in visited
    ensures var before := Retained(watchers, phone, visited);
            var left := watchers[session] - {phone};
            && session in before && before[session] == watchers[session]
            && Retained(watchers, phone, visited + {session})
               == if left == {} then before - {session} else before[session := left]
  {
  }

  /** The drivers with the `visited` sessions of a phone passed to its heirs, or to nobody when unwatched. */
  ghost function PassedOn(driver: map<SessionId, PhoneId>, watched: set<SessionId>, heirs: map<SessionId, PhoneId>,
                          visited: set<SessionId>): map<SessionId, PhoneId>
  {
    map session | session in driver && (session in visited ==> session in watched && session in heirs) ::
      if session in visited then heirs[session] else driver[session]
  }

  lemma PassedOnNone(driver: map<SessionId, PhoneId>, watched: set<SessionId>)
    ensures PassedOn(driver, watched, map[], {}) == driver
  {
  }

  lemma PassedOnOne(driver: map<SessionId, PhoneId>, watched: set<SessionId>, heirs: map<SessionId, PhoneId>,
                    visited: set<SessionId>, session: SessionId, next: PhoneId)
    requires session in driver && session !in visited
    ensures var before := PassedOn(driver, watched, heirs, visited);
            && (session in watched ==>
                  PassedOn(driver, watched, heirs[session := next], visited + {session}) == before[session := next])
            && (session !in watched ==>
                  PassedOn(driver, watched, heirs, visited + {session}) == before - {session})
  {
  }

  lemma Dropped(book: Book, phone: PhoneId, heirs: map<SessionId, PhoneId>)
    requires forall session :: session in book.driver ==> HeirOk(book, phone, session, heirs)
    requires forall session :: session in heirs ==> session in Retained(book.watchers, phone, book.watchers.Keys)
    ensures var watchers := Retained(book.watchers, phone, book.watchers.Keys);
            var orphaned := set session | session in book.driver && book.driver[session] == phone;
            DropPhone(book, phone, heirs)
            == book.(phones := book.phones - {phone},
                     watchers := watchers,
                     driver := PassedOn(book.driver, watchers.Keys, heirs, orphaned),
                     reverse := map key | key in book.reverse && key.0 != phone :: book.reverse[key])
  {
    var watchers := Retained(book.watchers, phone, book.watchers.Keys);
    var orphaned := set session | session in book.driver && book.driver[session] == phone;
    assert DropPhone(book, phone, heirs).watchers == watchers;
    assert DropPhone(book, phone, heirs).driver == PassedOn(book.driver, watchers.Keys, heirs, orphaned);
  }

  lemma ClosesOnlyClose(obj: Object)
    requires IsRequest(obj)
    ensures Closes(obj) == if Method(obj).value == "session/close" then SessionIn(obj) else None
  {
  }

  /** The request handler, arm by arm. */
  lemma RequestArms(s: State, phone: PhoneId, obj: Object, heirs: map<SessionId, PhoneId>)
    requires IsRequest(obj)
    requires Closes(obj).Some? ==> HeirOk(s.book, phone, Closes(obj).value, heirs)
    ensures var name, id, session := Method(obj).value, Id(obj).value, SessionIn(obj);
            OnPhoneRequest(s, phone, obj, heirs) ==
            if name == "initialize" then AnswerInitialize(s, phone, id)
            else if name == "authenticate" then Say(s, phone, Failure(id, -32601, "Method not found"))
            else if name == "session/close" then
              ForwardRequest(if session.Some? then s.(book := Unwatch(s.book, phone, session.value, heirs)) else s, phone, id, obj)
            else if "session/" <= name && !PhoneReady(s.book, phone) then Say(s, phone, Uninitialized(id))
            else
              ForwardRequest(if (name == "session/load" || name == "session/resume") && session.Some?
                             then s.(book := Watch(s.book, phone, session.value)) else s, phone, id, obj)
  {
    hide AnswerInitialize, Say, ForwardRequest, Unwatch, Watch, HeirOk, SessionIn, Uninitialized;
  }
}

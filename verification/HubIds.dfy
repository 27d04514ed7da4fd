/** Ids toward home: requests on links, waits and claims draw from one counter, and no number is
    ever used twice. */
module HubIds {
  import opened Json
  import opened SessionOrder
  import opened PendingLoads
  import opened HubState
  import opened HubSteps
  import HubLinks

  /** The id under which home is to answer this message, if it is a request. */
  function RequestId(m: ToHome): Option<int> {
    match m
    case Initialize(id) => Some(id)
    case Load(id, _) => Some(id)
    case FromPhone(obj) => if IsRequest(obj) then AsNat(Id(obj)) else None
  }

  ghost predicate Carries(out: seq<ToHome>, h: ReqId) {
    exists k :: 0 <= k < |out| && RequestId(out[k]) == Some(h)
  }

  /** Request ids on one link only grow, and none is beyond the counter. */
  ghost predicate Growing(out: seq<ToHome>, bound: int) {
    && (forall k :: 0 <= k < |out| && RequestId(out[k]).Some? ==> 1 <= RequestId(out[k]).value <= bound)
    && (forall j, k :: 0 <= j < k < |out| && RequestId(out[j]).Some? && RequestId(out[k]).Some? ==>
          RequestId(out[j]).value < RequestId(out[k]).value)
    && (forall k :: 0 <= k < |out| && out[k].FromPhone? && IsRequest(out[k].obj) ==> RequestId(out[k]).Some?)
  }

  ghost predicate Asked(links: map<Gen, seq<ToHome>>, h: ReqId) {
    exists g :: Carries(Sent(links, g), h)
  }

  /** No two requests the hub ever put on any links carry the same id. */
  ghost predicate NeverReused(links: map<Gen, seq<ToHome>>, bound: int) {
    && bound >= 0
    && (forall g :: Growing(Sent(links, g), bound))
    && (forall h, g, g' :: Carries(Sent(links, g), h) && Carries(Sent(links, g'), h) ==> g == g')
  }

  /** Waits and claims are under disjoint numbers; a wait is for a request that was put on a link,
      a claim is under a number that never was. */
  ghost predicate IdsOk(s: State) {
    && NeverReused(s.links, s.nextReq)
    && (forall h :: h in s.outstanding ==> 1 <= h <= s.nextReq && h !in s.book.claims && Asked(s.links, h))
    && (forall h :: h in s.book.claims ==> 1 <= h <= s.nextReq && !Asked(s.links, h))
  }

  // ----- What an append does

  ghost predicate FreshIds(messages: seq<ToHome>, base: int, bound: int) {
    && 0 <= base <= bound
    && (forall k :: 0 <= k < |messages| && RequestId(messages[k]).Some? ==> base < RequestId(messages[k]).value <= bound)
    && (forall j, k :: 0 <= j < k < |messages| && RequestId(messages[j]).Some? && RequestId(messages[k]).Some? ==>
          RequestId(messages[j]).value < RequestId(messages[k]).value)
    && (forall k :: 0 <= k < |messages| && messages[k].FromPhone? && IsRequest(messages[k].obj) ==>
          RequestId(messages[k]).Some?)
  }

  lemma CarriesAppend(out: seq<ToHome>, messages: seq<ToHome>, h: ReqId)
    ensures Carries(out + messages, h) <==> Carries(out, h) || Carries(messages, h)
  {
    if Carries(out, h) {
      var k :| 0 <= k < |out| && RequestId(out[k]) == Some(h);
      assert (out + messages)[k] == out[k];
    }
    if Carries(messages, h) {
      var k :| 0 <= k < |messages| && RequestId(messages[k]) == Some(h);
      assert (out + messages)[|out| + k] == messages[k];
    }
  }

  lemma GrowingAppend(out: seq<ToHome>, messages: seq<ToHome>, base: int, bound: int)
    requires Growing(out, base) && FreshIds(messages, base, bound)
    ensures Growing(out + messages, bound)
  {
  }

  lemma CarriedBelow(out: seq<ToHome>, bound: int, h: ReqId)
    requires Growing(out, bound) && Carries(out, h)
    ensures 1 <= h <= bound
  {
  }

  lemma CarriedAbove(messages: seq<ToHome>, base: int, bound: int, h: ReqId)
    requires FreshIds(messages, base, bound) && Carries(messages, h)
    ensures base < h <= bound
  {
  }

  lemma OneCarrier(links: map<Gen, seq<ToHome>>, g: Gen, messages: seq<ToHome>, base: int, bound: int,
                   h: ReqId, x: Gen, x': Gen)
    requires NeverReused(links, base) && FreshIds(messages, base, bound)
    requires var links' := links[g := Sent(links, g) + messages];
             Carries(Sent(links', x), h) && Carries(Sent(links', x'), h)
    ensures x == x'
  {
    hide Carries, FreshIds, Growing;
    CarriesAppend(Sent(links, g), messages, h);
    assert Growing(Sent(links, x), base) && Growing(Sent(links, x'), base);
    if Carries(Sent(links, x), h) { CarriedBelow(Sent(links, x), base, h); }
    if Carries(Sent(links, x'), h) { CarriedBelow(Sent(links, x'), base, h); }
    if Carries(messages, h) { CarriedAbove(messages, base, bound, h); }
  }

  lemma AppendNeverReuses(links: map<Gen, seq<ToHome>>, g: Gen, messages: seq<ToHome>, base: int, bound: int)
    requires NeverReused(links, base) && FreshIds(messages, base, bound)
    ensures NeverReused(links[g := Sent(links, g) + messages], bound)
  {
    var links' := links[g := Sent(links, g) + messages];
    GrowingAppend(Sent(links, g), messages, base, bound);
    forall x ensures Growing(Sent(links', x), bound) {
      assert Growing(Sent(links, x), base);
    }
    hide Carries, Growing;
    forall h, x, x' | Carries(Sent(links', x), h) && Carries(Sent(links', x'), h) ensures x == x' {
      OneCarrier(links, g, messages, base, bound, h, x, x');
    }
  }

  lemma AskedAppend(links: map<Gen, seq<ToHome>>, g: Gen, messages: seq<ToHome>, h: ReqId)
    ensures Asked(links[g := Sent(links, g) + messages], h) <==> Asked(links, h) || Carries(messages, h)
  {
    var links' := links[g := Sent(links, g) + messages];
    CarriesAppend(Sent(links, g), messages, h);
    if Asked(links, h) {
      var x :| Carries(Sent(links, x), h);
      assert Carries(Sent(links', x), h);
    }
    if Carries(messages, h) { assert Carries(Sent(links', g), h); }
    if Asked(links', h) {
      var x :| Carries(Sent(links', x), h);
      assert x != g ==> Carries(Sent(links, x), h);
    }
  }

  /** Messages with fresh ids go on a link, and waits for them into the table. */
  lemma SendKeeps(s: State, s': State, g: Gen, messages: seq<ToHome>)
    requires IdsOk(s) && FreshIds(messages, s.nextReq, s'.nextReq)
    requires s'.links == s.links[g := Sent(s.links, g) + messages] && s'.book.claims == s.book.claims
    requires forall h :: h in s'.outstanding ==> h in s.outstanding || Carries(messages, h)
    ensures IdsOk(s')
  {
    AppendNeverReuses(s.links, g, messages, s.nextReq, s'.nextReq);
    hide Carries, Asked, NeverReused, FreshIds;
    forall h | h in s'.outstanding ensures 1 <= h <= s'.nextReq && h !in s.book.claims && Asked(s'.links, h) {
      AskedAppend(s.links, g, messages, h);
      BoundsOf(messages, s.nextReq, s'.nextReq, h);
    }
    forall h | h in s.book.claims ensures 1 <= h <= s'.nextReq && !Asked(s'.links, h) {
      AskedAppend(s.links, g, messages, h);
      BoundsOf(messages, s.nextReq, s'.nextReq, h);
    }
  }

  lemma BoundsOf(messages: seq<ToHome>, base: int, bound: int, h: ReqId)
    requires FreshIds(messages, base, bound)
    ensures 0 <= base <= bound
    ensures Carries(messages, h) ==> base < h <= bound
  {
  }

  lemma OneFresh(m: ToHome, base: int)
    requires base >= 0 && RequestId(m) == Some(base + 1)
    ensures FreshIds([m], base, base + 1) && Carries([m], base + 1)
  {
    assert [m][0] == m;
  }

  lemma NoneFresh(m: ToHome, base: int)
    requires base >= 0 && m.FromPhone? && !IsRequest(m.obj)
    ensures FreshIds([m], base, base)
  {
  }

  lemma LoadsFresh(order: seq<SessionId>, base: int)
    requires base >= 0
    ensures FreshIds(LoadRequests(order, base), base, base + |order|)
    ensures forall h :: base < h <= base + |order| ==> Carries(LoadRequests(order, base), h)
  {
    var requests := LoadRequests(order, base);
    forall h | base < h <= base + |order| ensures Carries(requests, h) {
      assert RequestId(requests[h - base - 1]) == Some(h);
    }
  }

  /** Nothing is sent, no claim opens or goes, and waits can only go. */
  lemma ShrinkKeeps(s: State, s': State)
    requires IdsOk(s) && s'.links == s.links && s'.nextReq == s.nextReq
    requires forall h :: h in s'.outstanding ==> h in s.outstanding
    requires forall h :: h in s'.book.claims <==> h in s.book.claims
    ensures IdsOk(s')
  {
  }

  // ----- The handlers

  lemma BeginInitializeKeeps(s: State, g: Gen)
    requires IdsOk(s)
    ensures IdsOk(BeginInitialize(s, g))
  {
    OneFresh(Initialize(s.nextReq + 1), s.nextReq);
    hide IdsOk, FreshIds, Carries, WithIncoming;
    SendKeeps(s, BeginInitialize(s, g), g, [Initialize(s.nextReq + 1)]);
  }

  lemma BeginLoadsKeeps(s: State, g: Gen)
    requires IdsOk(s) && s.book.watchers.Keys != {}
    ensures IdsOk(BeginLoads(s, g))
  {
    var order := Ordered(s.book.watchers.Keys);
    LoadsFresh(order, s.nextReq);
    hide IdsOk, FreshIds, Carries, WithIncoming;
    SendKeeps(s, BeginLoads(s, g), g, LoadRequests(order, s.nextReq));
  }

  lemma ForwardKeeps(s: State, phone: PhoneId, origin: Value, obj: Object)
    requires IdsOk(s) && IsRequest(obj)
    ensures IdsOk(ForwardRequest(s, phone, origin, obj))
  {
    var s' := ForwardRequest(s, phone, origin, obj);
    if MuxGen(s.slot.home).Some? {
      var m := FromPhone(SetId(obj, Int(s.nextReq + 1)));
      assert RequestId(m) == Some(s.nextReq + 1);
      OneFresh(m, s.nextReq);
      hide IdsOk, FreshIds, Carries;
      SendKeeps(s, s', MuxGen(s.slot.home).value, [m]);
    } else {
      ShrinkKeeps(s, s');
    }
  }

  lemma PassKeeps(s: State, obj: Object)
    requires IdsOk(s) && !IsRequest(obj)
    ensures IdsOk(SendMux(s, FromPhone(obj)))
  {
    if MuxGen(s.slot.home).Some? {
      NoneFresh(FromPhone(obj), s.nextReq);
      hide IdsOk, FreshIds, Carries;
      SendKeeps(s, SendMux(s, FromPhone(obj)), MuxGen(s.slot.home).value, [FromPhone(obj)]);
    }
  }

  lemma AskedSame(links: map<Gen, seq<ToHome>>, links': map<Gen, seq<ToHome>>, h: ReqId)
    requires forall g :: Sent(links', g) == Sent(links, g)
    ensures Asked(links', h) <==> Asked(links, h)
  {
    if Asked(links, h) { var g :| Carries(Sent(links, g), h); assert Carries(Sent(links', g), h); }
    if Asked(links', h) { var g :| Carries(Sent(links', g), h); assert Carries(Sent(links, g), h); }
  }

  lemma AcceptKeeps(s: State, now: int)
    requires IdsOk(s) && HubLinks.LinksOk(s.slot, s.links)
    ensures IdsOk(Accept(s, now))
  {
    var s' := Accept(s, now);
    assert s.slot.nextGen + 1 !in s.links;
    assert forall g :: Sent(s'.links, g) == Sent(s.links, g);
    hide HubLinks.LinksOk, Carries, Growing, Asked;
    forall h ensures Asked(s'.links, h) <==> Asked(s.links, h) { AskedSame(s.links, s'.links, h); }
  }

  lemma AskedBelow(links: map<Gen, seq<ToHome>>, bound: int, h: ReqId)
    requires NeverReused(links, bound) && Asked(links, h)
    ensures 1 <= h <= bound
  {
    var g :| Carries(Sent(links, g), h);
    assert Growing(Sent(links, g), bound);
  }

  lemma OpenKeeps(s: State, homeId: Value)
    requires IdsOk(s)
    ensures IdsOk(s.(nextReq := s.nextReq + 1, book := OpenClaim(s.book, s.nextReq + 1, homeId)))
  {
    var h := s.nextReq + 1;
    forall g ensures Growing(Sent(s.links, g), h) { assert Growing(Sent(s.links, g), s.nextReq); }
    if Asked(s.links, h) { AskedBelow(s.links, s.nextReq, h); }
  }

  lemma {:induction false} AskAllClaims(s: State, obj: Object, claim: ReqId, order: seq<PhoneId>)
    ensures AskAll(s, obj, claim, order).book.claims == s.book.claims
  {
    if order != [] { AskAllClaims(s, obj, claim, order[..|order| - 1]); }
  }

  lemma ReverseKeeps(s: State, obj: Object, order: seq<PhoneId>)
    requires IdsOk(s) && IsRequest(obj)
    ensures IdsOk(OnReverseRequest(s, obj, order))
  {
    hide IdsOk, AskAll;
    var key := s.nextReq + 1;
    var s1 := s.(nextReq := key, book := OpenClaim(s.book, key, Id(obj).value));
    OpenKeeps(s, Id(obj).value);
    HubLinks.AskAllSame(s1, obj, key, order);
    AskAllClaims(s1, obj, key, order);
    ShrinkKeeps(s1, AskAll(s1, obj, key, order));
  }

  lemma FinishKeeps(s: State, g: Gen)
    requires IdsOk(s)
    ensures IdsOk(FinishSuccessor(s, g))
  {
    ShrinkKeeps(s, FinishSuccessor(s, g));
  }

  lemma ResultKeeps(s: State, g: Gen, obj: Object)
    requires IdsOk(s)
    ensures IdsOk(OnHomeResult(s, g, obj))
  {
    hide IdsOk, FinishSuccessor, BeginLoads, RoleOf, CandidateAt, FailIncoming, WithIncoming, Say;
    var id := AsNat(Id(obj));
    if id.Some? && id.value in s.outstanding {
      var s1 := s.(outstanding := s.outstanding - {id.value});
      ShrinkKeeps(s, s1);
      match s.outstanding[id.value]
      case Forwarded(phone, origin) => ForwardedKeeps(s1, g, obj, phone, origin);
      case HubInitialize =>
        ShrinkKeeps(s, s1.(slot := FailIncoming(s.slot, g)));
        FinishKeeps(s1, g);
        if s1.book.watchers.Keys != {} { BeginLoadsKeeps(s1, g); }
      case HubLoad => LoadKeeps(s1, g, id.value);
    }
  }

  lemma LoadKeeps(s: State, g: Gen, id: ReqId)
    requires IdsOk(s)
    ensures IdsOk(AfterLoad(s, g, id))
  {
    ShrinkKeeps(s, AfterLoad(s, g, id));
  }

  lemma ForwardedKeeps(s: State, g: Gen, obj: Object, phone: PhoneId, origin: Value)
    requires IdsOk(s)
    ensures IdsOk(OnForwardedResult(s, g, obj, phone, origin))
  {
    ShrinkKeeps(s, OnForwardedResult(s, g, obj, phone, origin));
  }

  lemma EofKeeps(s: State, g: Gen)
    requires IdsOk(s)
    ensures IdsOk(OnHomeEof(s, g))
  {
    ShrinkKeeps(s, OnHomeEof(s, g));
  }

  lemma RegisteredKeeps(s: State, g: Gen, ready: bool, version: int, now: int)
    requires IdsOk(s)
    ensures IdsOk(OnRegistered(s, g, ready, version, now))
  {
    hide IdsOk, BeginInitialize, FailIncoming, WithIncoming, CandidateAt;
    var s1 := s.(slot := s.slot.(refusedVersion := None));
    ShrinkKeeps(s, s1);
    BeginInitializeKeeps(s1, g);
    ShrinkKeeps(s, s1.(slot := WithIncoming(s1.slot, WaitReady(g, now + READY_WAIT))));
    ShrinkKeeps(s, s.(slot := FailIncoming(s.slot.(refusedVersion := Some(version)), g)));
  }

  lemma HomeFrameKeeps(s: State, g: Gen, frame: LeaderFrame, order: seq<PhoneId>, now: int)
    requires IdsOk(s)
    ensures IdsOk(OnHomeFrame(s, g, frame, order, now))
  {
    hide IdsOk, OnRegistered, OnHomeEof, BeginInitialize, OnReverseRequest, OnHomeResult, RoleOf, SayAll, CandidateAt;
    match frame
    case Registered(ready, version) => RegisteredKeeps(s, g, ready, version, now);
    case LeaderReady => BeginInitializeKeeps(s, g);
    case LeaderError => EofKeeps(s, g);
    case Acp(payload) =>
      if payload.Some? {
        if IsRequest(payload.value) {
          ReverseKeeps(s, payload.value, order);
        } else if IsNotification(payload.value) {
          NotificationKeeps(s, payload.value);
        } else if IsResult(payload.value) {
          ResultKeeps(s, g, payload.value);
        }
      }
    case Pong =>
    case OtherFrame =>
  }

  lemma NotificationKeeps(s: State, obj: Object)
    requires IdsOk(s) && IsNotification(obj)
    ensures IdsOk(OnHomeNotification(s, obj))
  {
    ShrinkKeeps(s, OnHomeNotification(s, obj));
  }

  lemma SubscribeClaims(b: Book, phone: PhoneId, obj: Object, heirs: map<SessionId, PhoneId>)
    requires Closes(obj).Some? ==> HeirOk(b, phone, Closes(obj).value, heirs)
    ensures Subscribe(b, phone, obj, heirs).claims == b.claims
  {
  }

  lemma RequestKeeps(s: State, phone: PhoneId, obj: Object, heirs: map<SessionId, PhoneId>)
    requires IdsOk(s) && IsRequest(obj)
    requires Closes(obj).Some? ==> HeirOk(s.book, phone, Closes(obj).value, heirs)
    ensures IdsOk(OnPhoneRequest(s, phone, obj, heirs))
  {
    hide IdsOk, Subscribe, AnswerInitialize, Say, HeirOk, NeedsInitialized, ForwardRequest;
    SubscribeClaims(s.book, phone, obj, heirs);
    var s1 := s.(book := Subscribe(s.book, phone, obj, heirs));
    ShrinkKeeps(s, s1);
    ForwardKeeps(s1, phone, Id(obj).value, obj);
    SaidKeeps(s, phone, Failure(Id(obj).value, -32601, "Method not found"));
    SaidKeeps(s, phone, Uninitialized(Id(obj).value));
    AnswerInitializeKeeps(s, phone, Id(obj).value);
  }

  lemma SaidKeeps(s: State, phone: PhoneId, text: ToPhone)
    requires IdsOk(s)
    ensures IdsOk(Say(s, phone, text))
  {
    ShrinkKeeps(s, Say(s, phone, text));
  }

  lemma AnswerInitializeKeeps(s: State, phone: PhoneId, id: Value)
    requires IdsOk(s)
    ensures IdsOk(AnswerInitialize(s, phone, id))
  {
    ShrinkKeeps(s, AnswerInitialize(s, phone, id));
  }

  lemma ReplyKeeps(s: State, phone: PhoneId, obj: Object)
    requires IdsOk(s) && IsReply(obj)
    ensures IdsOk(OnPhoneReply(s, phone, obj))
  {
    var key := (phone, Id(obj).value);
    if key in s.book.reverse {
      var s1 := s.(book := Answered(s.book, key));
      ShrinkKeeps(s, s1);
      var claim := s.book.reverse[key];
      if claim in s.book.claims && s.book.claims[claim].Open? {
        hide IdsOk, SendMux;
        PassKeeps(s1, SetId(obj, s.book.claims[claim].homeId));
      }
    }
  }

  lemma PhoneTextKeeps(s: State, phone: PhoneId, text: Option<Object>, heirs: map<SessionId, PhoneId>)
    requires IdsOk(s)
    requires text.Some? && Closes(text.value).Some? ==> HeirOk(s.book, phone, Closes(text.value).value, heirs)
    ensures IdsOk(OnPhoneText(s, phone, text, heirs))
  {
    hide IdsOk, SendMux, HeirOk, OnPhoneRequest, OnPhoneReply, Say;
    SaidKeeps(s, phone, Failure(Null, -32700, "Parse error"));
    if text.Some? {
      if IsRequest(text.value) {
        RequestKeeps(s, phone, text.value, heirs);
      } else if IsNotification(text.value) {
        PassKeeps(s, text.value);
      } else if IsReply(text.value) {
        ReplyKeeps(s, phone, text.value);
      }
    }
  }

  /** No number is reused, whatever happens. */
  lemma StepKeepsIds(s: State, l: Label)
    requires IdsOk(s) && HubLinks.LinksOk(s.slot, s.links) && Legal(s, l)
    ensures IdsOk(Step(s, l))
  {
    hide IdsOk, HubLinks.LinksOk, OnHomeFrame, OnPhoneText, DropPhone, AddPhone, Accept, OnHomeEof;
    match l.event
    case Accepted => AcceptKeeps(s, l.now);
    case HomeFrame(g, frame) => HomeFrameKeeps(s, g, frame, l.choice.order, l.now);
    case HomeEof(g) => EofKeeps(s, g);
    case PhoneText(phone, text) => PhoneTextKeeps(s, phone, text, l.choice.heirs);
    case PhoneEof(phone) => QuietKeeps(s, l);
    case PhoneHello => QuietKeeps(s, l);
    case DeadlinePassed => ShrinkKeeps(s, OnDeadline(s));
  }

  lemma QuietKeeps(s: State, l: Label)
    requires IdsOk(s) && Legal(s, l) && (l.event.PhoneEof? || l.event.PhoneHello?)
    ensures IdsOk(Step(s, l))
  {
    ShrinkKeeps(s, Step(s, l));
  }
}

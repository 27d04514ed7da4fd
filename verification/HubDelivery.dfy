/** Results from home reach the phone whose request they answer, under its own id, at most once,
    and nobody else. */
module HubDelivery {
  import opened Json
  import opened SessionOrder
  import opened PendingLoads
  import opened HubState
  import opened HubSteps
  import opened HubRuns
  import opened HubReplacement
  import opened HubRequests
  import HubSubscriptions
  import HubLinks
  import HubIds
  import HubTexts

  /** A text that passes on a result from home. */
  predicate IsPassedResult(text: ToPhone) {
    text.FromHome? && Method(text.obj).None?
  }

  /** The channels only gain texts, none of which passes on a result. */
  ghost predicate NoResultAdded(texts: map<PhoneId, seq<ToPhone>>, texts': map<PhoneId, seq<ToPhone>>) {
    forall q :: GainsNoResult(Sent(texts, q), Sent(texts', q))
  }

  ghost predicate GainsNoResult(out: seq<ToPhone>, out': seq<ToPhone>) {
    out <= out' && forall k :: |out| <= k < |out'| ==> !IsPassedResult(out'[k])
  }

  /** One result, under a waiting id, on the served link: the phone that waits gets it under the id
      it used, and no other channel changes. */
  ghost predicate DeliversResult(s: State, event: Event, s': State) {
    && event.HomeFrame? && MuxGen(s.slot.home) == Some(event.gen) && ResultId(event, event.gen).Some?
    && ResultId(event, event.gen).value in s.outstanding
    && s.outstanding[ResultId(event, event.gen).value].Forwarded?
    && var wait := s.outstanding[ResultId(event, event.gen).value];
       wait.phone in s.book.phones
       && s'.texts == s.texts[wait.phone := Sent(s.texts, wait.phone)
                                + [FromHome(SetId(ResultFrom(event, event.gen).value, wait.origin))]]
  }

  lemma SayGains(s: State, phone: PhoneId, text: ToPhone)
    requires !IsPassedResult(text)
    ensures NoResultAdded(s.texts, Say(s, phone, text).texts)
  {
  }

  lemma SayAllGains(s: State, phones: set<PhoneId>, text: ToPhone)
    requires !IsPassedResult(text)
    ensures NoResultAdded(s.texts, SayAll(s, phones, text).texts)
  {
    forall q ensures GainsNoResult(Sent(s.texts, q), Sent(SayAll(s, phones, text).texts, q)) {
      assert Sent(SayAll(s, phones, text).texts, q) == Sent(s.texts, q)
             || Sent(SayAll(s, phones, text).texts, q) == Sent(s.texts, q) + [text];
    }
  }

  lemma GainsTransitive(a: map<PhoneId, seq<ToPhone>>, b: map<PhoneId, seq<ToPhone>>, c: map<PhoneId, seq<ToPhone>>)
    requires NoResultAdded(a, b) && NoResultAdded(b, c)
    ensures NoResultAdded(a, c)
  {
    forall q ensures GainsNoResult(Sent(a, q), Sent(c, q)) {
      assert GainsNoResult(Sent(a, q), Sent(b, q)) && GainsNoResult(Sent(b, q), Sent(c, q));
    }
  }

  lemma NothingGained(texts: map<PhoneId, seq<ToPhone>>)
    ensures NoResultAdded(texts, texts)
  {
  }

  lemma {:induction false} AskAllGains(s: State, obj: Object, claim: ReqId, order: seq<PhoneId>)
    requires IsRequest(obj)
    ensures NoResultAdded(s.texts, AskAll(s, obj, claim, order).texts)
  {
    hide NoResultAdded, Say;
    if order == [] {
      NothingGained(s.texts);
    } else {
      var s1 := AskAll(s, obj, claim, order[..|order| - 1]);
      var text := FromHome(SetId(obj, QuestionId(s1.book.reverseSeq + 1)));
      AskAllGains(s, obj, claim, order[..|order| - 1]);
      SayGains(s1.(book := AskBook(s1.book, claim, order[|order| - 1])), order[|order| - 1], text);
      GainsTransitive(s.texts, s1.texts, AskAll(s, obj, claim, order).texts);
    }
  }

  lemma BroadcastGains(s: State, away: bool)
    ensures NoResultAdded(s.texts, Broadcast(s, away).texts)
  {
    SayAllGains(s, ReadyPhones(s.book), HostAway(away));
  }

  lemma FinishGains(s: State, g: Gen, id: ReqId)
    ensures NoResultAdded(s.texts, FinishSuccessor(s, g).texts)
    ensures NoResultAdded(s.texts, AfterLoad(s, g, id).texts)
    ensures NoResultAdded(s.texts, AfterInitialize(s, g).texts)
  {
    hide NoResultAdded, Broadcast, Loaded, Start, Ordered, CandidateAt;
    NothingGained(s.texts);
    BroadcastGains(s.(slot := s.slot.(home := Sole(g))), false);
  }

  lemma ResultDelivered(s: State, g: Gen, obj: Object)
    requires IsResult(obj) && Live(s.slot.home, g)
    ensures var s', event := OnHomeResult(s, g, obj), HomeFrame(g, Acp(Some(obj)));
            NoResultAdded(s.texts, s'.texts) || DeliversResult(s, event, s')
  {
    hide NoResultAdded, AfterInitialize, AfterLoad, FailIncoming, CandidateAt, Live;
    NothingGained(s.texts);
    var id := AsNat(Id(obj));
    if id.Some? && id.value in s.outstanding {
      var s1 := s.(outstanding := s.outstanding - {id.value});
      FinishGains(s1, g, id.value);
      if s.outstanding[id.value].Forwarded? {
        HubSubscriptions.WatchPhones(s.book, s.outstanding[id.value].phone, SessionIn(obj));
      }
    }
  }

  lemma HomeFrameDelivers(s: State, g: Gen, frame: LeaderFrame, order: seq<PhoneId>, now: int)
    ensures var s', event := OnHomeFrame(s, g, frame, order, now), HomeFrame(g, frame);
            NoResultAdded(s.texts, s'.texts) || DeliversResult(s, event, s')
  {
    hide NoResultAdded, DeliversResult, OnRegistered, OnLeaderReady, OnHomeEof, OnReverseRequest, OnHomeResult,
      OnHomeNotification, CandidateAt;
    NothingGained(s.texts);
    match frame
    case Registered(ready, version) => RegisteredTexts(s, g, ready, version, now);
    case LeaderReady => RegisteredTexts(s, g, true, 1, now);
    case LeaderError => EofGains(s, g);
    case Acp(payload) =>
      if payload.Some? && Live(s.slot.home, g) {
        if IsRequest(payload.value) {
          ReverseGains(s, payload.value, order);
        } else if IsNotification(payload.value) {
          NotificationGains(s, payload.value);
        } else if IsResult(payload.value) {
          ResultDelivered(s, g, payload.value);
        }
      }
    case Pong =>
    case OtherFrame =>
  }

  lemma RegisteredTexts(s: State, g: Gen, ready: bool, version: int, now: int)
    ensures OnRegistered(s, g, ready, version, now).texts == s.texts
    ensures OnLeaderReady(s, g).texts == s.texts
  {
  }

  lemma EofGains(s: State, g: Gen)
    ensures NoResultAdded(s.texts, OnHomeEof(s, g).texts)
  {
    hide NoResultAdded, Broadcast;
    NothingGained(s.texts);
    BroadcastGains(s.(slot := LoseMux(s.slot, g)), true);
  }

  lemma ReverseGains(s: State, obj: Object, order: seq<PhoneId>)
    requires IsRequest(obj)
    ensures NoResultAdded(s.texts, OnReverseRequest(s, obj, order).texts)
  {
    hide NoResultAdded, AskAll;
    var key := s.nextReq + 1;
    NothingGained(s.texts);
    AskAllGains(s.(nextReq := key, book := OpenClaim(s.book, key, Id(obj).value)), obj, key, order);
  }

  lemma NotificationGains(s: State, obj: Object)
    requires IsNotification(obj)
    ensures NoResultAdded(s.texts, OnHomeNotification(s, obj).texts)
  {
    NothingGained(s.texts);
    if SessionIn(obj).Some? { SayAllGains(s, Watching(s.book, SessionIn(obj).value), FromHome(obj)); }
  }

  lemma LocalGains(s: State, s': State, phone: PhoneId, origin: Value)
    requires AnsweredHere(s, s', phone, origin)
    ensures NoResultAdded(s.texts, s'.texts)
  {
  }

  lemma PhoneTextGains(s: State, phone: PhoneId, text: Option<Object>, heirs: map<SessionId, PhoneId>)
    requires text.Some? && Closes(text.value).Some? ==> HeirOk(s.book, phone, Closes(text.value).value, heirs)
    ensures NoResultAdded(s.texts, OnPhoneText(s, phone, text, heirs).texts)
  {
    hide NoResultAdded, OnPhoneRequest, HeirOk, AnsweredHere, Say;
    NothingGained(s.texts);
    SayGains(s, phone, Failure(Null, -32700, "Parse error"));
    if phone in s.book.phones && text.Some? && IsRequest(text.value) {
      RequestAnsweredOrForwarded(s, phone, text.value, heirs);
      if KeptHere(s, phone, Method(text.value).value) {
        LocalGains(s, OnPhoneText(s, phone, text, heirs), phone, Id(text.value).value);
      }
    }
  }

  lemma StepDelivers(s: State, l: Label)
    requires Legal(s, l) && HubTexts.TextsOk(s)
    ensures NoResultAdded(s.texts, Step(s, l).texts) || DeliversResult(s, l.event, Step(s, l))
  {
    hide NoResultAdded, DeliversResult, HubTexts.TextsOk, OnHomeFrame, OnPhoneText, DropPhone, OnPhoneHello, OnHomeEof;
    NothingGained(s.texts);
    match l.event
    case Accepted =>
    case HomeFrame(g, frame) => HomeFrameDelivers(s, g, frame, l.choice.order, l.now);
    case HomeEof(g) => EofGains(s, g);
    case PhoneText(phone, text) => PhoneTextGains(s, phone, text, l.choice.heirs);
    case PhoneEof(phone) =>
    case PhoneHello => HelloGains(s);
    case DeadlinePassed =>
  }

  /** A result spends the wait under its id in any case. It reaches the phone, and nobody else, exactly
      when it comes on the served link while that phone is still connected; otherwise it reaches nobody. */
  lemma ResultIsDeliveredIff(s: State, l: Label, h: ReqId)
    requires Legal(s, l) && ResultHere(s, l.event, h)
    requires h in s.outstanding && s.outstanding[h].Forwarded?
    ensures var s', wait, obj := Step(s, l), s.outstanding[h], ResultFrom(l.event, l.event.gen).value;
            && h !in s'.outstanding
            && (MuxGen(s.slot.home) == Some(l.event.gen) && wait.phone in s.book.phones <==>
                Sent(s'.texts, wait.phone) == Sent(s.texts, wait.phone) + [FromHome(SetId(obj, wait.origin))])
            && (MuxGen(s.slot.home) == Some(l.event.gen) && wait.phone in s.book.phones ==> DeliversResult(s, l.event, s'))
            && (MuxGen(s.slot.home) != Some(l.event.gen) || wait.phone !in s.book.phones ==> s'.texts == s.texts)
  {
    hide SayAll, OnReverseRequest, OnRegistered, OnHomeEof, SetId, Watch;
    var obj := ResultFrom(l.event, l.event.gen).value;
    HubSubscriptions.WatchPhones(s.book, s.outstanding[h].phone, SessionIn(obj));
    var before := Sent(s.texts, s.outstanding[h].phone);
    assert before != before + [FromHome(SetId(obj, s.outstanding[h].origin))];
  }

  /** A result under an id nothing waits under changes nothing. */
  lemma UnawaitedChangesNothing(s: State, l: Label, h: ReqId)
    requires Legal(s, l) && l.event.HomeFrame? && ResultId(l.event, l.event.gen) == Some(h) && h !in s.outstanding
    ensures Step(s, l) == s
  {
    hide OnReverseRequest, OnHomeNotification, OnRegistered, OnLeaderReady, OnHomeEof, AfterInitialize, AfterLoad;
  }

  lemma HelloGains(s: State)
    requires HubTexts.TextsOk(s)
    ensures NoResultAdded(s.texts, OnPhoneHello(s).texts)
  {
    assert s.book.nextPhone + 1 !in s.texts;
  }

  // ----- Over a run

  /** In step `j` phone's request with id `origin` was put on the served link under id `h`. */
  ghost predicate ForwardedAt(r: Run, j: nat, phone: PhoneId, origin: Value, h: ReqId)
    requires j < |r.labels| && |r.states| == |r.labels| + 1
  {
    ForwardedHere(r.states[j], r.labels[j].event, r.states[j + 1], phone, origin, h)
  }

  lemma StepOf(r: Run, i: nat)
    requires IsRun(r) && i < |r.labels|
    ensures Good(r.states[i])
    ensures Legal(r.states[i], r.labels[i]) && r.states[i + 1] == Step(r.states[i], r.labels[i])
    ensures HubIds.IdsOk(r.states[i]) && Ledger(r.states[i], r.labels[i].event, r.states[i + 1])
  {
    hide Step, Legal, Ledger, HubSubscriptions.Subscribed, HubLinks.LinksOk, HubTexts.TextsOk;
    Reachable(r, i);
    assert StepAt(r, i);
    StepLedger(r.states[i], r.labels[i]);
  }

  /** A forwarded wait is always that of a request really forwarded earlier in the run. */
  lemma {:induction false} WaitHasOrigin(r: Run, i: nat, h: ReqId)
    requires IsRun(r) && i < |r.states| && h in r.states[i].outstanding && r.states[i].outstanding[h].Forwarded?
    ensures exists j :: 0 <= j < i &&
              ForwardedAt(r, j, r.states[i].outstanding[h].phone, r.states[i].outstanding[h].origin, h)
  {
    hide Step, Legal, Good, HubIds.IdsOk, ForwardedHere, ResultHere;
    if i > 0 {
      StepOf(r, i - 1);
      if h in r.states[i - 1].outstanding {
        if r.states[i].outstanding[h] == r.states[i - 1].outstanding[h] {
          WaitHasOrigin(r, i - 1, h);
        } else {
          AnsweredIsGone(r, i - 1, h);
        }
      } else {
        assert ForwardedAt(r, i - 1, r.states[i].outstanding[h].phone, r.states[i].outstanding[h].origin, h);
      }
    }
  }

  /** A result under a waiting id uses the wait up, whichever live link it comes from. */
  lemma ResultConsumes(s: State, l: Label, h: ReqId)
    requires HubIds.IdsOk(s) && Legal(s, l) && ResultHere(s, l.event, h) && h in s.outstanding
    ensures h !in Step(s, l).outstanding
  {
    hide HubIds.IdsOk, OnHomeResult, OnReverseRequest, OnHomeNotification, OnRegistered, OnLeaderReady, OnHomeEof;
    ConsumesOne(s, l.event.gen, ResultFrom(l.event, l.event.gen).value, h);
  }

  lemma ConsumesOne(s: State, g: Gen, obj: Object, h: ReqId)
    requires HubIds.IdsOk(s) && AsNat(Id(obj)) == Some(h) && h in s.outstanding
    ensures h !in OnHomeResult(s, g, obj).outstanding
  {
    hide HubIds.IdsOk, FinishSuccessor, AfterLoad, BeginLoads, OnForwardedResult, RoleOf, CandidateAt, FailIncoming;
    var s1 := s.(outstanding := s.outstanding - {h});
    ShrunkIds(s, h);
    FinishLedger(s1, HomeEof(0), g, h);
    if s.book.watchers.Keys != {} {
      LoadsLedger(s1, HomeEof(0), g);
    }
    if s.outstanding[h].Forwarded? {
      ForwardedSame(s1, g, obj, s.outstanding[h].phone, s.outstanding[h].origin);
    }
  }

  lemma AnsweredIsGone(r: Run, i: nat, h: ReqId)
    requires IsRun(r) && i < |r.labels| && h in r.states[i].outstanding
    requires h in r.states[i + 1].outstanding
    ensures r.states[i + 1].outstanding[h] == r.states[i].outstanding[h]
  {
    hide Step, Legal, HubSubscriptions.Subscribed, HubLinks.LinksOk, HubTexts.TextsOk, HubIds.IdsOk, ResultHere;
    StepOf(r, i);
    if ResultHere(r.states[i], r.labels[i].event, h) {
      ResultConsumes(r.states[i], r.labels[i], h);
    }
  }

  /** Once a number has been used and its wait is gone, it never waits again. */
  lemma {:induction false} SpentStays(r: Run, i: nat, j: nat, h: ReqId)
    requires IsRun(r) && i <= j < |r.states|
    requires h <= r.states[i].nextReq && h !in r.states[i].outstanding
    ensures h !in r.states[j].outstanding && h <= r.states[j].nextReq
    decreases j
  {
    hide Step, Legal, Good, HubIds.IdsOk, ForwardedHere, ResultHere;
    if i < j {
      SpentStays(r, i, j - 1, h);
      StepOf(r, j - 1);
    }
  }

  /** In step `k` a result under `h` uses up the wait under `h`. */
  ghost predicate ConsumedAt(r: Run, k: nat, h: ReqId)
    requires k < |r.labels| && |r.states| == |r.labels| + 1
  {
    h in r.states[k].outstanding && h !in r.states[k + 1].outstanding && ResultHere(r.states[k], r.labels[k].event, h)
  }

  lemma WaitStaysOrIsConsumed(r: Run, i: nat, h: ReqId)
    requires IsRun(r) && i < |r.labels| && h in r.states[i].outstanding
    ensures ConsumedAt(r, i, h)
            || (h in r.states[i + 1].outstanding && r.states[i + 1].outstanding[h] == r.states[i].outstanding[h])
  {
    hide Step, Legal, Good, HubIds.IdsOk, ForwardedHere, ResultHere;
    StepOf(r, i);
    if h in r.states[i + 1].outstanding { AnsweredIsGone(r, i, h); }
  }

  /** What becomes of a forwarded request, over the rest of the run: its wait is still there
      unchanged, or one result under its id has used it up, in one step and no other. */
  lemma {:induction false} FateOfRequest(r: Run, j: nat, i: nat, phone: PhoneId, origin: Value, h: ReqId)
    requires IsRun(r) && j < i < |r.states| && ForwardedAt(r, j, phone, origin, h)
    ensures var waiting := h in r.states[i].outstanding && r.states[i].outstanding[h] == Forwarded(phone, origin);
            waiting <==> !exists k :: j < k < i && ConsumedAt(r, k, h)
    ensures forall k, m :: j < k < i && j < m < i && ConsumedAt(r, k, h) && ConsumedAt(r, m, h) ==> k == m
    decreases i
  {
    hide Step, Legal, Good, HubIds.IdsOk, ResultHere;
    if i == j + 1 {
      assert h in r.states[i].outstanding;
    } else {
      FateOfRequest(r, j, i - 1, phone, origin, h);
      hide ForwardedHere;
      if h in r.states[i - 1].outstanding && r.states[i - 1].outstanding[h] == Forwarded(phone, origin) {
        WaitStaysOrIsConsumed(r, i - 1, h);
      } else {
        var k :| j < k < i - 1 && ConsumedAt(r, k, h);
        UsedNumber(r, k, h);
        SpentStays(r, k + 1, i, h);
        SpentStays(r, k + 1, i - 1, h);
      }
    }
  }

  /** In step `k` a result under `h` is put on the phone's channel, under the id the phone used. */
  ghost predicate DeliveredAt(r: Run, k: nat, phone: PhoneId, origin: Value, h: ReqId)
    requires k < |r.labels| && |r.states| == |r.labels| + 1
  {
    var s, s', event := r.states[k], r.states[k + 1], r.labels[k].event;
    && event.HomeFrame? && ResultId(event, event.gen) == Some(h)
    && Sent(s'.texts, phone) == Sent(s.texts, phone) + [FromHome(SetId(ResultFrom(event, event.gen).value, origin))]
  }

  /** In step `k` the link that uses up the wait is the one served, and the phone is connected. */
  ghost predicate SpentWell(r: Run, k: nat, phone: PhoneId, h: ReqId)
    requires k < |r.labels| && |r.states| == |r.labels| + 1
  {
    ConsumedAt(r, k, h) && MuxGen(r.states[k].slot.home) == Some(r.labels[k].event.gen) && phone in r.states[k].book.phones
  }

  lemma DeliveredIffSpentWell(r: Run, j: nat, k: nat, phone: PhoneId, origin: Value, h: ReqId)
    requires IsRun(r) && j < k < |r.labels| && ForwardedAt(r, j, phone, origin, h)
    ensures DeliveredAt(r, k, phone, origin, h) <==> SpentWell(r, k, phone, h)
  {
    hide Step, Legal, Good, HubIds.IdsOk, ForwardedHere, Ledger, DeliversResult, SetId, ResultFrom;
    StepOf(r, k);
    var s, s', l := r.states[k], r.states[k + 1], r.labels[k];
    if l.event.HomeFrame? && ResultId(l.event, l.event.gen) == Some(h) {
      if h !in s.outstanding {
        UnawaitedChangesNothing(s, l, h);
        LongerIsOther(Sent(s.texts, phone), FromHome(SetId(ResultFrom(l.event, l.event.gen).value, origin)));
      } else if Live(s.slot.home, l.event.gen) {
        WaitsForPhone(r, j, k, phone, origin, h);
        ResultIsDeliveredIff(s, l, h);
      } else {
        StrangerChangesNothing(s, l, l.event.gen);
        LongerIsOther(Sent(s.texts, phone), FromHome(SetId(ResultFrom(l.event, l.event.gen).value, origin)));
      }
    }
  }

  lemma LongerIsOther(out: seq<ToPhone>, text: ToPhone)
    ensures out != out + [text]
  {
    assert |out| != |out + [text]|;
  }

  lemma WaitsForPhone(r: Run, j: nat, k: nat, phone: PhoneId, origin: Value, h: ReqId)
    requires IsRun(r) && j < k < |r.labels| && ForwardedAt(r, j, phone, origin, h) && h in r.states[k].outstanding
    ensures r.states[k].outstanding[h] == Forwarded(phone, origin)
  {
    hide Step, Legal, ForwardedHere, ResultHere;
    FateOfRequest(r, j, k, phone, origin, h);
    if exists m :: j < m < k && ConsumedAt(r, m, h) {
      var m :| j < m < k && ConsumedAt(r, m, h);
      UsedNumber(r, m, h);
      SpentStays(r, m + 1, k, h);
    }
  }

  /** Whether a forwarded request is answered, over the rest of the run: its phone's channel gets a result
      for it exactly if the one step that uses up its wait is on the link then served, while the phone is
      connected, and then once; otherwise never. */
  lemma RequestAnsweredIff(r: Run, j: nat, i: nat, phone: PhoneId, origin: Value, h: ReqId)
    requires IsRun(r) && j < i < |r.states| && ForwardedAt(r, j, phone, origin, h)
    ensures (exists k :: j < k < i && DeliveredAt(r, k, phone, origin, h))
            <==> (exists k :: j < k < i && SpentWell(r, k, phone, h))
    ensures forall k, m :: j < k < i && j < m < i && DeliveredAt(r, k, phone, origin, h) && DeliveredAt(r, m, phone, origin, h)
              ==> k == m
  {
    hide Step, Legal, ForwardedHere, DeliveredAt, ResultHere;
    FateOfRequest(r, j, i, phone, origin, h);
    forall k | j < k < i ensures DeliveredAt(r, k, phone, origin, h) <==> SpentWell(r, k, phone, h) {
      DeliveredIffSpentWell(r, j, k, phone, origin, h);
    }
  }

  lemma UsedNumber(r: Run, k: nat, h: ReqId)
    requires IsRun(r) && k < |r.labels| && h in r.states[k].outstanding
    ensures h <= r.states[k + 1].nextReq
  {
    hide Step, Legal, HubIds.NeverReused, HubIds.Asked, ForwardedHere, ResultHere;
    StepOf(r, k);
  }

  /** Delivery, over every run: whenever a text passing on a result appears on a phone's channel,
      the step is a result from the served link, the phone itself asked for it earlier in the run
      under the id it gets back, and the text is that result under that id. */
  lemma ResultReachesItsSender(r: Run, i: nat, q: PhoneId, k: nat)
    requires IsRun(r) && i < |r.labels|
    requires |Sent(r.states[i].texts, q)| <= k < |Sent(r.states[i + 1].texts, q)|
    requires IsPassedResult(Sent(r.states[i + 1].texts, q)[k])
    ensures var s, event := r.states[i], r.labels[i].event;
            && event.HomeFrame? && MuxGen(s.slot.home) == Some(event.gen) && ResultId(event, event.gen).Some?
            && k == |Sent(s.texts, q)|
            && (exists j, origin ::
                  && 0 <= j < i && ForwardedAt(r, j, q, origin, ResultId(event, event.gen).value)
                  && Sent(r.states[i + 1].texts, q)[k] == FromHome(SetId(ResultFrom(event, event.gen).value, origin)))
            && (forall p :: p != q ==> Sent(r.states[i + 1].texts, p) == Sent(s.texts, p))
  {
    hide Step, Legal, Good, HubIds.IdsOk, ForwardedHere, Ledger, HubTexts.TextsOk;
    StepOf(r, i);
    GoodTexts(r.states[i]);
    StepDelivers(r.states[i], r.labels[i]);
    var s, s', event := r.states[i], r.states[i + 1], r.labels[i].event;
    assert !GainsNoResult(Sent(s.texts, q), Sent(s'.texts, q));
    assert DeliversResult(s, event, s');
    var h := ResultId(event, event.gen).value;
    WaitHasOrigin(r, i, h);
  }

  lemma GoodTexts(s: State)
    requires Good(s)
    ensures HubTexts.TextsOk(s)
  {
  }

  /** A second result under an id that has been answered changes nothing at all. */
  lemma SecondResultChangesNothing(r: Run, i: nat, j: nat, h: ReqId)
    requires IsRun(r) && i < j < |r.labels| && ConsumedAt(r, i, h)
    requires r.labels[j].event.HomeFrame? && ResultId(r.labels[j].event, r.labels[j].event.gen) == Some(h)
    ensures r.states[j + 1] == r.states[j]
  {
    hide Ledger, Good, HubIds.IdsOk;
    UsedNumber(r, i, h);
    SpentStays(r, i + 1, j, h);
    StepOf(r, j);
  }
}

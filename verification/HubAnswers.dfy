/** What phones' answers come out on the links: nothing but the first answer to each question. */
module HubAnswers {
  import opened Json
  import opened SessionOrder
  import opened PendingLoads
  import opened HubState
  import opened HubSteps
  import opened HubRuns
  import opened HubReplacement
  import opened HubRequests
  import opened HubQuestions
  import HubCutover
  import HubLinks

  /** A phone's answer, put on a link. */
  predicate IsAnswer(m: ToHome) {
    m.FromPhone? && Method(m.obj).None?
  }

  ghost predicate GainsNoAnswer(out: seq<ToHome>, out': seq<ToHome>) {
    out <= out' && forall k :: |out| <= k < |out'| ==> !IsAnswer(out'[k])
  }

  /** The links only gain messages, none of them an answer. */
  ghost predicate NoAnswerAdded(links: map<Gen, seq<ToHome>>, links': map<Gen, seq<ToHome>>) {
    forall g :: GainsNoAnswer(Sent(links, g), Sent(links', g))
  }

  lemma SameGains(links: map<Gen, seq<ToHome>>)
    ensures NoAnswerAdded(links, links)
  {
  }

  lemma SendGains(s: State, g: Gen, messages: seq<ToHome>)
    requires forall k :: 0 <= k < |messages| ==> !IsAnswer(messages[k])
    ensures NoAnswerAdded(s.links, SendHome(s, g, messages).links)
  {
  }

  lemma SendMuxGains(s: State, message: ToHome)
    requires !IsAnswer(message)
    ensures NoAnswerAdded(s.links, SendMux(s, message).links)
  {
    hide NoAnswerAdded, IsAnswer;
    SameGains(s.links);
    if MuxGen(s.slot.home).Some? {
      SendGains(s, MuxGen(s.slot.home).value, [message]);
    }
  }

  lemma HandshakeGains(s: State, g: Gen, ready: bool, version: int, now: int)
    ensures NoAnswerAdded(s.links, OnRegistered(s, g, ready, version, now).links)
    ensures NoAnswerAdded(s.links, OnLeaderReady(s, g).links)
  {
    hide NoAnswerAdded, WithIncoming, FailIncoming, CandidateAt;
    SameGains(s.links);
    SendGains(s, g, [Initialize(s.nextReq + 1)]);
  }

  lemma CutoverGains(s: State, g: Gen, id: ReqId)
    ensures NoAnswerAdded(s.links, AfterInitialize(s, g).links)
    ensures NoAnswerAdded(s.links, AfterLoad(s, g, id).links)
  {
    hide NoAnswerAdded, WithIncoming, CandidateAt, Ordered, Numbered, Loaded, Appended;
    SameGains(s.links);
    SendGains(s, g, LoadRequests(Ordered(s.book.watchers.Keys), s.nextReq));
  }

  lemma ResultGains(s: State, g: Gen, obj: Object)
    ensures NoAnswerAdded(s.links, OnHomeResult(s, g, obj).links)
  {
    hide NoAnswerAdded, AfterInitialize, AfterLoad, OnForwardedResult, FailIncoming, RoleOf;
    SameGains(s.links);
    var id := AsNat(Id(obj));
    if id.Some? && id.value in s.outstanding {
      var s1 := s.(outstanding := s.outstanding - {id.value});
      CutoverGains(s1, g, id.value);
      if s.outstanding[id.value].Forwarded? {
        ForwardedSame(s1, g, obj, s.outstanding[id.value].phone, s.outstanding[id.value].origin);
      }
    }
  }

  lemma EofGains(s: State, g: Gen)
    ensures OnHomeEof(s, g).links == s.links
  {
    hide Appended;
  }

  lemma FrameGains(s: State, g: Gen, frame: LeaderFrame, order: seq<PhoneId>, now: int)
    ensures NoAnswerAdded(s.links, OnHomeFrame(s, g, frame, order, now).links)
  {
    hide NoAnswerAdded, OnRegistered, OnLeaderReady, OnHomeEof, OnReverseRequest, OnHomeResult, RoleOf, Appended;
    SameGains(s.links);
    match frame
    case Registered(ready, version) => HandshakeGains(s, g, ready, version, now);
    case LeaderReady => HandshakeGains(s, g, true, 1, now);
    case LeaderError => EofGains(s, g);
    case Acp(payload) =>
      if payload.Some? && IsRequest(payload.value) {
        HubLinks.ReverseSame(s, payload.value, order);
      } else if payload.Some? && IsResult(payload.value) {
        ResultGains(s, g, payload.value);
      }
    case Pong =>
    case OtherFrame =>
  }

  lemma RequestGains(s: State, phone: PhoneId, obj: Object, heirs: map<SessionId, PhoneId>)
    requires IsRequest(obj) && phone in s.book.phones
    requires Closes(obj).Some? ==> HeirOk(s.book, phone, Closes(obj).value, heirs)
    ensures NoAnswerAdded(s.links, OnPhoneText(s, phone, Some(obj), heirs).links)
  {
    hide NoAnswerAdded, OnPhoneText, HeirOk, Closes, KeptHere;
    SameGains(s.links);
    RequestAnsweredOrForwarded(s, phone, obj, heirs);
    if MuxGen(s.slot.home).Some? {
      SendGains(s, MuxGen(s.slot.home).value, [FromPhone(SetId(obj, Int(s.nextReq + 1)))]);
    }
  }

  /** A text of a phone that answers no question. */
  lemma TextGains(s: State, phone: PhoneId, text: Option<Object>, heirs: map<SessionId, PhoneId>)
    requires text.Some? && Closes(text.value).Some? ==> HeirOk(s.book, phone, Closes(text.value).value, heirs)
    requires phone in s.book.phones && text.Some? && IsReply(text.value) ==>
               (phone, Id(text.value).value) !in s.book.reverse
    ensures NoAnswerAdded(s.links, OnPhoneText(s, phone, text, heirs).links)
  {
    hide NoAnswerAdded, OnPhoneRequest, SendMux, HeirOk, Closes;
    SameGains(s.links);
    if phone in s.book.phones && text.Some? {
      if IsRequest(text.value) {
        RequestGains(s, phone, text.value, heirs);
      } else if IsNotification(text.value) {
        SendMuxGains(s, FromPhone(text.value));
      }
    }
  }

  lemma AcceptGains(s: State, now: int)
    requires HubLinks.LinksOk(s.slot, s.links)
    ensures NoAnswerAdded(s.links, Accept(s, now).links)
  {
    hide AcceptSlot, HubLinks.Grammar, HubLinks.StageMatches;
    assert s.slot.nextGen + 1 !in s.links;
  }

  lemma OpenIsAnswered(s: State, phone: PhoneId, obj: Object)
    requires phone in s.book.phones && IsReply(obj)
    ensures var key := (phone, Id(obj).value);
            key in s.book.reverse ==> Answers(s, PhoneText(phone, Some(obj)), s.book.reverse[key])
  {
  }

  /** No step but an answer to an open question puts an answer on a link. */
  lemma StepGains(s: State, l: Label)
    requires Legal(s, l) && HubLinks.LinksOk(s.slot, s.links)
    requires forall claim :: !Answers(s, l.event, claim)
    ensures NoAnswerAdded(s.links, Step(s, l).links)
  {
    hide NoAnswerAdded, HubLinks.LinksOk, OnHomeFrame, OnPhoneText, OnHomeEof, DropPhone, HeirOk, Accept;
    SameGains(s.links);
    match l.event
    case Accepted => AcceptGains(s, l.now);
    case HomeFrame(g, frame) => FrameGains(s, g, frame, l.choice.order, l.now);
    case HomeEof(g) => EofGains(s, g);
    case PhoneText(phone, text) =>
      if phone in s.book.phones && text.Some? && IsReply(text.value) {
        OpenIsAnswered(s, phone, text.value);
      }
      TextGains(s, phone, text, l.choice.heirs);
    case PhoneEof(phone) =>
    case PhoneHello =>
    case DeadlinePassed =>
  }

  lemma GainedNone(links: map<Gen, seq<ToHome>>, links': map<Gen, seq<ToHome>>, g: Gen, k: nat)
    requires NoAnswerAdded(links, links') && |Sent(links, g)| <= k < |Sent(links', g)|
    ensures !IsAnswer(Sent(links', g)[k])
  {
    assert GainsNoAnswer(Sent(links, g), Sent(links', g));
  }

  lemma OnlyOnServed(s: State, message: ToHome, g: Gen, k: nat)
    requires |Sent(s.links, g)| <= k < |Sent(SendMux(s, message).links, g)|
    ensures MuxGen(s.slot.home) == Some(g) && k == |Sent(s.links, g)| && Sent(SendMux(s, message).links, g)[k] == message
  {
  }

  /** Answers on links, over every run: whenever an answer appears on a link, the step is a phone's answer
      to a question, the first of any phone to it, the link is the one served, and the answer is that
      phone's text under the id the home gave the question earlier in the run. */
  lemma AnswerOnLinkIsFirst(r: Run, i: nat, g: Gen, k: nat)
    requires IsRun(r) && i < |r.labels|
    requires |Sent(r.states[i].links, g)| <= k < |Sent(r.states[i + 1].links, g)|
    requires IsAnswer(Sent(r.states[i + 1].links, g)[k])
    ensures MuxGen(r.states[i].slot.home) == Some(g) && k == |Sent(r.states[i].links, g)|
    ensures exists claim, m ::
              && AnswersAt(r, i, claim) && !(exists q :: 0 <= q < i && AnswersAt(r, q, claim))
              && 0 <= m < i && AskedAt(r, m, (r.labels[i].event.phone, Id(r.labels[i].event.text.value).value), claim)
              && Sent(r.states[i + 1].links, g)[k]
                 == FromPhone(SetId(r.labels[i].event.text.value, Id(r.labels[m].event.frame.payload.value).value))
  {
    hide Step, Legal, Good, HubLinks.LinksOk, NoAnswerAdded, SetId, SendMux;
    HubCutover.StepIn(r, i);
    Reachable(r, i);
    GoodSlot(r.states[i]);
    var s, s' := r.states[i], r.states[i + 1];
    if forall claim :: !Answers(s, r.labels[i].event, claim) {
      StepGains(s, r.labels[i]);
      GainedNone(s.links, s'.links, g, k);
    } else {
      var claim :| Answers(s, r.labels[i].event, claim);
      assert AnswersAt(r, i, claim);
      FirstAnswerWins(r, i, claim);
      var obj := r.labels[i].event.text.value;
      var m :| 0 <= m < i && AskedAt(r, m, (r.labels[i].event.phone, Id(obj).value), claim)
        && s'.links == if exists q :: 0 <= q < i && AnswersAt(r, q, claim) then s.links
                       else SendMux(s, FromPhone(SetId(obj, Id(r.labels[m].event.frame.payload.value).value))).links;
      OnlyOnServed(s, FromPhone(SetId(obj, Id(r.labels[m].event.frame.payload.value).value)), g, k);
    }
  }
}

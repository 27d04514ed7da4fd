/** Leaders of another protocol version: they are never spoken to, and phones refused meanwhile are told
    which version it was. */
module HubVersions {
  import opened Json
  import opened SessionOrder
  import opened PendingLoads
  import opened HubState
  import opened HubSteps
  import opened HubRuns
  import opened HubReplacement
  import HubLinks

  // ----- Only leaders of this version are spoken to

  /** Something has been put on the link, or its leader has got past registering. */
  predicate PastRegistering(home: Home, links: map<Gen, seq<ToHome>>, g: Gen) {
    Sent(links, g) != [] || (CandidateAt(home, g).Some? && !CandidateAt(home, g).value.WaitRegistered?)
  }

  /** The leader of candidate `g` registers under protocol version 1. */
  ghost predicate RegistersAsOne(s: State, event: Event, g: Gen) {
    CandidateAt(s.slot.home, g).Some? && exists ready :: event == HomeFrame(g, Registered(ready, 1))
  }

  ghost predicate OnlyByRegistering(s: State, event: Event, s': State, g: Gen) {
    PastRegistering(s'.slot.home, s'.links, g) ==>
      PastRegistering(s.slot.home, s.links, g) || RegistersAsOne(s, event, g)
  }

  lemma QuietLinks(s: State, event: Event, s': State, g: Gen)
    requires s'.links == s.links
    requires CandidateAt(s'.slot.home, g).None? || CandidateAt(s'.slot.home, g) == CandidateAt(s.slot.home, g)
    ensures OnlyByRegistering(s, event, s', g)
  {
  }

  lemma DropQuiet(s: State, event: Event, c: Gen, refused: Option<int>, g: Gen)
    ensures OnlyByRegistering(s, event, s.(slot := FailIncoming(s.slot.(refusedVersion := refused), c)), g)
    ensures OnlyByRegistering(s, event, OnDeadline(s), g)
    ensures OnlyByRegistering(s, event, OnHomeEof(s, c), g)
  {
  }

  lemma RegisteredSpeaks(s: State, c: Gen, ready: bool, version: int, now: int, g: Gen)
    ensures OnlyByRegistering(s, HomeFrame(c, Registered(ready, version)), OnRegistered(s, c, ready, version, now), g)
  {
    hide PastRegistering, OnlyByRegistering, FailIncoming, BeginInitialize, WithIncoming;
    var event, s' := HomeFrame(c, Registered(ready, version)), OnRegistered(s, c, ready, version, now);
    DropQuiet(s, event, c, Some(version), g);
    if g == c && version == 1 && CandidateAt(s.slot.home, c).Some? {
      SpeaksNow(s, event, s', c, ready);
    } else if version == 1 {
      var s1 := s.(slot := s.slot.(refusedVersion := None));
      QuietLinks(s, event, s1, g);
      if CandidateAt(s.slot.home, c).Some? { Elsewhere(s, event, s1, c, now, g); }
    }
  }

  lemma SpeaksNow(s: State, event: Event, s': State, g: Gen, ready: bool)
    requires CandidateAt(s.slot.home, g).Some? && event == HomeFrame(g, Registered(ready, 1))
    ensures OnlyByRegistering(s, event, s', g)
  {
  }

  lemma Elsewhere(s: State, event: Event, s1: State, c: Gen, now: int, g: Gen)
    requires g != c && CandidateAt(s.slot.home, c).Some? && s1.slot.home == s.slot.home && s1.links == s.links
    ensures OnlyByRegistering(s, event, BeginInitialize(s1, c), g)
    ensures OnlyByRegistering(s, event, s1.(slot := WithIncoming(s1.slot, WaitReady(c, now + READY_WAIT))), g)
  {
  }

  lemma ReadySpeaks(s: State, event: Event, c: Gen, g: Gen)
    ensures OnlyByRegistering(s, event, OnLeaderReady(s, c), g)
  {
  }

  lemma AfterSpeaks(s: State, event: Event, c: Gen, id: ReqId, g: Gen)
    ensures OnlyByRegistering(s, event, AfterInitialize(s, c), g)
    ensures OnlyByRegistering(s, event, AfterLoad(s, c, id), g)
  {
    hide Loaded, Start, Ordered, Appended, LoadRequests;
  }

  lemma ResultSpeaks(s: State, event: Event, c: Gen, obj: Object, g: Gen)
    ensures OnlyByRegistering(s, event, OnHomeResult(s, c, obj), g)
  {
    hide OnlyByRegistering, AfterInitialize, AfterLoad, FailIncoming, RoleOf;
    QuietLinks(s, event, s, g);
    var id := AsNat(Id(obj));
    if id.Some? && id.value in s.outstanding {
      var s1 := s.(outstanding := s.outstanding - {id.value});
      AfterSpeaks(s1, event, c, id.value, g);
      DropQuiet(s1, event, c, s.slot.refusedVersion, g);
      QuietLinks(s1, event, s1, g);
      if s.outstanding[id.value].Forwarded? {
        ForwardedSame(s1, c, obj, s.outstanding[id.value].phone, s.outstanding[id.value].origin);
        QuietLinks(s1, event, OnHomeResult(s, c, obj), g);
      }
      assert s.slot.(refusedVersion := s.slot.refusedVersion) == s.slot;
      SameBefore(s, s1, event, OnHomeResult(s, c, obj), g);
    }
  }

  lemma SameBefore(s: State, s1: State, event: Event, s': State, g: Gen)
    requires s1.slot == s.slot && s1.links == s.links && OnlyByRegistering(s1, event, s', g)
    ensures OnlyByRegistering(s, event, s', g)
  {
  }

  lemma FrameSpeaks(s: State, c: Gen, frame: LeaderFrame, order: seq<PhoneId>, now: int, g: Gen)
    ensures OnlyByRegistering(s, HomeFrame(c, frame), OnHomeFrame(s, c, frame, order, now), g)
  {
    hide OnlyByRegistering, OnRegistered, OnLeaderReady, OnHomeEof, OnReverseRequest, OnHomeResult, RoleOf;
    var event := HomeFrame(c, frame);
    QuietLinks(s, event, s, g);
    match frame
    case Registered(ready, version) => RegisteredSpeaks(s, c, ready, version, now, g);
    case LeaderReady => ReadySpeaks(s, event, c, g);
    case LeaderError => DropQuiet(s, event, c, None, g);
    case Acp(payload) =>
      if payload.Some? {
        if IsRequest(payload.value) {
          HubLinks.ReverseSame(s, payload.value, order);
          QuietLinks(s, event, OnReverseRequest(s, payload.value, order), g);
        } else if IsNotification(payload.value) {
          QuietLinks(s, event, OnHomeNotification(s, payload.value), g);
        } else if IsResult(payload.value) {
          ResultSpeaks(s, event, c, payload.value, g);
        }
      }
    case Pong =>
    case OtherFrame =>
  }

  lemma RequestSpeaksToServed(s: State, phone: PhoneId, obj: Object, heirs: map<SessionId, PhoneId>, g: Gen)
    requires IsRequest(obj) && (Closes(obj).Some? ==> HeirOk(s.book, phone, Closes(obj).value, heirs))
    requires MuxGen(s.slot.home) != Some(g)
    ensures Sent(OnPhoneRequest(s, phone, obj, heirs).links, g) == Sent(s.links, g)
  {
    hide HeirOk, Subscribe, NeedsInitialized, Method, Id, Closes, MuxGen, PhoneReady;
  }

  /** What a phone sends goes nowhere but to the served link. */
  lemma PhoneSpeaksToServed(s: State, phone: PhoneId, text: Option<Object>, heirs: map<SessionId, PhoneId>, g: Gen)
    requires text.Some? && Closes(text.value).Some? ==> HeirOk(s.book, phone, Closes(text.value).value, heirs)
    requires MuxGen(s.slot.home) != Some(g)
    ensures Sent(OnPhoneText(s, phone, text, heirs).links, g) == Sent(s.links, g)
  {
    hide HeirOk, OnPhoneRequest, Method, Id, Closes, MuxGen, Answered;
    if text.Some? && IsRequest(text.value) { RequestSpeaksToServed(s, phone, text.value, heirs, g); }
  }

  lemma PhoneSpeaks(s: State, phone: PhoneId, text: Option<Object>, heirs: map<SessionId, PhoneId>, g: Gen)
    requires HubLinks.LinksOk(s.slot, s.links)
    requires text.Some? && Closes(text.value).Some? ==> HeirOk(s.book, phone, Closes(text.value).value, heirs)
    ensures OnlyByRegistering(s, PhoneText(phone, text), OnPhoneText(s, phone, text, heirs), g)
  {
    hide HeirOk, OnPhoneText, Closes, HubLinks.Conserved, HubLinks.Grammar, HubLinks.StageMatches;
    PhoneTextSame(s, phone, text, heirs);
    if MuxGen(s.slot.home) != Some(g) { PhoneSpeaksToServed(s, phone, text, heirs, g); }
  }

  lemma StepSpeaks(s: State, l: Label, g: Gen)
    requires HubLinks.LinksOk(s.slot, s.links) && Legal(s, l)
    ensures OnlyByRegistering(s, l.event, Step(s, l), g)
  {
    hide OnlyByRegistering, OnHomeFrame, OnPhoneText, OnHomeEof, DropPhone, OnDeadline, AcceptSlot, HubLinks.LinksOk;
    match l.event
    case Accepted => AcceptSpeaks(s, l, g);
    case HomeFrame(c, frame) => FrameSpeaks(s, c, frame, l.choice.order, l.now, g);
    case HomeEof(c) => DropQuiet(s, l.event, c, None, g);
    case PhoneText(phone, text) => PhoneSpeaks(s, phone, text, l.choice.heirs, g);
    case PhoneEof(phone) => QuietLinks(s, l.event, Step(s, l), g);
    case PhoneHello => QuietLinks(s, l.event, Step(s, l), g);
    case DeadlinePassed => DropQuiet(s, l.event, 0, None, g);
  }

  lemma AcceptSpeaks(s: State, l: Label, g: Gen)
    ensures OnlyByRegistering(s, l.event, Accept(s, l.now), g)
  {
  }

  /** The hub speaks to no link, and serves none, unless that link registered under protocol version 1
      while it was the candidate. */
  lemma {:induction false} SpokenToRegistered(r: Run, j: nat, g: Gen)
    requires IsRun(r) && j < |r.states|
    requires Sent(r.states[j].links, g) != [] || MuxGen(r.states[j].slot.home) == Some(g)
             || (CandidateAt(r.states[j].slot.home, g).Some? && !CandidateAt(r.states[j].slot.home, g).value.WaitRegistered?)
    ensures exists i: nat, ready ::
              && i < j && r.labels[i].event == HomeFrame(g, Registered(ready, 1))
              && CandidateAt(r.states[i].slot.home, g).Some?
  {
    hide Step, Legal, Good;
    Reachable(r, j);
    if MuxGen(r.states[j].slot.home) == Some(g) { ServedIsSpokenTo(r.states[j], g); }
    if j > 0 {
      var s, l := r.states[j - 1], r.labels[j - 1];
      assert StepAt(r, j - 1);
      Reachable(r, j - 1);
      GoodSlot(s);
      StepSpeaks(s, l, g);
      if PastRegistering(s.slot.home, s.links, g) {
        SpokenToRegistered(r, j - 1, g);
      } else {
        assert RegistersAsOne(s, l.event, g);
      }
    }
  }

  lemma ServedIsSpokenTo(s: State, g: Gen)
    requires Good(s) && MuxGen(s.slot.home) == Some(g)
    ensures Sent(s.links, g) != []
  {
    GoodSlot(s);
    hide Good;
  }

  // ----- The version refused last

  /** The leader of the candidate registers under this version. */
  predicate Registers(s: State, event: Event, version: int) {
    && event.HomeFrame? && event.frame.Registered? && event.frame.version == version
    && CandidateAt(s.slot.home, event.gen).Some? && MuxGen(s.slot.home) != Some(event.gen)
  }

  predicate RefusedNext(s: State, event: Event, refused: Option<int>) {
    if event.HomeFrame? && event.frame.Registered? && Registers(s, event, event.frame.version) then
      refused == if event.frame.version == 1 then None else Some(event.frame.version)
    else refused == s.slot.refusedVersion
  }

  lemma RegisteredRefuses(s: State, g: Gen, ready: bool, version: int, now: int)
    ensures OnRegistered(s, g, ready, version, now).slot.refusedVersion == if version == 1 then None else Some(version)
  {
  }

  lemma EndsRefuse(s: State, g: Gen)
    ensures OnLeaderReady(s, g).slot.refusedVersion == s.slot.refusedVersion
    ensures OnHomeEof(s, g).slot.refusedVersion == s.slot.refusedVersion
    ensures OnDeadline(s).slot.refusedVersion == s.slot.refusedVersion
  {
    hide Appended;
  }

  lemma CutoverRefuses(s: State, g: Gen, id: ReqId)
    ensures AfterInitialize(s, g).slot.refusedVersion == s.slot.refusedVersion
    ensures AfterLoad(s, g, id).slot.refusedVersion == s.slot.refusedVersion
    ensures FailIncoming(s.slot, g).refusedVersion == s.slot.refusedVersion
  {
    hide Loaded, Start, Ordered, Appended, LoadRequests;
  }

  lemma NotificationRefuses(s: State, obj: Object)
    requires IsNotification(obj)
    ensures OnHomeNotification(s, obj).slot == s.slot
  {
  }

  lemma ResultRefuses(s: State, g: Gen, obj: Object)
    ensures OnHomeResult(s, g, obj).slot.refusedVersion == s.slot.refusedVersion
  {
    hide AfterInitialize, AfterLoad, FailIncoming, RoleOf, OnForwardedResult;
    var id := AsNat(Id(obj));
    if id.Some? && id.value in s.outstanding {
      var s1 := s.(outstanding := s.outstanding - {id.value});
      CutoverRefuses(s1, g, id.value);
      if s.outstanding[id.value].Forwarded? {
        ForwardedSame(s1, g, obj, s.outstanding[id.value].phone, s.outstanding[id.value].origin);
      }
    }
  }

  lemma FrameRefuses(s: State, g: Gen, frame: LeaderFrame, order: seq<PhoneId>, now: int)
    ensures RefusedNext(s, HomeFrame(g, frame), OnHomeFrame(s, g, frame, order, now).slot.refusedVersion)
  {
    hide OnRegistered, OnLeaderReady, OnHomeEof, OnReverseRequest, OnHomeResult, OnHomeNotification;
    EndsRefuse(s, g);
    match frame
    case Registered(ready, version) => RegisteredRefuses(s, g, ready, version, now);
    case LeaderReady =>
    case LeaderError =>
    case Acp(payload) =>
      if payload.Some? {
        if IsRequest(payload.value) {
          HubLinks.ReverseSame(s, payload.value, order);
        } else if IsNotification(payload.value) {
          NotificationRefuses(s, payload.value);
        } else if IsResult(payload.value) {
          ResultRefuses(s, g, payload.value);
        }
      }
    case Pong =>
    case OtherFrame =>
  }

  lemma StepRefuses(s: State, l: Label)
    requires Legal(s, l)
    ensures RefusedNext(s, l.event, Step(s, l).slot.refusedVersion)
  {
    hide OnHomeFrame, OnPhoneText, OnHomeEof, DropPhone, OnDeadline, Registers;
    EndsRefuse(s, if l.event.HomeEof? then l.event.gen else 0);
    match l.event
    case Accepted =>
    case HomeFrame(g, frame) => FrameRefuses(s, g, frame, l.choice.order, l.now);
    case HomeEof(g) =>
    case PhoneText(phone, text) => PhoneTextSame(s, phone, text, l.choice.heirs);
    case PhoneEof(phone) =>
    case PhoneHello =>
    case DeadlinePassed =>
  }

  /** In the first `j` steps, the last candidate to register did so under this version. */
  ghost predicate LastRegistered(r: Run, j: nat, version: int)
    requires IsRun(r) && j < |r.states|
  {
    exists i: nat ::
      && i < j && Registers(r.states[i], r.labels[i].event, version)
      && forall k, v :: i < k < j ==> !Registers(r.states[k], r.labels[k].event, v)
  }

  lemma LengthOf(r: Run)
    requires IsRun(r)
    ensures |r.states| == |r.labels| + 1
  {
  }

  lemma LastMoves(r: Run, j: nat, version: int)
    requires IsRun(r) && j < |r.labels|
    ensures LastRegistered(r, j + 1, version)
            <==> Registers(r.states[j], r.labels[j].event, version)
                 || (LastRegistered(r, j, version) && forall v :: !Registers(r.states[j], r.labels[j].event, v))
  {
    hide IsRun, Registers;
    LengthOf(r);
    if Registers(r.states[j], r.labels[j].event, version) {
      assert LastRegistered(r, j + 1, version);
    } else if LastRegistered(r, j, version) && forall v :: !Registers(r.states[j], r.labels[j].event, v) {
      var i: nat :| i < j && Registers(r.states[i], r.labels[i].event, version)
                    && forall k, u :: i < k < j ==> !Registers(r.states[k], r.labels[k].event, u);
      assert forall k, u :: i < k < j + 1 ==> !Registers(r.states[k], r.labels[k].event, u);
      assert LastRegistered(r, j + 1, version);
    }
  }

  /** The hub remembers a refused version exactly as long as the last leader to register did so under it,
      and it was not version 1. */
  lemma {:induction false} RefusedIsLastRegistered(r: Run, j: nat, version: int)
    requires IsRun(r) && j < |r.states|
    ensures r.states[j].slot.refusedVersion == Some(version) <==> version != 1 && LastRegistered(r, j, version)
  {
    hide Step, Legal;
    if j == 0 {
      assert !LastRegistered(r, 0, version);
    } else {
      var s, l := r.states[j - 1], r.labels[j - 1];
      assert StepAt(r, j - 1);
      StepRefuses(s, l);
      RefusedIsLastRegistered(r, j - 1, version);
      LastMoves(r, j - 1, version);
    }
  }
}

/** The hub as an object whose handlers update its fields in place. Every handler is proved to make of
    the whole state exactly what its function in `HubSteps` says, so that what is proved about steps
    and runs holds of every history of a `Hub`. */
module HubObject {
  import opened Json
  import opened SessionOrder
  import opened PendingLoads
  import opened HubState
  import opened HubRuns
  import opened HubLoops
  import Steps = HubSteps

  class Hub {
    var home: Home
    var phones: map<PhoneId, Phone>
    var watchers: map<SessionId, set<PhoneId>>
    var driver: map<SessionId, PhoneId>
    var outstanding: map<ReqId, Wait>
    var reverse: map<(PhoneId, Value), ReqId>
    var claims: map<ReqId, Claim>
    var nextPhone: PhoneId
    var nextReq: ReqId
    var nextGen: Gen
    var reverseSeq: int
    var refusedVersion: Option<int>

    // The far ends: links halted, and everything put on each link and each phone's channel.
    var halts: seq<Gen>
    var links: map<Gen, seq<ToHome>>
    var texts: map<PhoneId, seq<ToPhone>>

    ghost function View(): State
      reads this
    {
      State(Slot(home, nextGen, refusedVersion, halts),
            Book(phones, nextPhone, watchers, driver, reverse, claims, reverseSeq),
            outstanding, nextReq, links, texts)
    }

    constructor ()
      ensures View() == INITIAL
    {
      home, phones, watchers, driver := Home.Away, map[], map[], map[];
      outstanding, reverse, claims := map[], map[], map[];
      nextPhone, nextReq, nextGen, reverseSeq, refusedVersion := 0, 0, 0, 0, None;
      halts, links, texts := [], map[], map[];
    }

    // ----- Channels and counters

    method SendPhone(phone: PhoneId, text: ToPhone)
      modifies this`texts
      ensures View() == Steps.Say(old(View()), phone, text)
    {
      if phone in phones {
        texts := texts[phone := Sent(texts, phone) + [text]];
      }
    }

    method SendLink(g: Gen, message: ToHome)
      modifies this`links
      ensures View() == Steps.SendHome(old(View()), g, [message])
    {
      links := links[g := Sent(links, g) + [message]];
    }

    method SendMux(message: ToHome)
      modifies this`links
      ensures View() == Steps.SendMux(old(View()), message)
    {
      var out := MuxGen(home);
      if out.Some? {
        SendLink(out.value, message);
      }
    }

    /** The same note to every phone that is ready. */
    method BroadcastAway(away: bool)
      modifies this`texts
      ensures View() == Steps.Broadcast(old(View()), away)
    {
      hide Steps.Appended;
      var rest := phones.Keys;
      ghost var told: set<PhoneId> := {};
      AppendedNone(texts, HostAway(away));
      while rest != {}
        invariant rest <= phones.Keys
        invariant forall phone :: phone in told <==> phone in phones && phones[phone].Initialized? && phone !in rest
        invariant texts == Steps.Appended(old(texts), told, HostAway(away))
        decreases |rest|
      {
        Inhabited(rest);
        var phone :| phone in rest;
        rest := rest - {phone};
        if phones[phone].Initialized? {
          AppendedOne(old(texts), told, phone, HostAway(away));
          told := told + {phone};
          texts := texts[phone := Sent(texts, phone) + [HostAway(away)]];
        }
      }
      SameMembers(told, ReadyPhones(View().book) * phones.Keys);
    }

    method AllocReq() returns (id: ReqId)
      modifies this`nextReq
      ensures id == old(nextReq) + 1
      ensures View() == old(View()).(nextReq := id)
    {
      nextReq := nextReq + 1;
      id := nextReq;
    }

    /** A link dropped is a link halted. */
    method Drop(g: Gen)
      modifies this`halts
      ensures View() == old(View()).(slot := old(View()).slot.(halts := old(halts) + [g]))
    {
      halts := halts + [g];
    }

    // ----- The home slot

    method OnAccepted(now: int)
      modifies this
      ensures View() == Steps.Accept(old(View()), now)
    {
      nextGen := nextGen + 1;
      links := links[nextGen := []];
      var incoming := WaitRegistered(nextGen, now + REGISTER_WAIT);
      match home
      case Away => home := BringingUp(incoming);
      case Sole(incumbent) => home := Dual(incumbent, incoming);
      case Dual(incumbent, loser) =>
        Drop(loser.link);
        home := Dual(incumbent, incoming);
      case BringingUp(loser) =>
        Drop(loser.link);
        home := BringingUp(incoming);
    }

    /** The candidate moved out of the slot, with the incumbent beside it; the slot is left empty. */
    method TakeCandidate(g: Gen) returns (incoming: Option<Incoming>, incumbent: Option<Gen>)
      modifies this`home
      ensures incoming == CandidateAt(old(home), g)
      ensures incumbent == if incoming.Some? then MuxGen(old(home)) else None
      ensures View() == old(View()).(slot := old(View()).slot.(home := if incoming.Some? then Home.Away else old(home)))
    {
      incoming, incumbent := CandidateAt(home, g), None;
      if incoming.Some? {
        incumbent := MuxGen(home);
        home := Home.Away;
      }
    }

    method PutCandidate(incoming: Incoming, incumbent: Option<Gen>)
      modifies this`home
      ensures var filled := if incumbent.Some? then Dual(incumbent.value, incoming) else BringingUp(incoming);
              View() == old(View()).(slot := old(View()).slot.(home := filled))
    {
      match incumbent
      case None => home := BringingUp(incoming);
      case Some(live) => home := Dual(live, incoming);
    }

    method FailIncoming(g: Gen)
      modifies this`home, this`halts
      ensures View() == old(View()).(slot := Steps.FailIncoming(old(View()).slot, g))
    {
      if home.BringingUp? && home.incoming.link == g {
        Drop(g);
        home := Home.Away;
      } else if home.Dual? && home.incoming.link == g {
        Drop(g);
        home := Sole(home.incumbent);
      }
    }

    method OnDeadline()
      modifies this`home, this`halts
      ensures View() == Steps.OnDeadline(old(View()))
    {
      if home.BringingUp? && IncomingDeadline(home.incoming).Some? {
        Drop(home.incoming.link);
        home := Home.Away;
      } else if home.Dual? && IncomingDeadline(home.incoming).Some? {
        Drop(home.incoming.link);
        home := Sole(home.incumbent);
      }
    }

    method OnHomeEof(g: Gen)
      modifies this`home, this`halts, this`texts
      ensures View() == Steps.OnHomeEof(old(View()), g)
    {
      match RoleOf(home, g)
      case Unknown =>
      case Candidate => FailIncoming(g);
      case Mux =>
        Drop(g);
        home := if home.Dual? then BringingUp(home.incoming) else Home.Away;
        BroadcastAway(true);
    }

    method SendFollowerInitialize(g: Gen)
      modifies this`nextReq, this`outstanding, this`links
      ensures var id := old(nextReq) + 1;
              View() == Steps.SendHome(old(View()).(nextReq := id, outstanding := old(outstanding)[id := HubInitialize]),
                                       g, [Initialize(id)])
    {
      var id := AllocReq();
      outstanding := outstanding[id := HubInitialize];
      SendLink(g, Initialize(id));
    }

    method OnRegistered(g: Gen, ready: bool, version: int, now: int)
      modifies this
      ensures View() == Steps.OnRegistered(old(View()), g, ready, version, now)
    {
      if version != LEADER_PROTOCOL_VERSION {
        refusedVersion := Some(version);
        FailIncoming(g);
        return;
      }
      refusedVersion := None;
      var incoming, incumbent := TakeCandidate(g);
      if incoming.None? {
        return;
      }
      if !incoming.value.WaitRegistered? {
        PutCandidate(incoming.value, incumbent);
        return;
      }
      var link := incoming.value.link;
      if ready {
        SendFollowerInitialize(link);
        PutCandidate(WaitInitialize(link), incumbent);
      } else {
        PutCandidate(WaitReady(link, now + READY_WAIT), incumbent);
      }
    }

    method OnLeaderReady(g: Gen)
      modifies this
      ensures View() == Steps.OnLeaderReady(old(View()), g)
    {
      var incoming, incumbent := TakeCandidate(g);
      if incoming.None? {
        return;
      }
      if !incoming.value.WaitReady? {
        PutCandidate(incoming.value, incumbent);
        return;
      }
      var link := incoming.value.link;
      SendFollowerInitialize(link);
      PutCandidate(WaitInitialize(link), incumbent);
    }

    /** The successor takes the slot; an incumbent is dropped only now. */
    method FinishSuccessor(g: Gen, incumbent: Option<Gen>)
      modifies this`home, this`halts, this`texts
      ensures var s := old(View());
              && (incumbent.Some? ==>
                    View() == s.(slot := s.slot.(home := Sole(g), halts := s.slot.halts + [incumbent.value])))
              && (incumbent.None? ==>
                    View() == Steps.Broadcast(s.(slot := s.slot.(home := Sole(g))), false))
    {
      match incumbent
      case None =>
        home := Sole(g);
        BroadcastAway(false);
      case Some(live) =>
        Drop(live);
        home := Sole(g);
    }

    /** Ids for the watched sessions, handed out one by one in session order. */
    method StartLoads(watched: set<SessionId>) returns (pending: Option<PendingLoads>)
      modifies this`nextReq
      ensures pending == Start(watched, old(nextReq))
      ensures pending.None? ==> watched == {} && View() == old(View())
      ensures pending.Some? ==>
                && watched != {}
                && Ordered(watched) != []
                && pending.value.loadIds == Numbered(Ordered(watched), old(nextReq))
                && View() == old(View()).(nextReq := old(nextReq) + |Ordered(watched)|)
    {
      hide Numbered;
      if watched == {} {
        return None;
      }
      var order := Ordered(watched);
      var loadIds: map<ReqId, SessionId> := map[];
      assert loadIds == Numbered(order[..0], nextReq) by { NumberedNone(nextReq); }
      for k := 0 to |order|
        invariant nextReq == old(nextReq) + k
        invariant loadIds == Numbered(order[..k], old(nextReq))
      {
        var id := AllocReq();
        NumberedOne(order, k, old(nextReq));
        loadIds := loadIds[id := order[k]];
      }
      assert order[..|order|] == order;
      pending := Some(PendingLoads(watched, loadIds));
    }

    /** Every load id is noted and its request sent, in id order. */
    method SendLoads(g: Gen, pending: PendingLoads, base: ReqId, ghost order: seq<SessionId>)
      requires order != [] && pending.loadIds == Numbered(order, base) && nextReq == base + |order|
      modifies this`outstanding, this`links
      ensures View() == old(View()).(outstanding := old(outstanding) + LoadWaits(base, |order|),
                                     links := old(links)[g := Sent(old(links), g) + Steps.LoadRequests(order, base)])
    {
      hide LoadWaits, Added, Steps.LoadRequests;
      ghost var requests := Steps.LoadRequests(order, base);
      LoadWaitsNone(outstanding, base);
      assert Added(links, links, g, requests[..0]) by { AddedNone(links, g); }
      for id := base to nextReq
        invariant outstanding == old(outstanding) + LoadWaits(base, id - base)
        invariant Added(old(links), links, g, requests[..id - base])
      {
        var request := Load(id + 1, pending.loadIds[id + 1]);
        LoadWaitsOne(old(outstanding), base, id - base);
        AddedOne(old(links), links, g, requests[..id - base], request);
        assert requests[..id + 1 - base] == requests[..id - base] + [request];
        outstanding := outstanding[id + 1 := HubLoad];
        links := links[g := Sent(links, g) + [request]];
      }
      assert requests[..|order|] == requests;
      AddedAll(old(links), links, g, requests);
    }

    method AfterFollowerInitialize(g: Gen)
      modifies this
      ensures View() == Steps.AfterInitialize(old(View()), g)
    {
      hide LoadWaits, Numbered, Ordered, Start, Steps.AfterInitialize, Steps.LoadRequests, Steps.Broadcast;
      NoLoads(View(), g);
      var incoming, incumbent := TakeCandidate(g);
      if incoming.None? {
        return;
      }
      if !incoming.value.WaitInitialize? {
        PutCandidate(incoming.value, incumbent);
        return;
      }
      var base := nextReq;
      var pending := StartLoads(watchers.Keys);
      match pending
      case None => FinishSuccessor(g, incumbent);
      case Some(loads) =>
        ghost var order := Ordered(watchers.Keys);
        SendLoads(g, loads, base, order);
        PutCandidate(WaitLoads(g, loads), incumbent);
        LoadsBegun(old(View()), View(), g, loads, order);
    }

    method AfterLoadResult(g: Gen, id: ReqId)
      modifies this
      ensures View() == Steps.AfterLoad(old(View()), g, id)
    {
      var incoming, incumbent := TakeCandidate(g);
      if incoming.None? {
        return;
      }
      if !incoming.value.WaitLoads? {
        PutCandidate(incoming.value, incumbent);
        return;
      }
      match Loaded(incoming.value.pending, id)
      case Done => FinishSuccessor(g, incumbent);
      case More(left) => PutCandidate(WaitLoads(g, left), incumbent);
      case Ignore(same) => PutCandidate(WaitLoads(g, same), incumbent);
    }

    // ----- From home

    method OnHomeFrame(g: Gen, frame: LeaderFrame, now: int) returns (ghost order: seq<PhoneId>)
      modifies this
      ensures Steps.Question(frame).Some? ==> var obj := Steps.Question(frame).value;
                Steps.Enumerates(order, Targets(old(View()).book, Method(obj).value, SessionIn(obj).value))
      ensures View() == Steps.OnHomeFrame(old(View()), g, frame, order, now)
    {
      hide Steps.OnRegistered, Steps.OnLeaderReady, Steps.OnHomeAcp, Steps.OnHomeEof, Steps.FailIncoming;
      order := SomeOrder(View().book, frame);
      var role := RoleOf(home, g);
      if role == Unknown {
        return;
      }
      match frame
      case Registered(ready, version) =>
        if role == Candidate {
          OnRegistered(g, ready, version, now);
        }
      case LeaderReady =>
        if role == Candidate {
          OnLeaderReady(g);
        }
      case Acp(payload) =>
        if payload.Some? {
          order := OnHomeAcp(g, payload.value);
        }
      case LeaderError =>
        if role == Candidate {
          EofOfCandidate(View(), g);
          FailIncoming(g);
        } else {
          OnHomeEof(g);
        }
      case Pong =>
      case OtherFrame =>
    }

    method OnHomeAcp(g: Gen, obj: Object) returns (ghost order: seq<PhoneId>)
      modifies this
      ensures IsRequest(obj) && SessionIn(obj).Some? ==>
                Steps.Enumerates(order, Targets(old(View()).book, Method(obj).value, SessionIn(obj).value))
      ensures View() == Steps.OnHomeAcp(old(View()), g, obj, order)
    {
      hide Steps.OnReverseRequest, Steps.OnHomeNotification, Steps.OnHomeResult;
      order := SomeOrder(View().book, Acp(Some(obj)));
      if IsRequest(obj) {
        if RoleOf(home, g) == Mux {
          order := OnReverseRequest(obj);
        }
      } else if IsNotification(obj) {
        if RoleOf(home, g) == Mux {
          OnHomeNotification(obj);
        }
      } else if IsResult(obj) {
        OnHomeResult(g, obj);
      }
    }

    method OnHomeResult(g: Gen, obj: Object)
      modifies this
      ensures View() == Steps.OnHomeResult(old(View()), g, obj)
    {
      hide Steps.AfterInitialize, Steps.AfterLoad, Steps.FailIncoming, Steps.Watch, SetId;
      var id := AsNat(Id(obj));
      if id.None? || id.value !in outstanding {
        return;
      }
      var wait := outstanding[id.value];
      outstanding := outstanding - {id.value};
      match wait
      case Forwarded(phone, origin) =>
        if RoleOf(home, g) != Mux {
          return;
        }
        var session := SessionIn(obj);
        if session.Some? {
          Watch(phone, session.value);
        }
        SendPhone(phone, FromHome(SetId(obj, origin)));
      case HubInitialize =>
        if RoleOf(home, g) != Candidate {
          return;
        }
        if "error" in obj {
          FailIncoming(g);
          return;
        }
        AfterFollowerInitialize(g);
      case HubLoad =>
        if RoleOf(home, g) != Candidate {
          return;
        }
        AfterLoadResult(g, id.value);
    }

    method OnHomeNotification(obj: Object)
      requires IsNotification(obj)
      modifies this`texts
      ensures View() == Steps.OnHomeNotification(old(View()), obj)
    {
      hide Steps.Appended;
      var session := SessionIn(obj);
      if Unwrapped(Method(obj).value) != "session/update" || session.None? {
        return;
      }
      AppendedNone(texts, FromHome(obj));
      if session.value !in watchers {
        SameMembers({}, Watching(View().book, session.value) * phones.Keys);
        return;
      }
      var rest := watchers[session.value];
      ghost var told: set<PhoneId> := {};
      while rest != {}
        invariant rest <= watchers[session.value]
        invariant forall phone :: phone in told <==> phone in watchers[session.value] && phone in phones && phone !in rest
        invariant View() == old(View()).(texts := Steps.Appended(old(texts), told, FromHome(obj)))
        decreases |rest|
      {
        Inhabited(rest);
        var phone :| phone in rest;
        rest := rest - {phone};
        AppendedOne(old(texts), told, phone, FromHome(obj));
        if phone in phones {
          told := told + {phone};
        }
        SendPhone(phone, FromHome(obj));
      }
      SameMembers(told, Watching(View().book, session.value) * phones.Keys);
    }

    /** A question from home, put to each target under an id of its own. */
    method OnReverseRequest(obj: Object) returns (ghost order: seq<PhoneId>)
      requires IsRequest(obj)
      modifies this
      ensures SessionIn(obj).Some? ==>
                Steps.Enumerates(order, Targets(old(View()).book, Method(obj).value, SessionIn(obj).value))
      ensures View() == Steps.OnReverseRequest(old(View()), obj, order)
    {
      hide Steps.Ask, Steps.AskAll, Watching, QuestionId;
      order := [];
      var session := SessionIn(obj);
      if session.None? {
        return;
      }
      var book := Book(phones, nextPhone, watchers, driver, reverse, claims, reverseSeq);
      var targets := Targets(book, Method(obj).value, session.value);
      if targets == {} {
        return;
      }
      var key := AllocReq();
      claims := claims[key := Open(Id(obj).value)];
      ghost var asking := View();
      AskedNone(asking, obj, key);
      var rest := targets;
      while rest != {}
        invariant forall phone :: phone in targets <==> phone in order || phone in rest
        invariant forall phone :: phone in order ==> phone !in rest
        invariant forall i, j :: 0 <= i < j < |order| ==> order[i] != order[j]
        invariant View() == Steps.AskAll(asking, obj, key, order)
        decreases |rest|
      {
        Inhabited(rest);
        var phone :| phone in rest;
        rest := rest - {phone};
        AskedOne(asking, obj, key, order, phone);
        AskOne(obj, key, phone);
        order := order + [phone];
      }
    }

    method AskOne(obj: Object, key: ReqId, phone: PhoneId)
      modifies this`reverseSeq, this`reverse, this`texts
      ensures View() == Steps.Ask(old(View()), obj, key, phone)
    {
      hide QuestionId, SetId;
      reverseSeq := reverseSeq + 1;
      var phoneId := QuestionId(reverseSeq);
      reverse := reverse[(phone, phoneId) := key];
      SendPhone(phone, FromHome(SetId(obj, phoneId)));
    }

    // ----- From phones

    method Watch(phone: PhoneId, session: SessionId)
      modifies this`watchers, this`driver
      ensures View() == old(View()).(book := Steps.Watch(old(View()).book, phone, session))
    {
      if phone in phones && phones[phone].Initialized? {
        var watching := if session in watchers then watchers[session] else {};
        watchers := watchers[session := watching + {phone}];
        if session !in driver {
          driver := driver[session := phone];
        }
      }
    }

    method Unwatch(phone: PhoneId, session: SessionId) returns (ghost heirs: map<SessionId, PhoneId>)
      modifies this`watchers, this`driver
      ensures Steps.HeirOk(old(View()).book, phone, session, heirs)
      ensures View() == old(View()).(book := Steps.Unwatch(old(View()).book, phone, session, heirs))
    {
      heirs := AnyHeir(View().book, phone, session);
      if session !in watchers {
        return;
      }
      var left := watchers[session] - {phone};
      watchers := watchers[session := left];
      if left == {} {
        RemovedAfter(old(watchers), session, left);
        watchers, driver := watchers - {session}, driver - {session};
      } else if session in driver && driver[session] == phone {
        Inhabited(left);
        var next :| next in left;
        heirs := map[session := next];
        driver := driver[session := next];
      }
    }

    method OnPhoneHello()
      modifies this
      ensures View() == Steps.OnPhoneHello(old(View()))
    {
      nextPhone := nextPhone + 1;
      phones := phones[nextPhone := Connected];
      texts := texts[nextPhone := []];
    }

    method AnswerInitialize(phone: PhoneId, id: Value)
      modifies this`phones, this`texts
      ensures View() == Steps.AnswerInitialize(old(View()), phone, id)
    {
      if phone !in phones {
        return;
      }
      SendPhone(phone, InitializeResult(id));
      if HomeAway(home) {
        SendPhone(phone, HostAway(true));
      }
      phones := phones[phone := Initialized];
    }

    method ForwardRequest(phone: PhoneId, origin: Value, obj: Object)
      modifies this`nextReq, this`outstanding, this`links, this`texts
      ensures View() == Steps.ForwardRequest(old(View()), phone, origin, obj)
    {
      hide Steps.AwayError, SetId;
      var out := MuxGen(home);
      if out.None? {
        SendPhone(phone, Steps.AwayError(refusedVersion, origin));
        return;
      }
      var id := AllocReq();
      outstanding := outstanding[id := Forwarded(phone, origin)];
      SendLink(out.value, FromPhone(SetId(obj, Int(id))));
    }

    method OnPhoneRequest(phone: PhoneId, obj: Object) returns (ghost heirs: map<SessionId, PhoneId>)
      requires IsRequest(obj)
      modifies this
      ensures Steps.Closes(obj).Some? ==> Steps.HeirOk(old(View()).book, phone, Steps.Closes(obj).value, heirs)
      ensures View() == Steps.OnPhoneRequest(old(View()), phone, obj, heirs)
    {
      hide Steps.OnPhoneRequest, Steps.Closes, Steps.ForwardRequest, Steps.AnswerInitialize, Steps.Say, Steps.Watch,
           Steps.Unwatch, Steps.HeirOk, Steps.Uninitialized, SessionIn;
      heirs := SomeHeirs(View().book, phone, Some(obj));
      var name, id, session := Method(obj).value, Id(obj).value, SessionIn(obj);
      ClosesOnlyClose(obj);
      if name == "initialize" {
        AnswerInitialize(phone, id);
      } else if name == "authenticate" {
        SendPhone(phone, Failure(id, -32601, "Method not found"));
      } else if name == "session/close" {
        if session.Some? {
          heirs := Unwatch(phone, session.value);
        }
        ForwardRequest(phone, id, obj);
      } else if "session/" <= name && !(phone in phones && phones[phone].Initialized?) {
        SendPhone(phone, Steps.Uninitialized(id));
      } else {
        if (name == "session/load" || name == "session/resume") && session.Some? {
          Watch(phone, session.value);
        }
        ForwardRequest(phone, id, obj);
      }
      RequestArms(old(View()), phone, obj, heirs);
    }

    /** The first answer to a question goes home under the home's own id; later ones go nowhere. */
    method OnPhoneReply(phone: PhoneId, obj: Object)
      requires IsReply(obj)
      modifies this`reverse, this`claims, this`links
      ensures View() == Steps.OnPhoneReply(old(View()), phone, obj)
    {
      hide SetId;
      var key := (phone, Id(obj).value);
      if key !in reverse {
        return;
      }
      var claimKey := reverse[key];
      reverse := reverse - {key};
      if claimKey !in claims {
        return;
      }
      var claim := claims[claimKey];
      claims := claims[claimKey := Taken];
      if claim.Open? {
        SendMux(FromPhone(SetId(obj, claim.homeId)));
      }
    }

    method OnPhoneText(phone: PhoneId, text: Option<Object>) returns (ghost heirs: map<SessionId, PhoneId>)
      modifies this
      ensures text.Some? && Steps.Closes(text.value).Some? ==>
                Steps.HeirOk(old(View()).book, phone, Steps.Closes(text.value).value, heirs)
      ensures View() == Steps.OnPhoneText(old(View()), phone, text, heirs)
    {
      hide Steps.OnPhoneRequest, Steps.OnPhoneReply, Steps.SendMux, Steps.Say, Steps.HeirOk;
      heirs := SomeHeirs(View().book, phone, text);
      if phone !in phones {
        return;
      }
      if text.None? {
        SendPhone(phone, Failure(Null, -32700, "Parse error"));
      } else if IsRequest(text.value) {
        heirs := OnPhoneRequest(phone, text.value);
      } else if IsNotification(text.value) {
        SendMux(FromPhone(text.value));
      } else if IsReply(text.value) {
        OnPhoneReply(phone, text.value);
      }
    }

    /** No one watches for this phone any more; a session nobody watches is forgotten. */
    method RetainWatchers(phone: PhoneId)
      modifies this`watchers
      ensures var kept := Retained(old(watchers), phone, old(watchers).Keys);
              View() == old(View()).(book := old(View()).book.(watchers := kept))
    {
      hide Retained;
      var rest := watchers.Keys;
      ghost var visited: set<SessionId> := {};
      RetainedNone(watchers, phone);
      while rest != {}
        invariant visited + rest == old(watchers).Keys && visited * rest == {}
        invariant watchers == Retained(old(watchers), phone, visited)
        decreases |rest|
      {
        var session :| session in rest;
        RetainedOne(old(watchers), phone, visited, session);
        rest, visited := rest - {session}, visited + {session};
        var left := watchers[session] - {phone};
        watchers := if left == {} then watchers - {session} else watchers[session := left];
      }
      assert visited == old(watchers).Keys;
    }

    /** The sessions this phone drove pass to a watcher that is left, or lose their driver. */
    method PassOn(phone: PhoneId) returns (ghost heirs: map<SessionId, PhoneId>)
      requires forall session :: session in watchers ==> watchers[session] != {}
      modifies this`driver
      ensures forall session :: session in heirs ==> session in watchers && heirs[session] in watchers[session]
      ensures forall session :: session in old(driver) && old(driver)[session] == phone && session in watchers ==>
                session in heirs
      ensures var orphaned := set session | session in old(driver) && old(driver)[session] == phone;
              var driver' := PassedOn(old(driver), watchers.Keys, heirs, orphaned);
              View() == old(View()).(book := old(View()).book.(driver := driver'))
    {
      hide PassedOn;
      var orphaned := set session | session in driver && driver[session] == phone;
      var rest := orphaned;
      ghost var visited: set<SessionId> := {};
      heirs := map[];
      PassedOnNone(driver, watchers.Keys);
      while rest != {}
        invariant visited + rest == orphaned && visited * rest == {}
        invariant forall session :: session in heirs ==> session in watchers && heirs[session] in watchers[session]
        invariant forall session :: session in visited && session in watchers ==> session in heirs
        invariant driver == PassedOn(old(driver), watchers.Keys, heirs, visited)
        decreases |rest|
      {
        var session :| session in rest;
        if session in watchers && watchers[session] != {} {
          Inhabited(watchers[session]);
          var next :| next in watchers[session];
          PassedOnOne(old(driver), watchers.Keys, heirs, visited, session, next);
          heirs := heirs[session := next];
          driver := driver[session := next];
        } else {
          PassedOnOne(old(driver), watchers.Keys, heirs, visited, session, 0);
          driver := driver - {session};
        }
        rest, visited := rest - {session}, visited + {session};
      }
      assert visited == orphaned;
    }

    /** A phone gone: its watches end, its sessions pass to another watcher, its questions lapse. */
    method OnPhoneEof(phone: PhoneId) returns (ghost heirs: map<SessionId, PhoneId>)
      modifies this
      ensures forall session :: session in old(View()).book.driver ==> Steps.HeirOk(old(View()).book, phone, session, heirs)
      ensures View() == old(View()).(book := Steps.DropPhone(old(View()).book, phone, heirs))
    {
      hide PassedOn, Steps.DropPhone;
      phones := phones - {phone};
      RetainWatchers(phone);
      heirs := PassOn(phone);
      reverse := map key | key in reverse && key.0 != phone :: reverse[key];
      Dropped(old(View()).book, phone, heirs);
    }

    // ----- One event at a time

    /** Whatever order the hash tables are visited in, handling an event is one of its steps. */
    method Handle(event: Event, now: int) returns (ghost step: Label)
      requires event.DeadlinePassed? ==> Due(home, now)
      modifies this
      ensures step.event == event && step.now == now
      ensures Steps.Legal(old(View()), step) && View() == Steps.Step(old(View()), step)
    {
      hide Steps.Accept, Steps.OnHomeFrame, Steps.OnHomeEof, Steps.OnPhoneHello, Steps.OnPhoneText, Steps.DropPhone,
           Steps.OnDeadline, Steps.HeirOk, Steps.Enumerates;
      ghost var order: seq<PhoneId>, heirs: map<SessionId, PhoneId> := [], map[];
      match event {
        case Accepted => OnAccepted(now);
        case HomeFrame(g, frame) => order := OnHomeFrame(g, frame, now);
        case HomeEof(g) => OnHomeEof(g);
        case PhoneHello => OnPhoneHello();
        case PhoneText(phone, text) => heirs := OnPhoneText(phone, text);
        case PhoneEof(phone) => heirs := OnPhoneEof(phone);
        case DeadlinePassed => OnDeadline();
      }
      step := Label(event, Choice(heirs, order), now);
    }

    /** The loop of the hub, over whatever arrives and whenever. Its history is a run made of the arrivals
        in their order, less only the wake-ups that found no deadline due, and the hub stops where the
        run ends. */
    method Run(arrivals: seq<(Event, int)>) returns (ghost run: Run, ghost kept: seq<nat>)
      requires View() == INITIAL
      modifies this
      ensures IsRun(run) && Handles(run, kept, arrivals)
      ensures View() == Steps.Shutdown(run.states[|run.labels|])
    {
      hide Steps.Step, Steps.Legal, Steps.Shutdown, CurrentDeadline, Handles;
      run, kept := HubRuns.Run([View()], []), [];
      NothingToHandle(run);
      for i := 0 to |arrivals|
        invariant IsRun(run) && run.states[|run.labels|] == View()
        invariant Handles(run, kept, arrivals[..i])
      {
        var (event, now) := arrivals[i];
        assert arrivals[..i + 1] == arrivals[..i] + [arrivals[i]];
        if !event.DeadlinePassed? || Due(home, now) {
          ghost var step := Handle(event, now);
          RunExtends(run, step, View());
          HandlesMore(run, kept, arrivals[..i], step, View());
          run, kept := HubRuns.Run(run.states + [View()], run.labels + [step]), kept + [i];
        } else {
          HandlesSkip(run, kept, arrivals[..i], arrivals[i]);
        }
      }
      assert arrivals[..|arrivals|] == arrivals;
      Shutdown();
    }

    method Shutdown()
      modifies this`home, this`halts, this`phones
      ensures View() == Steps.Shutdown(old(View()))
    {
      match home {
        case Away =>
        case BringingUp(incoming) => Drop(incoming.link);
        case Sole(live) => Drop(live);
        case Dual(incumbent, incoming) =>
          Drop(incoming.link);
          Drop(incumbent);
      }
      home := Home.Away;
      phones := map[];
    }
  }
}

/** What each event makes of the hub's state, as functions: the specification that the methods of
    class `Hub` are proved against, and that the properties are proved about. */
module HubSteps {
  import opened Json
  import opened SessionOrder
  import opened PendingLoads
  import opened HubState

  // ----- Channels

  function Say(s: State, phone: PhoneId, text: ToPhone): State {
    if phone in s.book.phones then s.(texts := s.texts[phone := Sent(s.texts, phone) + [text]]) else s
  }

  function Appended(texts: map<PhoneId, seq<ToPhone>>, hit: set<PhoneId>, text: ToPhone): map<PhoneId, seq<ToPhone>> {
    map p | p in texts.Keys + hit :: if p in hit then Sent(texts, p) + [text] else texts[p]
  }

  /** The same text to every phone of a set; phones that are gone are passed over. */
  function SayAll(s: State, phones: set<PhoneId>, text: ToPhone): State {
    s.(texts := Appended(s.texts, phones * s.book.phones.Keys, text))
  }

  function Broadcast(s: State, away: bool): State {
    SayAll(s, ReadyPhones(s.book), HostAway(away))
  }

  function SendHome(s: State, g: Gen, messages: seq<ToHome>): State {
    s.(links := s.links[g := Sent(s.links, g) + messages])
  }

  function SendMux(s: State, message: ToHome): State {
    if MuxGen(s.slot.home).None? then s else SendHome(s, MuxGen(s.slot.home).value, [message])
  }

  // ----- The home slot

  function WithIncoming(slot: Slot, incoming: Incoming): Slot {
    if slot.home.BringingUp? then slot.(home := BringingUp(incoming))
    else if slot.home.Dual? then slot.(home := Dual(slot.home.incumbent, incoming))
    else slot
  }

  /** A new link takes the candidate's place; a candidate already there is dropped. */
  function AcceptSlot(slot: Slot, now: int): Slot {
    var g := slot.nextGen + 1;
    var incoming := WaitRegistered(g, now + REGISTER_WAIT);
    match slot.home
    case Away => slot.(nextGen := g, home := BringingUp(incoming))
    case Sole(incumbent) => slot.(nextGen := g, home := Dual(incumbent, incoming))
    case Dual(incumbent, loser) =>
      slot.(nextGen := g, home := Dual(incumbent, incoming), halts := slot.halts + [loser.link])
    case BringingUp(loser) =>
      slot.(nextGen := g, home := BringingUp(incoming), halts := slot.halts + [loser.link])
  }

  function Accept(s: State, now: int): State {
    s.(slot := AcceptSlot(s.slot, now), links := s.links[s.slot.nextGen + 1 := []])
  }

  function DropIncoming(slot: Slot): Slot {
    if slot.home.BringingUp? then slot.(home := Home.Away, halts := slot.halts + [slot.home.incoming.link])
    else if slot.home.Dual? then
      slot.(home := Sole(slot.home.incumbent), halts := slot.halts + [slot.home.incoming.link])
    else slot
  }

  function FailIncoming(slot: Slot, g: Gen): Slot {
    if CandidateAt(slot.home, g).Some? then DropIncoming(slot) else slot
  }

  function OnDeadline(s: State): State {
    if CurrentDeadline(s.slot.home).Some? then s.(slot := DropIncoming(s.slot)) else s
  }

  /** The served link is gone; a candidate, if there is one, is brought up alone. */
  function LoseMux(slot: Slot, g: Gen): Slot {
    slot.(home := if slot.home.Dual? then BringingUp(slot.home.incoming) else Home.Away, halts := slot.halts + [g])
  }

  function OnHomeEof(s: State, g: Gen): State {
    var role := RoleOf(s.slot.home, g);
    if role == Mux then Broadcast(s.(slot := LoseMux(s.slot, g)), true)
    else if role == Candidate then s.(slot := FailIncoming(s.slot, g))
    else s
  }

  function BeginInitialize(s: State, g: Gen): State {
    var id := s.nextReq + 1;
    SendHome(s.(nextReq := id, outstanding := s.outstanding[id := HubInitialize],
                slot := WithIncoming(s.slot, WaitInitialize(g))),
             g, [Initialize(id)])
  }

  function OnRegistered(s: State, g: Gen, ready: bool, version: int, now: int): State {
    if version != LEADER_PROTOCOL_VERSION then
      s.(slot := FailIncoming(s.slot.(refusedVersion := Some(version)), g))
    else
      var s1 := s.(slot := s.slot.(refusedVersion := None));
      var incoming := CandidateAt(s.slot.home, g);
      if incoming.None? || !incoming.value.WaitRegistered? then s1
      else if ready then BeginInitialize(s1, g)
      else s1.(slot := WithIncoming(s1.slot, WaitReady(g, now + READY_WAIT)))
  }

  function OnLeaderReady(s: State, g: Gen): State {
    var incoming := CandidateAt(s.slot.home, g);
    if incoming.None? || !incoming.value.WaitReady? then s else BeginInitialize(s, g)
  }

  /** The candidate becomes the served link; the link it replaces is halted. */
  function FinishSuccessor(s: State, g: Gen): State {
    if s.slot.home.Dual? then
      s.(slot := s.slot.(home := Sole(g), halts := s.slot.halts + [s.slot.home.incumbent]))
    else
      Broadcast(s.(slot := s.slot.(home := Sole(g))), false)
  }

  function LoadRequests(order: seq<SessionId>, base: int): (requests: seq<ToHome>)
    ensures |requests| == |order|
    ensures forall k :: 0 <= k < |order| ==> requests[k] == Load(base + 1 + k, order[k])
  {
    seq(|order|, k requires 0 <= k < |order| => Load(base + 1 + k, order[k]))
  }

  /** One `session/load` for each session watched now, numbered in session order. */
  function BeginLoads(s: State, g: Gen): State
    requires s.book.watchers.Keys != {}
  {
    var order := Ordered(s.book.watchers.Keys);
    var pending := Start(s.book.watchers.Keys, s.nextReq).value;
    SendHome(s.(nextReq := s.nextReq + |order|,
                outstanding := s.outstanding + (map id | id in pending.loadIds :: HubLoad),
                slot := WithIncoming(s.slot, WaitLoads(g, pending))),
             g, LoadRequests(order, s.nextReq))
  }

  function AfterInitialize(s: State, g: Gen): State {
    var incoming := CandidateAt(s.slot.home, g);
    if incoming.None? || !incoming.value.WaitInitialize? then s
    else if s.book.watchers.Keys == {} then FinishSuccessor(s, g)
    else BeginLoads(s, g)
  }

  function AfterLoad(s: State, g: Gen, id: ReqId): State {
    var incoming := CandidateAt(s.slot.home, g);
    if incoming.None? || !incoming.value.WaitLoads? then s else
      match Loaded(incoming.value.pending, id)
      case Done => FinishSuccessor(s, g)
      case More(left) => s.(slot := WithIncoming(s.slot, WaitLoads(g, left)))
      case Ignore(same) => s.(slot := WithIncoming(s.slot, WaitLoads(g, same)))
  }

  // ----- Phones and their sessions

  function AddPhone(book: Book): Book {
    book.(nextPhone := book.nextPhone + 1, phones := book.phones[book.nextPhone + 1 := Connected])
  }

  function Watch(book: Book, phone: PhoneId, session: SessionId): Book {
    if !PhoneReady(book, phone) then book else
      book.(watchers := book.watchers[session := Watching(book, session) + {phone}],
            driver := if session in book.driver then book.driver else book.driver[session := phone])
  }

  /** A watcher that stays must be named to take over a session whose driver leaves it. */
  predicate HeirOk(book: Book, phone: PhoneId, session: SessionId, heirs: map<SessionId, PhoneId>) {
    session in book.driver && book.driver[session] == phone && Watching(book, session) - {phone} != {} ==>
      session in heirs && heirs[session] in Watching(book, session) - {phone}
  }

  function Unwatch(book: Book, phone: PhoneId, session: SessionId, heirs: map<SessionId, PhoneId>): Book
    requires HeirOk(book, phone, session, heirs)
  {
    if session !in book.watchers then book else
      var left := book.watchers[session] - {phone};
      if left == {} then
        book.(watchers := book.watchers - {session}, driver := book.driver - {session})
      else
        book.(watchers := book.watchers[session := left],
              driver := if session in book.driver && book.driver[session] == phone
                        then book.driver[session := heirs[session]] else book.driver)
  }

  ghost function DropPhone(book: Book, phone: PhoneId, heirs: map<SessionId, PhoneId>): Book
    requires forall session :: session in book.driver ==> HeirOk(book, phone, session, heirs)
  {
    book.(phones := book.phones - {phone},
          watchers := map session | session in book.watchers && book.watchers[session] - {phone} != {} ::
            book.watchers[session] - {phone},
          driver := map session | session in book.driver
                                  && (book.driver[session] != phone || Watching(book, session) - {phone} != {}) ::
            if book.driver[session] == phone then (assert HeirOk(book, phone, session, heirs); heirs[session])
            else book.driver[session],
          reverse := map key | key in book.reverse && key.0 != phone :: book.reverse[key])
  }

  // ----- From home

  function OnForwardedResult(s: State, g: Gen, obj: Object, phone: PhoneId, origin: Value): State {
    if RoleOf(s.slot.home, g) != Mux then s else
      var session := SessionIn(obj);
      var s1 := if session.Some? then s.(book := Watch(s.book, phone, session.value)) else s;
      Say(s1, phone, FromHome(SetId(obj, origin)))
  }

  function OnHomeResult(s: State, g: Gen, obj: Object): State {
    var id := AsNat(Id(obj));
    if id.None? || id.value !in s.outstanding then s else
      var s1 := s.(outstanding := s.outstanding - {id.value});
      match s.outstanding[id.value]
      case Forwarded(phone, origin) => OnForwardedResult(s1, g, obj, phone, origin)
      case HubInitialize =>
        if RoleOf(s.slot.home, g) != Candidate then s1
        else if "error" in obj then s1.(slot := FailIncoming(s.slot, g))
        else AfterInitialize(s1, g)
      case HubLoad =>
        if RoleOf(s.slot.home, g) != Candidate then s1 else AfterLoad(s1, g, id.value)
  }

  function OnHomeNotification(s: State, obj: Object): State
    requires IsNotification(obj)
  {
    var session := SessionIn(obj);
    if Unwrapped(Method(obj).value) != "session/update" || session.None? then s
    else SayAll(s, Watching(s.book, session.value), FromHome(obj))
  }

  function OpenClaim(book: Book, key: ReqId, homeId: Value): Book {
    book.(claims := book.claims[key := Open(homeId)])
  }

  function AskBook(book: Book, claim: ReqId, phone: PhoneId): Book {
    book.(reverseSeq := book.reverseSeq + 1,
          reverse := book.reverse[(phone, QuestionId(book.reverseSeq + 1)) := claim])
  }

  /** One target of a question: it gets the question under a fresh id that leads to the claim. */
  function Ask(s: State, obj: Object, claim: ReqId, phone: PhoneId): State {
    Say(s.(book := AskBook(s.book, claim, phone)), phone, FromHome(SetId(obj, QuestionId(s.book.reverseSeq + 1))))
  }

  function AskAll(s: State, obj: Object, claim: ReqId, order: seq<PhoneId>): State {
    if order == [] then s else
      Ask(AskAll(s, obj, claim, order[..|order| - 1]), obj, claim, order[|order| - 1])
  }

  /** Each member of the set once. */
  ghost predicate Enumerates(order: seq<PhoneId>, phones: set<PhoneId>) {
    && (forall p :: p in order <==> p in phones)
    && (forall i, j :: 0 <= i < j < |order| ==> order[i] != order[j])
  }

  function OnReverseRequest(s: State, obj: Object, order: seq<PhoneId>): State
    requires IsRequest(obj)
  {
    var session := SessionIn(obj);
    if session.None? || Targets(s.book, Method(obj).value, session.value) == {} then s else
      var key := s.nextReq + 1;
      AskAll(s.(nextReq := key, book := OpenClaim(s.book, key, Id(obj).value)), obj, key, order)
  }

  function OnHomeAcp(s: State, g: Gen, obj: Object, order: seq<PhoneId>): State {
    if IsRequest(obj) then
      if RoleOf(s.slot.home, g) == Mux then OnReverseRequest(s, obj, order) else s
    else if IsNotification(obj) then
      if RoleOf(s.slot.home, g) == Mux then OnHomeNotification(s, obj) else s
    else if IsResult(obj) then OnHomeResult(s, g, obj)
    else s
  }

  function OnHomeFrame(s: State, g: Gen, frame: LeaderFrame, order: seq<PhoneId>, now: int): State {
    var role := RoleOf(s.slot.home, g);
    if role == Unknown then s else
      match frame
      case Registered(ready, version) => if role == Candidate then OnRegistered(s, g, ready, version, now) else s
      case LeaderReady => if role == Candidate then OnLeaderReady(s, g) else s
      case Acp(payload) => if payload.Some? then OnHomeAcp(s, g, payload.value, order) else s
      case LeaderError => OnHomeEof(s, g)
      case Pong => s
      case OtherFrame => s
  }

  // ----- From a phone

  function OnPhoneHello(s: State): State {
    s.(book := AddPhone(s.book), texts := s.texts[s.book.nextPhone + 1 := []])
  }

  function AnswerInitialize(s: State, phone: PhoneId, id: Value): State {
    if phone !in s.book.phones then s else
      var s1 := Say(s, phone, InitializeResult(id));
      var s2 := if HomeAway(s.slot.home) then Say(s1, phone, HostAway(true)) else s1;
      s2.(book := s.book.(phones := s.book.phones[phone := Initialized]))
  }

  function AwayError(refused: Option<int>, id: Value): ToPhone {
    match refused
    case Some(version) =>
      Failure(id, -32003, "host is away (unsupported leader protocol version " + Decimal(version) + ")")
    case None => Failure(id, -32003, "host is away")
  }

  function Uninitialized(id: Value): ToPhone {
    Failure(id, -32600, "phone has not initialized")
  }

  function ForwardRequest(s: State, phone: PhoneId, origin: Value, obj: Object): State {
    if MuxGen(s.slot.home).None? then Say(s, phone, AwayError(s.slot.refusedVersion, origin)) else
      var id := s.nextReq + 1;
      SendMux(s.(nextReq := id, outstanding := s.outstanding[id := Forwarded(phone, origin)]),
              FromPhone(SetId(obj, Int(id))))
  }

  /** The session a `session/close` request names. */
  function Closes(obj: Object): Option<SessionId> {
    if IsRequest(obj) && Method(obj).value == "session/close" then SessionIn(obj) else None
  }

  /** The session a `session/load` or `session/resume` request names. */
  function Opens(obj: Object): Option<SessionId> {
    if IsRequest(obj) && (Method(obj).value == "session/load" || Method(obj).value == "session/resume")
    then SessionIn(obj) else None
  }

  /** What a request does to its phone's sessions before it is forwarded. */
  function Subscribe(book: Book, phone: PhoneId, obj: Object, heirs: map<SessionId, PhoneId>): Book
    requires Closes(obj).Some? ==> HeirOk(book, phone, Closes(obj).value, heirs)
  {
    if Opens(obj).Some? then Watch(book, phone, Opens(obj).value)
    else if Closes(obj).Some? then Unwatch(book, phone, Closes(obj).value, heirs)
    else book
  }

  /** Requests about sessions that a phone may not make before it has initialized; closing one it may. */
  predicate NeedsInitialized(name: string) {
    name != "session/close" && "session/" <= name
  }

  function OnPhoneRequest(s: State, phone: PhoneId, obj: Object, heirs: map<SessionId, PhoneId>): State
    requires IsRequest(obj)
    requires Closes(obj).Some? ==> HeirOk(s.book, phone, Closes(obj).value, heirs)
  {
    var name := Method(obj).value;
    var id := Id(obj).value;
    if name == "initialize" then AnswerInitialize(s, phone, id)
    else if name == "authenticate" then Say(s, phone, Failure(id, -32601, "Method not found"))
    else if NeedsInitialized(name) && !PhoneReady(s.book, phone) then Say(s, phone, Uninitialized(id))
    else ForwardRequest(s.(book := Subscribe(s.book, phone, obj, heirs)), phone, id, obj)
  }

  /** A question answered: its id leads nowhere from now on, and its claim is taken. */
  function Answered(book: Book, key: (PhoneId, Value)): Book
    requires key in book.reverse
  {
    var claim := book.reverse[key];
    book.(reverse := book.reverse - {key},
          claims := if claim in book.claims then book.claims[claim := Taken] else book.claims)
  }

  function OnPhoneReply(s: State, phone: PhoneId, obj: Object): State
    requires IsReply(obj)
  {
    var key := (phone, Id(obj).value);
    if key !in s.book.reverse then s else
      var claim := s.book.reverse[key];
      var s1 := s.(book := Answered(s.book, key));
      if claim !in s.book.claims || s.book.claims[claim].Taken? then s1
      else SendMux(s1, FromPhone(SetId(obj, s.book.claims[claim].homeId)))
  }

  function OnPhoneText(s: State, phone: PhoneId, text: Option<Object>, heirs: map<SessionId, PhoneId>): State
    requires text.Some? && Closes(text.value).Some? ==> HeirOk(s.book, phone, Closes(text.value).value, heirs)
  {
    if phone !in s.book.phones then s
    else if text.None? then Say(s, phone, Failure(Null, -32700, "Parse error"))
    else if IsRequest(text.value) then OnPhoneRequest(s, phone, text.value, heirs)
    else if IsNotification(text.value) then SendMux(s, FromPhone(text.value))
    else if IsReply(text.value) then OnPhoneReply(s, phone, text.value)
    else s
  }

  // ----- One step

  /** The question a frame from home puts to phones, if it is one: a request that names a session. */
  function Question(frame: LeaderFrame): Option<Object> {
    if frame.Acp? && frame.payload.Some? && IsRequest(frame.payload.value) && SessionIn(frame.payload.value).Some?
    then frame.payload else None
  }

  /** The event can happen now, and the choice is one hash iteration could have made. */
  ghost predicate Legal(s: State, l: Label) {
    match l.event
    case HomeFrame(_, frame) => Question(frame).Some? ==>
      var obj := Question(frame).value;
      Enumerates(l.choice.order, Targets(s.book, Method(obj).value, SessionIn(obj).value))
    case PhoneText(phone, text) =>
      text.Some? && Closes(text.value).Some? ==> HeirOk(s.book, phone, Closes(text.value).value, l.choice.heirs)
    case PhoneEof(phone) =>
      forall session :: session in s.book.driver ==> HeirOk(s.book, phone, session, l.choice.heirs)
    case DeadlinePassed =>
      CurrentDeadline(s.slot.home).Some? && CurrentDeadline(s.slot.home).value <= l.now
    case Accepted => true
    case HomeEof(_) => true
    case PhoneHello => true
  }

  ghost function Step(s: State, l: Label): State
    requires Legal(s, l)
  {
    match l.event
    case Accepted => Accept(s, l.now)
    case HomeFrame(g, frame) => OnHomeFrame(s, g, frame, l.choice.order, l.now)
    case HomeEof(g) => OnHomeEof(s, g)
    case PhoneHello => OnPhoneHello(s)
    case PhoneText(phone, text) => OnPhoneText(s, phone, text, l.choice.heirs)
    case PhoneEof(phone) => s.(book := DropPhone(s.book, phone, l.choice.heirs))
    case DeadlinePassed => OnDeadline(s)
  }

  /** The hub stops: every link it still holds is halted. */
  function Shutdown(s: State): State {
    var dropped := match s.slot.home
      case Away => []
      case BringingUp(incoming) => [incoming.link]
      case Sole(g) => [g]
      case Dual(g, incoming) => [incoming.link, g];
    s.(slot := s.slot.(home := Home.Away, halts := s.slot.halts + dropped), book := s.book.(phones := map[]))
  }
}

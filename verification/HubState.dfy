/** What the hub holds, what it has put on its channels, and the readers of its home slot. */
module HubState {
  import opened Json
  import opened SessionOrder
  import opened PendingLoads

  // Identifiers and counters count up from zero and are not bounded.
  type Gen = int
  type PhoneId = int

  const LEADER_PROTOCOL_VERSION: int := 1

  // Milliseconds.
  const REGISTER_WAIT: int := 10_000
  const READY_WAIT: int := 120_000

  /** A link being brought up. A link is named by its generation. */
  datatype Incoming =
    | WaitRegistered(link: Gen, deadline: int)
    | WaitReady(link: Gen, deadline: int)
    | WaitInitialize(link: Gen)
    | WaitLoads(link: Gen, pending: PendingLoads)
    | Ready(link: Gen)

  datatype Home =
    | Away
    | BringingUp(incoming: Incoming)
    | Sole(live: Gen)
    | Dual(incumbent: Gen, incoming: Incoming)

  datatype Role = Mux | Candidate | Unknown

  datatype Phone = Connected | Initialized

  datatype Wait =
    | Forwarded(phone: PhoneId, origin: Value)
    | HubInitialize
    | HubLoad

  datatype Claim = Open(homeId: Value) | Taken

  /** A message put on a link: the hub's own `initialize` and `session/load` requests, or the
      text of a phone's request, notification or answer. */
  datatype ToHome =
    | Initialize(id: ReqId)
    | Load(id: ReqId, session: SessionId)
    | FromPhone(obj: Object)

  /** A text put on a phone's channel: written by the hub itself, or passed on from home. */
  datatype ToPhone =
    | InitializeResult(id: Value)
    | Failure(id: Value, code: int, message: string)
    | HostAway(away: bool)
    | FromHome(obj: Object)

  /** The links the hub holds, and the ones it has halted, in order. */
  datatype Slot = Slot(home: Home, nextGen: int, refusedVersion: Option<int>, halts: seq<Gen>)

  /** The phones, the sessions they watch, and the questions from home they have not answered. */
  datatype Book = Book(
    phones: map<PhoneId, Phone>,
    nextPhone: int,
    watchers: map<SessionId, set<PhoneId>>,
    driver: map<SessionId, PhoneId>,
    reverse: map<(PhoneId, Value), ReqId>,
    claims: map<ReqId, Claim>,
    reverseSeq: int)

  /** The hub's fields, with everything ever put on each link and on each phone's channel. */
  datatype State = State(
    slot: Slot,
    book: Book,
    outstanding: map<ReqId, Wait>,
    nextReq: int,
    links: map<Gen, seq<ToHome>>,
    texts: map<PhoneId, seq<ToPhone>>)

  const INITIAL := State(
    Slot(Home.Away, 0, None, []),
    Book(map[], 0, map[], map[], map[], map[], 0),
    map[], 0, map[], map[])

  datatype LeaderFrame =
    | Registered(ready: bool, version: int)
    | LeaderReady
    | Acp(payload: Option<Object>)
    | LeaderError
    | Pong
    | OtherFrame

  datatype Event =
    | Accepted
    | HomeFrame(gen: Gen, frame: LeaderFrame)
    | HomeEof(gen: Gen)
    | PhoneHello
    | PhoneText(phone: PhoneId, text: Option<Object>)
    | PhoneEof(phone: PhoneId)
    | DeadlinePassed

  /** What hash iteration order decides in a step: which watcher inherits a session whose driver
      leaves it, and in which order the targets of a question are visited. */
  datatype Choice = Choice(heirs: map<SessionId, PhoneId>, order: seq<PhoneId>)

  datatype Label = Label(event: Event, choice: Choice, now: int)

  predicate HomeAway(home: Home) {
    home.Away? || home.BringingUp?
  }

  function MuxGen(home: Home): Option<Gen> {
    if home.Sole? then Some(home.live) else if home.Dual? then Some(home.incumbent) else None
  }

  function CandidateOf(home: Home): Option<Incoming> {
    if home.BringingUp? || home.Dual? then Some(home.incoming) else None
  }

  /** The candidate's handshake, if the candidate is link `g`. */
  function CandidateAt(home: Home, g: Gen): Option<Incoming> {
    if (home.BringingUp? || home.Dual?) && home.incoming.link == g then Some(home.incoming) else None
  }

  function RoleOf(home: Home, g: Gen): Role {
    if MuxGen(home) == Some(g) then Mux
    else if CandidateAt(home, g).Some? then Candidate
    else Unknown
  }

  function IncomingDeadline(incoming: Incoming): Option<int> {
    if incoming.WaitRegistered? || incoming.WaitReady? then Some(incoming.deadline) else None
  }

  function CurrentDeadline(home: Home): Option<int> {
    if CandidateOf(home).Some? then IncomingDeadline(CandidateOf(home).value) else None
  }

  /** The hub holds this link, to serve it or to bring it up. */
  predicate Live(home: Home, g: Gen) {
    MuxGen(home) == Some(g) || CandidateAt(home, g).Some?
  }

  /** What a channel holds; a channel nobody opened holds nothing. */
  function Sent<T>(channels: map<int, seq<T>>, k: int): seq<T> {
    if k in channels then channels[k] else []
  }

  predicate PhoneReady(book: Book, phone: PhoneId) {
    phone in book.phones && book.phones[phone].Initialized?
  }

  function ReadyPhones(book: Book): set<PhoneId> {
    set p | p in book.phones && book.phones[p].Initialized?
  }

  function Watching(book: Book, session: SessionId): set<PhoneId> {
    if session in book.watchers then book.watchers[session] else {}
  }

  /** The phones a question from home about `session` goes to. */
  function Targets(book: Book, name: string, session: SessionId): set<PhoneId> {
    if IsInteraction(name) then Watching(book, session)
    else if session in book.driver then {book.driver[session]} else {}
  }
}

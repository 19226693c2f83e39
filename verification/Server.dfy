/**
 * The rendezvous server as a transition system.
 *
 * Four maps are shared, each behind its own lock. A request is served by a handler that takes one
 * lock after another with gaps in between, so its program counter and the locals it carries across
 * a gap are part of the state. Every step runs one locked section (or one clock reading between
 * two sections) of one handler, or one stage of the pruning task, or lets time pass.
 */
module Server {
  import opened Collections
  import opened Registry

  const SESSION_TTL_SECS: nat := 86_400

  datatype AccountStatus = Pending | Approved | Blocked

  datatype UserAccount = UserAccount(
    username: string, email: string, passwordHash: string, status: AccountStatus, verificationToken: Option<string>)

  datatype SessionRecord = SessionRecord(username: string, expiresAt: nat)

  /** The parsed body of a POST or DELETE on /register. */
  datatype Change =
    | Enrol(username: string, nodeId: string, addrs: seq<string>, relayUrl: Option<string>)
    | Withdraw(username: string, nodeId: string)

  /** Signup carries trimmed and lowercased fields and the salted hash; a body that does not parse is None. */
  datatype Request =
    | Signup(username: string, email: string, password: string, hash: string, autoApprove: bool)
    | Verify(token: string)
    | Login(username: string)
    | ChangeRegistry(bearer: Option<string>, body: Option<Change>)
    | ListPeers(username: string)

  datatype Reply =
    | Created | Ok | Granted(token: string) | Listed(peers: Peers)
    | BadRequest | Unauthorized | Forbidden | NotFound | Conflict

  /** What a handler is about to do. */
  datatype Handler =
    | SignupUser(account: UserAccount)               // lock users: check and insert
    | SignupLink(token: string, username: string)    // lock verify_tokens: insert
    | VerifyTake(token: string)                      // lock verify_tokens: remove
    | VerifyApprove(token: string, username: string) // lock users: approve
    | LoginRead(username: string)                    // lock users: copy hash and status
    | LoginInsert(username: string, token: string)   // lock sessions: insert
    | AuthSession(bearer: string, body: Option<Change>)   // lock sessions: look up the bearer token
    | AuthAccount(username: string, body: Option<Change>) // lock users: check the status
    | Stamp(username: string, change: Change)        // read the clock for last_seen
    | RegistryWrite(username: string, record: PeerRecord) // lock registry: upsert
    | RegistryRemove(username: string, nodeId: string)    // lock registry: remove
    | PeersRead(username: string)                    // lock registry: filter by the clock
    | Done(reply: Reply)

  /** The pruning task; it reads the clock before each of its two locks. */
  datatype Pruner = Asleep | RegistryNext(cutoff: nat) | StampNext | SessionsNext(now: nat)

  datatype State = State(
    registry: Registry,
    users: map<string, UserAccount>,
    sessions: map<string, SessionRecord>,
    verifyTokens: map<string, string>,
    handlers: map<nat, Handler>,
    pruner: Pruner,
    clock: nat,
    issued: set<string>)   // every random token drawn so far

  /** `token` is the random token the step may draw, `passwordOk` the verdict of the password check. */
  datatype Event =
    | Tick(seconds: nat)
    | Arrive(id: nat, request: Request, token: string)
    | Section(id: nat, token: string, passwordOk: bool)
    | Block(username: string)   // an operator blocks an account
    | PruneStep

  const START := State(map[], map[], map[], map[], map[], Asleep, 0, {})

  /** Handler ids are not reused, handlers are never cancelled, and random tokens do not repeat. */
  predicate Enabled(s: State, e: Event) {
    match e
    case Arrive(id, _, token) => id !in s.handlers && token !in s.issued
    case Section(id, token, _) => id in s.handlers && token !in s.issued
    case _ => true
  }

  predicate EmailTaken(users: map<string, UserAccount>, email: string) {
    exists u :: u in users && users[u].email == email
  }

  function Put(s: State, id: nat, h: Handler): State {
    s.(handlers := s.handlers[id := h])
  }

  /** Does this request draw a verification token before its first lock? */
  predicate DrawsLink(request: Request) {
    request.Signup? && request.username != "" && request.email != "" && request.password != "" && !request.autoApprove
  }

  /** What a new handler does first; a signup validates, hashes and draws its token before any lock. */
  function FirstHandler(request: Request, token: string): Handler {
    match request
    case Signup(username, email, password, hash, autoApprove) =>
      if username == "" || email == "" || password == "" then Done(BadRequest)
      else if autoApprove then SignupUser(UserAccount(username, email, hash, Approved, None))
      else SignupUser(UserAccount(username, email, hash, Pending, Some(token)))
    case Verify(t) => VerifyTake(t)
    case Login(username) => LoginRead(username)
    case ChangeRegistry(bearer, body) => if bearer.None? then Done(Unauthorized) else AuthSession(bearer.value, body)
    case ListPeers(username) => PeersRead(username)
  }

  function Begin(s: State, id: nat, request: Request, token: string): State {
    Put(if DrawsLink(request) then s.(issued := s.issued + {token}) else s, id, FirstHandler(request, token))
  }

  /** Check and insert under one lock; a link is inserted only later. */
  function Admission(users: map<string, UserAccount>, a: UserAccount): (map<string, UserAccount>, Handler) {
    if a.username in users || EmailTaken(users, a.email) then (users, Done(Conflict))
    else
      (users[a.username := a],
       if a.verificationToken.Some? then SignupLink(a.verificationToken.value, a.username) else Done(Created))
  }

  function InsertAccount(s: State, id: nat, a: UserAccount): State {
    Put(s.(users := Admission(s.users, a).0), id, Admission(s.users, a).1)
  }

  function Linked(s: State, id: nat, token: string, u: string): State {
    Put(s.(verifyTokens := s.verifyTokens[token := u]), id, Done(Created))
  }

  function Redemption(links: map<string, string>, token: string): (map<string, string>, Handler) {
    if token !in links then (links, Done(NotFound)) else (links - {token}, VerifyApprove(token, links[token]))
  }

  function TakeLink(s: State, id: nat, token: string): State {
    Put(s.(verifyTokens := Redemption(s.verifyTokens, token).0), id, Redemption(s.verifyTokens, token).1)
  }

  function ApprovedUsers(users: map<string, UserAccount>, u: string): map<string, UserAccount>
    requires u in users
  {
    users[u := users[u].(status := Approved, verificationToken := None)]
  }

  function Approval(users: map<string, UserAccount>, username: string): (map<string, UserAccount>, Reply) {
    if username !in users then (users, Ok)
    else if users[username].status != Pending then (users, BadRequest)
    else (ApprovedUsers(users, username), Ok)
  }

  function ApproveAccount(s: State, id: nat, username: string): State {
    Put(s.(users := Approval(s.users, username).0), id, Done(Approval(s.users, username).1))
  }

  /** The status is copied here; the account may be blocked before the session is inserted. */
  function LoginVerdict(users: map<string, UserAccount>, username: string, token: string, passwordOk: bool): Handler {
    if username !in users || !passwordOk then Done(Unauthorized)
    else if users[username].status != Approved then Done(Forbidden)
    else LoginInsert(username, token)
  }

  function CheckLogin(s: State, id: nat, username: string, token: string, passwordOk: bool): State {
    var verdict := LoginVerdict(s.users, username, token, passwordOk);
    Put(if verdict.LoginInsert? then s.(issued := s.issued + {token}) else s, id, verdict)
  }

  function SessionAdded(s: State, u: string, token: string): State {
    s.(sessions := s.sessions[token := SessionRecord(u, s.clock + SESSION_TTL_SECS)])
  }

  function InsertSession(s: State, id: nat, username: string, token: string): State {
    Put(SessionAdded(s, username, token), id, Done(Granted(token)))
  }

  function SessionVerdict(sessions: map<string, SessionRecord>, now: nat, bearer: string,
      body: Option<Change>): Handler {
    if bearer !in sessions || sessions[bearer].expiresAt < now then Done(Unauthorized)
    else AuthAccount(sessions[bearer].username, body)
  }

  function CheckSession(s: State, id: nat, bearer: string, body: Option<Change>): State {
    Put(s, id, SessionVerdict(s.sessions, s.clock, bearer, body))
  }

  /** The account is looked at in a second section; then the body is parsed and its username compared. */
  function AccountVerdict(users: map<string, UserAccount>, username: string, body: Option<Change>): Handler {
    if username !in users then Done(Unauthorized)
    else if users[username].status != Approved then Done(Forbidden)
    else if body.None? then Done(BadRequest)
    else if body.value.username != username then Done(Forbidden)
    else if body.value.Enrol? then Stamp(username, body.value)
    else RegistryRemove(username, body.value.nodeId)
  }

  function CheckAccount(s: State, id: nat, username: string, body: Option<Change>): State {
    Put(s, id, AccountVerdict(s.users, username, body))
  }

  function Stamped(username: string, change: Change, now: nat): Handler {
    if change.Withdraw? then RegistryRemove(username, change.nodeId)
    else RegistryWrite(username, PeerRecord(change.nodeId, change.addrs, change.relayUrl, now))
  }

  function StampRecord(s: State, id: nat, username: string, change: Change): State {
    Put(s, id, Stamped(username, change, s.clock))
  }

  function RunSection(s: State, id: nat, token: string, passwordOk: bool): State
    requires id in s.handlers
  {
    match s.handlers[id]
    case SignupUser(a) => InsertAccount(s, id, a)
    case SignupLink(t, u) => Linked(s, id, t, u)
    case VerifyTake(t) => TakeLink(s, id, t)
    case VerifyApprove(t, u) => ApproveAccount(s, id, u)
    case LoginRead(u) => CheckLogin(s, id, u, token, passwordOk)
    case LoginInsert(u, t) => InsertSession(s, id, u, t)
    case AuthSession(bearer, body) => CheckSession(s, id, bearer, body)
    case AuthAccount(u, body) => CheckAccount(s, id, u, body)
    case Stamp(u, change) => StampRecord(s, id, u, change)
    case RegistryWrite(u, record) => Put(s.(registry := Upsert(s.registry, u, record)), id, Done(Ok))
    case RegistryRemove(u, node) => Put(s.(registry := Remove(s.registry, u, node)), id, Done(Ok))
    case PeersRead(u) => Put(s, id, Done(Listed(Fetch(s.registry, u, SaturatingCutoff(s.clock)))))
    case Done(_) => s
  }

  function PruneSessions(sessions: map<string, SessionRecord>, now: nat): map<string, SessionRecord> {
    map t | t in sessions && sessions[t].expiresAt > now :: sessions[t]
  }

  function RunPruner(s: State): State {
    match s.pruner
    case Asleep => s.(pruner := RegistryNext(SaturatingCutoff(s.clock)))
    case RegistryNext(cutoff) => s.(registry := Prune(s.registry, cutoff), pruner := StampNext)
    case StampNext => s.(pruner := SessionsNext(s.clock))
    case SessionsNext(now) => s.(sessions := PruneSessions(s.sessions, now), pruner := Asleep)
  }

  function Blocking(s: State, u: string): State
    requires u in s.users
  {
    s.(users := s.users[u := s.users[u].(status := Blocked)])
  }

  function Step(s: State, e: Event): State
    requires Enabled(s, e)
  {
    match e
    case Tick(seconds) => s.(clock := s.clock + seconds)
    case Arrive(id, request, token) => Begin(s, id, request, token)
    case Section(id, token, passwordOk) => RunSection(s, id, token, passwordOk)
    case Block(u) => if u in s.users then Blocking(s, u) else s
    case PruneStep => RunPruner(s)
  }

  /** A run: a state before and after every event. */
  ghost predicate Run(states: seq<State>, events: seq<Event>) {
    && |states| == |events| + 1
    && states[0] == START
    && forall i :: 0 <= i < |events| ==> Enabled(states[i], events[i]) && states[i + 1] == Step(states[i], events[i])
  }
}

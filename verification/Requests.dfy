/**
 * Requests from arrival to reply, among any other requests: what each of them does and answers, in
 * terms of what it asked for and of what the maps hold at the moments its sections run.
 */
module Requests {
  import opened Collections
  import opened Registry
  import opened Server
  import opened ServerInvariant
  import opened ServerHistory
  import opened PruneRuns
  import opened SessionEnd

  // ----- the sections of one handler -----

  predicate Serves(e: Event, id: nat) {
    e.Section? && e.id == id
  }

  predicate Arrives(events: seq<Event>, a: nat, id: nat, request: Request, token: string) {
    a < |events| && events[a] == Arrive(id, request, token)
  }

  /** After step i the next section of this handler is step j. */
  ghost predicate NextAt(events: seq<Event>, i: nat, j: nat, id: nat) {
    i < j < |events| && Serves(events[j], id) && forall m :: i < m < j ==> !Serves(events[m], id)
  }

  lemma OthersPass(s: State, e: Event, id: nat)
    requires Enabled(s, e) && id in s.handlers && !Serves(e, id)
    ensures HandlerAt(Step(s, e), id) == HandlerAt(s, id)
  {
    match e
    case Section(who, token, passwordOk) => SectionMoves(s, who, token, passwordOk);
    case PruneStep => PrunerFields(s);
    case _ =>
  }

  lemma {:induction false} Waits(states: seq<State>, events: seq<Event>, i: nat, j: nat, id: nat)
    requires Run(states, events) && i <= j < |states| && id in states[i].handlers
    requires forall m :: i <= m < j ==> !Serves(events[m], id)
    ensures HandlerAt(states[j], id) == HandlerAt(states[i], id)
  {
    hide Run, Step, Enabled, Serves;
    if i == j {
    } else {
      LastStep(states, events, j);
      Waits(states, events, i, j - 1, id);
      OthersPass(states[j - 1], events[j - 1], id);
    }
  }

  lemma ServedBy(s: State, e: Event, id: nat)
    requires Enabled(s, e) && Serves(e, id)
    ensures id in s.handlers
    ensures HandlerAt(Step(s, e), id) == Some(NextHandler(s, s.handlers[id], e.token, e.passwordOk))
  {
    SectionNext(s, id, e.token, e.passwordOk);
  }

  /** A handler does nothing between its sections; a section takes it to the next place. */
  lemma Turn(states: seq<State>, events: seq<Event>, i: nat, j: nat, id: nat, h: Handler)
    requires Run(states, events) && NextAt(events, i, j, id) && HandlerAt(states[i + 1], id) == Some(h)
    ensures HandlerAt(states[j], id) == Some(h) && Enabled(states[j], events[j])
    ensures states[j + 1] == Step(states[j], events[j])
    ensures HandlerAt(states[j + 1], id) == Some(NextHandler(states[j], h, events[j].token, events[j].passwordOk))
  {
    LastStep(states, events, j + 1);
    Waits(states, events, i + 1, j, id);
    ServedBy(states[j], events[j], id);
  }

  /** How a handler starts. */
  lemma Starts(states: seq<State>, events: seq<Event>, a: nat, id: nat, request: Request, token: string)
    requires Run(states, events) && Arrives(events, a, id, request, token)
    ensures HandlerAt(states[a + 1], id) == Some(FirstHandler(request, token))
  {
    LastStep(states, events, a + 1);
  }

  lemma ReplyKept(s: State, e: Event, id: nat, reply: Reply)
    requires Enabled(s, e) && HandlerAt(s, id) == Some(Done(reply))
    ensures HandlerAt(Step(s, e), id) == Some(Done(reply))
  {
    if Serves(e, id) {
      ServedBy(s, e, id);
    } else {
      OthersPass(s, e, id);
    }
  }

  /** A reply is final. */
  lemma {:induction false} ReplyStands(states: seq<State>, events: seq<Event>, i: nat, j: nat, id: nat, reply: Reply)
    requires Run(states, events) && i <= j < |states| && HandlerAt(states[i], id) == Some(Done(reply))
    ensures HandlerAt(states[j], id) == Some(Done(reply))
  {
    hide *;
    if i == j {
    } else {
      LastStep(states, events, j);
      ReplyStands(states, events, i, j - 1, id, reply);
      ReplyKept(states[j - 1], events[j - 1], id, reply);
    }
  }

  // ----- POST /auth/signup -----

  predicate Complete(request: Request) {
    request.Signup? && request.username != "" && request.email != "" && request.password != ""
  }

  lemma IncompleteSignup(states: seq<State>, events: seq<Event>, a: nat, id: nat, request: Request, token: string)
    requires Run(states, events) && Arrives(events, a, id, request, token)
    requires request.Signup? && !Complete(request)
    ensures HandlerAt(states[a + 1], id) == Some(Done(BadRequest))
  {
    Starts(states, events, a, id, request, token);
  }

  /** The account that a signup asks for: Pending with the token it drew, unless signups need no approval. */
  function AskedFor(request: Request, token: string): UserAccount
    requires request.Signup?
  {
    UserAccount(request.username, request.email, request.hash, if request.autoApprove then Approved else Pending,
                if request.autoApprove then None else Some(token))
  }

  predicate Clashes(users: map<string, UserAccount>, username: string, email: string) {
    username in users || exists u :: u in users && users[u].email == email
  }

  /** A signup inserts exactly its account, unless the name or the address is taken when it looks. */
  lemma SignupInserts(states: seq<State>, events: seq<Event>, a: nat, i: nat, id: nat, request: Request, token: string)
    requires Run(states, events) && Arrives(events, a, id, request, token) && Complete(request)
    requires NextAt(events, a, i, id)
    ensures var users, asked := states[i].users, AskedFor(request, token);
      (states[i + 1].users, HandlerAt(states[i + 1], id)) ==
      if Clashes(users, request.username, request.email) then (users, Some(Done(Conflict)))
      else (users[request.username := asked],
            Some(if request.autoApprove then Done(Created) else SignupLink(token, request.username)))
  {
    Starts(states, events, a, id, request, token);
    Turn(states, events, a, i, id, FirstHandler(request, token));
    UsersStep(states[i], events[i]);
    hide Run, Step, Enabled, NextAt;
  }

  lemma SectionLinks(s: State, id: nat, token: string, passwordOk: bool)
    requires id in s.handlers
    ensures RunSection(s, id, token, passwordOk).verifyTokens ==
      match s.handlers[id]
      case SignupLink(t, u) => s.verifyTokens[t := u]
      case VerifyTake(t) => Redemption(s.verifyTokens, t).0
      case _ => s.verifyTokens
  {
    match s.handlers[id]
    case SignupUser(a) => assert InsertAccount(s, id, a).verifyTokens == s.verifyTokens;
    case VerifyApprove(t, u) => assert ApproveAccount(s, id, u).verifyTokens == s.verifyTokens;
    case LoginRead(u) => assert CheckLogin(s, id, u, token, passwordOk).verifyTokens == s.verifyTokens;
    case LoginInsert(u, t) => assert InsertSession(s, id, u, t).verifyTokens == s.verifyTokens;
    case AuthSession(bearer, body) => assert CheckSession(s, id, bearer, body).verifyTokens == s.verifyTokens;
    case AuthAccount(u, body) => assert CheckAccount(s, id, u, body).verifyTokens == s.verifyTokens;
    case Stamp(u, change) => assert StampRecord(s, id, u, change).verifyTokens == s.verifyTokens;
    case _ =>
  }

  /** A signup that has inserted a Pending account then sends the link for it, and answers. */
  lemma SignupLinks(states: seq<State>, events: seq<Event>, a: nat, i: nat, j: nat, id: nat, request: Request,
                    token: string)
    requires Run(states, events) && Arrives(events, a, id, request, token) && Complete(request)
    requires NextAt(events, a, i, id) && NextAt(events, i, j, id)
    requires !request.autoApprove && !Clashes(states[i].users, request.username, request.email)
    ensures states[j + 1].verifyTokens == states[j].verifyTokens[token := request.username]
    ensures HandlerAt(states[j + 1], id) == Some(Done(Created))
  {
    SignupInserts(states, events, a, i, id, request, token);
    Turn(states, events, i, j, id, SignupLink(token, request.username));
    SectionLinks(states[j], id, events[j].token, events[j].passwordOk);
  }

  // ----- GET /auth/verify/:token -----

  /** An unknown token is answered NotFound; a known one is used up in this very section. */
  lemma VerifyTakes(states: seq<State>, events: seq<Event>, a: nat, i: nat, id: nat, token: string, drawn: string)
    requires Run(states, events) && Arrives(events, a, id, Verify(token), drawn) && NextAt(events, a, i, id)
    ensures var links := states[i].verifyTokens;
      (states[i + 1].verifyTokens, HandlerAt(states[i + 1], id)) ==
      if token in links then (links - {token}, Some(VerifyApprove(token, links[token])))
      else (links, Some(Done(NotFound)))
  {
    Starts(states, events, a, id, Verify(token), drawn);
    Turn(states, events, a, i, id, VerifyTake(token));
    SectionLinks(states[i], id, events[i].token, events[i].passwordOk);
  }

  /** The account of the link is approved, unless an operator has blocked it: there is no third case. */
  lemma VerifyApproves(states: seq<State>, events: seq<Event>, a: nat, i: nat, j: nat, id: nat, token: string,
                       drawn: string)
    requires Run(states, events) && Arrives(events, a, id, Verify(token), drawn)
    requires NextAt(events, a, i, id) && NextAt(events, i, j, id) && token in states[i].verifyTokens
    ensures var u, users := states[i].verifyTokens[token], states[j].users;
      && u in users && users[u].status != Approved
      && (states[j + 1].users, HandlerAt(states[j + 1], id)) ==
         if users[u].status == Pending
         then (users[u := users[u].(status := Approved, verificationToken := None)], Some(Done(Ok)))
         else (users, Some(Done(BadRequest)))
  {
    var u := states[i].verifyTokens[token];
    VerifyTakes(states, events, a, i, id, token, drawn);
    Turn(states, events, i, j, id, VerifyApprove(token, u));
    Invariant(states, events, j);
    assert Holds(states[j], At(id), token, u);
    UsersStep(states[j], events[j]);
    hide Run, Step, Enabled, NextAt;
  }

  // ----- POST /auth/login -----

  /** A login is let on if and only if the account is Approved and the password is right. */
  lemma LoginJudged(states: seq<State>, events: seq<Event>, a: nat, i: nat, id: nat, u: string, drawn: string)
    requires Run(states, events) && Arrives(events, a, id, Login(u), drawn) && NextAt(events, a, i, id)
    ensures var users := states[i].users;
      HandlerAt(states[i + 1], id) == Some(
        if u !in users || !events[i].passwordOk then Done(Unauthorized)
        else if users[u].status != Approved then Done(Forbidden)
        else LoginInsert(u, events[i].token))
  {
    Starts(states, events, a, id, Login(u), drawn);
    Turn(states, events, a, i, id, LoginRead(u));
  }

  /** A login by an Approved user with the right password ends with a session of that user, for a day. */
  lemma LoginGranted(states: seq<State>, events: seq<Event>, a: nat, i: nat, j: nat, id: nat, u: string, drawn: string)
    requires Run(states, events) && Arrives(events, a, id, Login(u), drawn)
    requires NextAt(events, a, i, id) && NextAt(events, i, j, id)
    requires events[i].passwordOk && IsApproved(states[i], u)
    ensures var token := events[i].token;
      && HandlerAt(states[j + 1], id) == Some(Done(Granted(token)))
      && states[j + 1].sessions == states[j].sessions[token := SessionRecord(u, states[j].clock + SESSION_TTL_SECS)]
      && token !in states[j].sessions
  {
    LoginJudged(states, events, a, i, id, u, drawn);
    Turn(states, events, i, j, id, LoginInsert(u, events[i].token));
    LoginsStayApart(states, events, j);
    SectionSessions(states[j], id, events[j].token, events[j].passwordOk);
    hide Run, NextAt;
  }

  /** Once an operator has blocked an account it stays so, and no login of it that is judged later is let on. */
  lemma BlockedForGood(states: seq<State>, events: seq<Event>, b: nat, a: nat, i: nat, id: nat, u: string,
                       drawn: string)
    requires Run(states, events) && b < i && b < |events| && events[b] == Block(u) && u in states[b].users
    requires Arrives(events, a, id, Login(u), drawn) && NextAt(events, a, i, id)
    ensures u in states[i].users && states[i].users[u].status == Blocked
    ensures HandlerAt(states[i + 1], id) == Some(Done(if events[i].passwordOk then Forbidden else Unauthorized))
  {
    LastStep(states, events, b + 1);
    UsersStep(states[b], events[b]);
    StatusHistory(states, events, b + 1, i);
    LoginJudged(states, events, a, i, id, u, drawn);
    hide Run, NextAt, Step, Enabled;
  }

  // ----- POST and DELETE /register -----

  /** The session of this token is there and has not expired. */
  predicate Accepts(s: State, bearer: Option<string>) {
    bearer.Some? && bearer.value in s.sessions && s.clock <= s.sessions[bearer.value].expiresAt
  }

  lemma NoBearer(states: seq<State>, events: seq<Event>, a: nat, id: nat, body: Option<Change>, drawn: string)
    requires Run(states, events) && Arrives(events, a, id, ChangeRegistry(None, body), drawn)
    ensures HandlerAt(states[a + 1], id) == Some(Done(Unauthorized))
  {
    Starts(states, events, a, id, ChangeRegistry(None, body), drawn);
  }

  /** The first check: the bearer's session, to the last second. */
  lemma BearerJudged(states: seq<State>, events: seq<Event>, a: nat, i: nat, id: nat, bearer: string,
                     body: Option<Change>, drawn: string)
    requires Run(states, events) && Arrives(events, a, id, ChangeRegistry(Some(bearer), body), drawn)
    requires NextAt(events, a, i, id)
    ensures HandlerAt(states[i + 1], id) == Some(
      if Accepts(states[i], Some(bearer)) then AuthAccount(states[i].sessions[bearer].username, body)
      else Done(Unauthorized))
  {
    Starts(states, events, a, id, ChangeRegistry(Some(bearer), body), drawn);
    Turn(states, events, a, i, id, AuthSession(bearer, body));
  }

  /** The session's user is known by then; so the second check decides by status, body and name, in this order. */
  lemma AccountJudged(states: seq<State>, events: seq<Event>, a: nat, i: nat, j: nat, id: nat, bearer: string,
                      body: Option<Change>, drawn: string)
    requires Run(states, events) && Arrives(events, a, id, ChangeRegistry(Some(bearer), body), drawn)
    requires NextAt(events, a, i, id) && NextAt(events, i, j, id) && Accepts(states[i], Some(bearer))
    ensures var u := states[i].sessions[bearer].username;
      && u in states[j].users
      && HandlerAt(states[j + 1], id) == Some(
           if states[j].users[u].status != Approved then Done(Forbidden)
           else if body.None? then Done(BadRequest)
           else if body.value.username != u then Done(Forbidden)
           else match body.value
             case Enrol(_, _, _, _) => Stamp(u, body.value)
             case Withdraw(_, node) => RegistryRemove(u, node))
  {
    var u := states[i].sessions[bearer].username;
    BearerJudged(states, events, a, i, id, bearer, body, drawn);
    Turn(states, events, i, j, id, AuthAccount(u, body));
    Invariant(states, events, j);
    assert HandlerOk(states[j], states[j].handlers[id]);
    hide Run, NextAt, Step, Enabled;
  }

  /** The request passes both checks: its session at i, its account at j, and it is about its own user. */
  ghost predicate PassesChecks(states: seq<State>, i: nat, j: nat, bearer: string, body: Change) {
    && i < |states| && j < |states| && Accepts(states[i], Some(bearer))
    && states[i].sessions[bearer].username == body.username && IsApproved(states[j], body.username)
  }

  ghost function BookAt(s: State, u: string): map<string, PeerRecord> {
    BookOf(Book(s.registry), u)
  }

  lemma WriteTurn(states: seq<State>, events: seq<Event>, m: nat, k: nat, id: nat, u: string, r: PeerRecord)
    requires Run(states, events) && NextAt(events, m, k, id)
    requires HandlerAt(states[m + 1], id) == Some(RegistryWrite(u, r))
    ensures HandlerAt(states[k + 1], id) == Some(Done(Ok))
    ensures forall v ::
      BookAt(states[k + 1], v) == if v == u then BookAt(states[k], v)[r.nodeId := r] else BookAt(states[k], v)
  {
    Turn(states, events, m, k, id, RegistryWrite(u, r));
    RegistryStep(states[k], id, events[k].token, events[k].passwordOk);
    Invariant(states, events, k);
    hide Run, NextAt, RunSection;
    RegisterRefines(states[k].registry, u, r);
  }

  lemma RemoveTurn(states: seq<State>, events: seq<Event>, j: nat, k: nat, id: nat, u: string, n: string)
    requires Run(states, events) && NextAt(events, j, k, id)
    requires HandlerAt(states[j + 1], id) == Some(RegistryRemove(u, n))
    ensures HandlerAt(states[k + 1], id) == Some(Done(Ok))
    ensures forall v :: BookAt(states[k + 1], v) == BookAt(states[k], v) - if v == u then {n} else {}
  {
    Turn(states, events, j, k, id, RegistryRemove(u, n));
    RegistryStep(states[k], id, events[k].token, events[k].passwordOk);
    Invariant(states, events, k);
    hide Run, NextAt, RunSection;
    DeregisterRefines(states[k].registry, u, n);
  }

  /** A registration that passes its checks stores what it was sent, with the time read just before the write. */
  lemma EnrolStored(states: seq<State>, events: seq<Event>, a: nat, i: nat, j: nat, m: nat, k: nat, id: nat,
                    bearer: string, body: Change, drawn: string)
    requires Run(states, events) && Arrives(events, a, id, ChangeRegistry(Some(bearer), Some(body)), drawn)
    requires NextAt(events, a, i, id) && NextAt(events, i, j, id) && NextAt(events, j, m, id)
      && NextAt(events, m, k, id)
    requires PassesChecks(states, i, j, bearer, body) && body.Enrol?
    ensures HandlerAt(states[k + 1], id) == Some(Done(Ok))
    ensures forall v :: BookAt(states[k + 1], v) == if v != body.username then BookAt(states[k], v)
      else BookAt(states[k], v)[body.nodeId := PeerRecord(body.nodeId, body.addrs, body.relayUrl, states[m].clock)]
  {
    var record := PeerRecord(body.nodeId, body.addrs, body.relayUrl, states[m].clock);
    AccountJudged(states, events, a, i, j, id, bearer, Some(body), drawn);
    Turn(states, events, j, m, id, Stamp(body.username, body));
    hide NextAt, PassesChecks, BookAt;
    WriteTurn(states, events, m, k, id, body.username, record);
  }

  /** A withdrawal that passes its checks takes its own user's device off the list, and nothing else. */
  lemma WithdrawTakesOff(states: seq<State>, events: seq<Event>, a: nat, i: nat, j: nat, k: nat, id: nat,
                         bearer: string, body: Change, drawn: string)
    requires Run(states, events) && Arrives(events, a, id, ChangeRegistry(Some(bearer), Some(body)), drawn)
    requires NextAt(events, a, i, id) && NextAt(events, i, j, id) && NextAt(events, j, k, id)
    requires PassesChecks(states, i, j, bearer, body) && body.Withdraw?
    ensures HandlerAt(states[k + 1], id) == Some(Done(Ok))
    ensures forall v :: BookAt(states[k + 1], v) == BookAt(states[k], v) - if v == body.username then {body.nodeId}
      else {}
  {
    AccountJudged(states, events, a, i, j, id, bearer, Some(body), drawn);
    hide NextAt, PassesChecks, BookAt;
    RemoveTurn(states, events, j, k, id, body.username, body.nodeId);
  }

  // ----- GET /peers -----

  /** The answer has exactly the user's records of the last 300 seconds, one for each device. */
  lemma PeersAnswered(states: seq<State>, events: seq<Event>, a: nat, i: nat, id: nat, u: string, drawn: string)
      returns (peers: Peers)
    requires Run(states, events) && Arrives(events, a, id, ListPeers(u), drawn) && NextAt(events, a, i, id)
    ensures HandlerAt(states[i + 1], id) == Some(Done(Listed(peers)))
    ensures Distinct(peers)
    ensures forall p :: p in peers <==> p in Of(states[i].registry, u) && states[i].clock <= p.lastSeen + PEER_TTL_SECS
  {
    Starts(states, events, a, id, ListPeers(u), drawn);
    Turn(states, events, a, i, id, PeersRead(u));
    peers := Fetch(states[i].registry, u, SaturatingCutoff(states[i].clock));
    Invariant(states, events, i);
    RetainedDistinct(Of(states[i].registry, u), SeenSince(SaturatingCutoff(states[i].clock)));
    hide Run, NextAt, Step, Enabled;
  }
}

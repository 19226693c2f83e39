/**
 * What holds in every reachable state of the server, whatever the interleaving.
 */
module ServerInvariant {
  import opened Collections
  import opened Registry
  import opened Server

  // ----- accounts only move forward -----

  function Rank(status: AccountStatus): nat {
    match status
    case Pending => 0
    case Approved => 1
    case Blocked => 2
  }

  /** A later state of the same account: its status has not moved back and its token, if any, is the same. */
  predicate SameButLater(a: UserAccount, b: UserAccount) {
    && Rank(a.status) <= Rank(b.status)
    && b.username == a.username
    && b.email == a.email
    && (b.verificationToken.Some? ==> b.verificationToken == a.verificationToken)
  }

  /** Accounts are never deleted or renamed, and a status never moves back. */
  ghost predicate Later(s: State, t: State) {
    && s.clock <= t.clock
    && s.issued <= t.issued
    && forall u :: u in s.users ==> u in t.users && SameButLater(s.users[u], t.users[u])
  }

  ghost predicate Admitted(s: State, u: string) {
    u in s.users && s.users[u].status != Pending
  }

  // ----- accounts -----

  ghost predicate AccountsOk(s: State) {
    && (forall u :: u in s.users ==> s.users[u].username == u && u != "")
    && (forall u, v :: u in s.users && v in s.users && s.users[u].email == s.users[v].email ==> u == v)
  }

  // ----- handlers -----

  ghost predicate HandlerOk(s: State, h: Handler) {
    match h
    case SignupUser(a) =>
      && a.username != "" && a.status != Blocked
      && (a.status == Pending <==> a.verificationToken.Some?)
      && (a.verificationToken.Some? ==> a.verificationToken.value in s.issued)
    case LoginInsert(u, _) => Admitted(s, u)
    case AuthAccount(u, _) => Admitted(s, u)
    case Stamp(u, _) => Admitted(s, u)
    case RegistryWrite(u, record) => Admitted(s, u) && record.lastSeen <= s.clock
    case RegistryRemove(u, _) => Admitted(s, u)
    case Done(reply) => reply.Listed? ==> Distinct(reply.peers)
    case _ => true
  }

  ghost predicate HandlersOk(s: State) {
    forall id :: id in s.handlers ==> HandlerOk(s, s.handlers[id])
  }

  // ----- sessions, registry, pruner -----

  /** A session outlives no approval: its user exists and has been approved at some time. */
  ghost predicate SessionsOk(s: State) {
    forall t :: t in s.sessions ==>
      Admitted(s, s.sessions[t].username) && s.sessions[t].expiresAt <= s.clock + SESSION_TTL_SECS
  }

  ghost predicate StampsOk(s: State) {
    forall u, p :: u in s.registry && p in s.registry[u] ==> p.lastSeen <= s.clock
  }

  ghost predicate RegistryOk(s: State) {
    && WellFormed(s.registry)
    && (forall u :: u in s.registry ==> Admitted(s, u))
    && StampsOk(s)
  }

  predicate PrunerOk(s: State) {
    match s.pruner
    case RegistryNext(cutoff) => cutoff <= SaturatingCutoff(s.clock)
    case SessionsNext(now) => now <= s.clock
    case _ => true
  }

  // ----- verification tokens -----

  /** Where a verification token can be: in the map, or carried by one handler. */
  datatype Place = Link | At(id: nat)

  ghost predicate Holds(s: State, p: Place, token: string, u: string) {
    match p
    case Link => token in s.verifyTokens && s.verifyTokens[token] == u
    case At(id) =>
      id in s.handlers && (s.handlers[id] == SignupLink(token, u) || s.handlers[id] == VerifyApprove(token, u))
  }

  /** A token that is somewhere is the token its account was created with, and that account is not approved. */
  ghost predicate TokensMatch(s: State) {
    forall p, token, u :: Holds(s, p, token, u) ==>
      u in s.users && s.users[u].verificationToken == Some(token) && s.users[u].status != Approved
  }

  ghost predicate TokensUnique(s: State) {
    forall p, q, token, u, v :: Holds(s, p, token, u) && Holds(s, q, token, v) ==> p == q
  }

  ghost predicate TokensConserved(s: State) {
    forall u :: u in s.users && s.users[u].status == Pending ==>
      && s.users[u].verificationToken.Some?
      && exists p :: Holds(s, p, s.users[u].verificationToken.value, u)
  }

  ghost predicate Drafts(s: State, id: nat, token: string) {
    id in s.handlers && s.handlers[id].SignupUser? && s.handlers[id].account.verificationToken == Some(token)
  }

  predicate SameToken(a: UserAccount, b: UserAccount) {
    a.verificationToken.Some? && a.verificationToken == b.verificationToken
  }

  /** Accounts, inserted or about to be, have tokens of their own. */
  ghost predicate TokensPersonal(s: State) {
    && (forall u ::
          u in s.users && s.users[u].verificationToken.Some? ==> s.users[u].verificationToken.value in s.issued)
    && (forall u, v :: u in s.users && v in s.users && SameToken(s.users[u], s.users[v]) ==> u == v)
    && (forall id, u, token :: Drafts(s, id, token) && u in s.users ==> s.users[u].verificationToken != Some(token))
    && (forall id, other, token :: Drafts(s, id, token) && Drafts(s, other, token) ==> id == other)
  }

  ghost predicate TokensOk(s: State) {
    TokensMatch(s) && TokensUnique(s) && TokensConserved(s) && TokensPersonal(s)
  }

  ghost predicate PlainOk(s: State) {
    && AccountsOk(s)
    && HandlersOk(s)
    && SessionsOk(s)
    && RegistryOk(s)
    && PrunerOk(s)
  }

  ghost predicate Inv(s: State) {
    PlainOk(s) && TokensOk(s)
  }

  // ----- steps that only move one handler -----

  predicate CarriesToken(h: Handler) {
    h.SignupLink? || h.VerifyApprove?
  }

  /** A handler that neither had nor gets a verification token to carry may move to any sound place. */
  lemma PutKeeps(s: State, id: nat, h: Handler)
    requires Inv(s) && HandlerOk(s, h)
    requires !CarriesToken(h) && !h.SignupUser?
    requires id in s.handlers ==> !CarriesToken(s.handlers[id])
    ensures Inv(Put(s, id, h))
  {
    var t := Put(s, id, h);
    assert forall p, token, u :: Holds(t, p, token, u) <==> Holds(s, p, token, u);
    assert forall k, token :: Drafts(t, k, token) ==> Drafts(s, k, token);
  }

  // ----- steps that leave users, links and handlers alone -----

  /** Token bookkeeping reads only the accounts, the links and the handlers. */
  lemma TokensFrame(s: State, t: State)
    requires TokensOk(s)
    requires t.users == s.users && t.verifyTokens == s.verifyTokens && t.handlers == s.handlers && s.issued <= t.issued
    ensures TokensOk(t)
  {
    assert forall p, token, u :: Holds(t, p, token, u) <==> Holds(s, p, token, u);
    assert forall k, token :: Drafts(t, k, token) <==> Drafts(s, k, token);
  }

  /** Time passes, tokens are drawn. */
  lemma LaterKeeps(s: State, seconds: nat, drawn: set<string>)
    requires Inv(s)
    ensures Inv(s.(clock := s.clock + seconds, issued := s.issued + drawn))
  {
    TokensFrame(s, s.(clock := s.clock + seconds, issued := s.issued + drawn));
  }

  lemma SessionsKeep(s: State, sessions: map<string, SessionRecord>, pruner: Pruner)
    requires Inv(s)
    requires SessionsOk(s.(sessions := sessions)) && PrunerOk(s.(pruner := pruner))
    ensures Inv(s.(sessions := sessions, pruner := pruner))
  {
    TokensFrame(s, s.(sessions := sessions, pruner := pruner));
  }

  lemma SessionAddKeeps(s: State, u: string, token: string)
    requires Inv(s) && Admitted(s, u)
    ensures Inv(SessionAdded(s, u, token))
  {
    TokensFrame(s, SessionAdded(s, u, token));
    assert SessionsOk(SessionAdded(s, u, token));
  }

  lemma RegistryKeeps(s: State, registry: Registry, pruner: Pruner)
    requires Inv(s)
    requires RegistryOk(s.(registry := registry)) && PrunerOk(s.(pruner := pruner))
    ensures Inv(s.(registry := registry, pruner := pruner))
  {
    TokensFrame(s, s.(registry := registry, pruner := pruner));
  }

  lemma UpsertOk(s: State, u: string, record: PeerRecord)
    requires RegistryOk(s) && Admitted(s, u) && record.lastSeen <= s.clock
    ensures RegistryOk(s.(registry := Upsert(s.registry, u, record)))
  {
    UpsertedRecords(Of(s.registry, u), record);
  }

  lemma RemoveOk(s: State, u: string, node: string)
    requires RegistryOk(s)
    ensures RegistryOk(s.(registry := Remove(s.registry, u, node)))
  {
    RetainedDistinct(Of(s.registry, u), NotNode(node));
  }

  lemma PruneOk(s: State, cutoff: nat)
    requires RegistryOk(s)
    ensures RegistryOk(s.(registry := Prune(s.registry, cutoff)))
  {
    PruneRefines(s.registry, cutoff);
  }

  lemma PrunerKeeps(s: State)
    requires Inv(s)
    ensures Inv(RunPruner(s))
  {
    match s.pruner
    case Asleep => SessionsKeep(s, s.sessions, RegistryNext(SaturatingCutoff(s.clock)));
    case RegistryNext(cutoff) =>
      PruneOk(s, cutoff);
      RegistryKeeps(s, Prune(s.registry, cutoff), StampNext);
    case StampNext => SessionsKeep(s, s.sessions, SessionsNext(s.clock));
    case SessionsNext(now) => SessionsKeep(s, PruneSessions(s.sessions, now), Asleep);
  }

  // ----- sections of signup, verify and the operator -----

  function Drawn(a: UserAccount): set<string> {
    if a.verificationToken.Some? then {a.verificationToken.value} else {}
  }

  function Drafted(s: State, id: nat, a: UserAccount): State {
    Put(s.(issued := s.issued + Drawn(a)), id, SignupUser(a))
  }

  lemma DraftTokens(s: State, id: nat, a: UserAccount)
    requires TokensOk(s) && HandlersOk(s) && id !in s.handlers
    requires Drawn(a) !! s.issued
    ensures TokensOk(Drafted(s, id, a))
  {
    var t := Drafted(s, id, a);
    assert forall p, token, u :: Holds(t, p, token, u) <==> Holds(s, p, token, u);
    assert forall k, token ::
      Drafts(t, k, token) ==> Drafts(s, k, token) || (k == id && a.verificationToken == Some(token));
    assert forall k, token :: Drafts(s, k, token) ==> HandlerOk(s, s.handlers[k]) && token in s.issued;
  }

  lemma DraftKeeps(s: State, id: nat, a: UserAccount)
    requires Inv(s) && id !in s.handlers
    requires HandlerOk(Drafted(s, id, a), SignupUser(a))
    requires Drawn(a) !! s.issued
    ensures Inv(Drafted(s, id, a))
  {
    DraftTokens(s, id, a);
    PlainFrame(s, Drafted(s, id, a));
  }

  /** Accounts change, other things stay: what does not concern tokens follows from moving forward. */
  lemma PlainFrame(s: State, t: State)
    requires PlainOk(s)
    requires Later(s, t) && AccountsOk(t)
    requires t.registry == s.registry && t.sessions == s.sessions && t.pruner == s.pruner && t.clock == s.clock
    requires forall k ::
      k in t.handlers ==> (k in s.handlers && t.handlers[k] == s.handlers[k]) || HandlerOk(t, t.handlers[k])
    ensures PlainOk(t)
  {
    forall k | k in t.handlers
      ensures HandlerOk(t, t.handlers[k])
    {
    }
  }

  /** The token book of `t` is that of `s` with one holding moved, added (`from` is None) or spent (`to` is None). */
  ghost predicate Moved(s: State, t: State, token: string, u: string, from: Option<Place>, to: Option<Place>) {
    && (from.Some? ==> Holds(s, from.value, token, u))
    && (forall p, k, v :: Holds(t, p, k, v) <==>
          (to == Some(p) && k == token && v == u) || (Holds(s, p, k, v) && !(from == Some(p) && k == token)))
    && (forall id, k :: Drafts(t, id, k) ==> Drafts(s, id, k))
    && s.issued == t.issued
  }

  lemma MovingKeeps(s: State, t: State, token: string, u: string, from: Place, to: Place)
    requires TokensOk(s) && t.users == s.users
    requires Moved(s, t, token, u, Some(from), Some(to))
    ensures TokensOk(t)
  {
    assert Holds(t, to, token, u);
  }

  lemma SpendingConserves(s: State, t: State, token: string, u: string, from: Place)
    requires TokensMatch(s) && TokensConserved(s) && TokensPersonal(s)
    requires u in s.users && u in t.users && t.users == s.users[u := t.users[u]] && t.users[u].status != Pending
    requires Moved(s, t, token, u, Some(from), None)
    ensures TokensConserved(t)
  {
    forall v | v in t.users && t.users[v].status == Pending
      ensures t.users[v].verificationToken.Some? && exists p :: Holds(t, p, t.users[v].verificationToken.value, v)
    {
      var p :| Holds(s, p, s.users[v].verificationToken.value, v);
      assert Holds(s, from, token, u);
      assert Holds(t, p, s.users[v].verificationToken.value, v);
    }
  }

  lemma SpendingKeeps(s: State, t: State, token: string, u: string, from: Place)
    requires TokensOk(s) && u in s.users && Later(s, t)
    requires t.users == s.users[u := t.users[u]] && t.users[u].status != Pending
    requires Moved(s, t, token, u, Some(from), None)
    ensures TokensOk(t)
  {
    SpendingConserves(s, t, token, u, from);
  }

  lemma AdmittingKeeps(s: State, t: State, id: nat, a: UserAccount)
    requires TokensOk(s) && a.username !in s.users
    requires t.users == s.users[a.username := a]
    requires a.status == Pending <==> a.verificationToken.Some?
    requires a.status != Blocked
    requires a.verificationToken.Some? ==>
      Drafts(s, id, a.verificationToken.value) && a.verificationToken.value in s.issued
      && Moved(s, t, a.verificationToken.value, a.username, None, Some(At(id)))
    requires a.verificationToken.None? ==> exists k, v :: Moved(s, t, k, v, None, None)
    requires forall k :: !Drafts(t, id, k)
    ensures TokensOk(t)
  {
    if a.verificationToken.Some? {
      assert Holds(t, At(id), a.verificationToken.value, a.username);
      forall p, k, v | Holds(s, p, k, v)
        ensures k != a.verificationToken.value
      {
        assert s.users[v].verificationToken == Some(k);
      }
    }
  }

  lemma AdmitMoves(s: State, id: nat, a: UserAccount)
    requires id in s.handlers && s.handlers[id] == SignupUser(a)
    requires a.username !in s.users && !EmailTaken(s.users, a.email)
    ensures a.verificationToken.Some? ==>
      Moved(s, InsertAccount(s, id, a), a.verificationToken.value, a.username, None, Some(At(id)))
    ensures a.verificationToken.None? ==> Moved(s, InsertAccount(s, id, a), "", "", None, None)
    ensures forall k :: !Drafts(InsertAccount(s, id, a), id, k)
  {
  }

  lemma AdmitKeeps(s: State, id: nat, a: UserAccount)
    requires Inv(s) && id in s.handlers && s.handlers[id] == SignupUser(a)
    requires a.username !in s.users && !EmailTaken(s.users, a.email)
    ensures Inv(InsertAccount(s, id, a))
  {
    var t := InsertAccount(s, id, a);
    assert HandlerOk(s, s.handlers[id]);
    assert a.verificationToken.Some? ==> Drafts(s, id, a.verificationToken.value);
    AdmitMoves(s, id, a);
    AdmittingKeeps(s, t, id, a);
    PlainFrame(s, t);
  }

  lemma LinkMoves(s: State, id: nat, token: string, u: string)
    requires id in s.handlers && s.handlers[id] == SignupLink(token, u)
    requires TokensUnique(s)
    ensures Moved(s, Linked(s, id, token, u), token, u, Some(At(id)), Some(Link))
  {
    assert Holds(s, At(id), token, u);
    assert forall v :: !Holds(s, Link, token, v);
  }

  /** The token moves from its signup to the map. */
  lemma LinkKeeps(s: State, id: nat, token: string, u: string)
    requires Inv(s) && id in s.handlers && s.handlers[id] == SignupLink(token, u)
    ensures Inv(Linked(s, id, token, u))
  {
    LinkMoves(s, id, token, u);
    MovingKeeps(s, Linked(s, id, token, u), token, u, At(id), Link);
    PlainFrame(s, Linked(s, id, token, u));
  }

  lemma TakeMoves(s: State, id: nat, token: string)
    requires id in s.handlers && s.handlers[id] == VerifyTake(token)
    requires token in s.verifyTokens
    ensures Moved(s, TakeLink(s, id, token), token, s.verifyTokens[token], Some(Link), Some(At(id)))
  {
  }

  /** The token moves from the map to the one verify that removed it. */
  lemma TakeKeeps(s: State, id: nat, token: string)
    requires Inv(s) && id in s.handlers && s.handlers[id] == VerifyTake(token)
    requires token in s.verifyTokens
    ensures Inv(TakeLink(s, id, token))
  {
    TakeMoves(s, id, token);
    MovingKeeps(s, TakeLink(s, id, token), token, s.verifyTokens[token], Link, At(id));
    PlainFrame(s, TakeLink(s, id, token));
  }

  /** A handler that carried a token is done with it, whatever happened to the accounts. */
  lemma FinishMoves(s: State, users: map<string, UserAccount>, id: nat, reply: Reply, token: string, u: string)
    requires id in s.handlers && s.handlers[id] == VerifyApprove(token, u)
    ensures Moved(s, Put(s.(users := users), id, Done(reply)), token, u, Some(At(id)), None)
  {
    var t := Put(s.(users := users), id, Done(reply));
    assert Holds(s, At(id), token, u);
    assert forall k, v :: !Holds(t, At(id), k, v);
  }

  lemma ApprovingKeeps(s: State, id: nat, token: string, u: string)
    requires Inv(s) && id in s.handlers && s.handlers[id] == VerifyApprove(token, u)
    requires u in s.users && s.users[u].status == Pending
    ensures Inv(Put(s.(users := ApprovedUsers(s.users, u)), id, Done(Ok)))
  {
    var t := Put(s.(users := ApprovedUsers(s.users, u)), id, Done(Ok));
    FinishMoves(s, ApprovedUsers(s.users, u), id, Ok, token, u);
    assert AccountsOk(t) && Later(s, t);
    SpendingKeeps(s, t, token, u, At(id));
    PlainFrame(s, t);
  }

  lemma RefusingKeeps(s: State, id: nat, token: string, u: string)
    requires Inv(s) && id in s.handlers && s.handlers[id] == VerifyApprove(token, u)
    requires u in s.users && s.users[u].status != Pending
    ensures Inv(Put(s, id, Done(BadRequest)))
  {
    FinishMoves(s, s.users, id, BadRequest, token, u);
    SpendingKeeps(s, Put(s, id, Done(BadRequest)), token, u, At(id));
    PlainFrame(s, Put(s, id, Done(BadRequest)));
  }

  /** The token is used up: its account is approved, or was blocked meanwhile. */
  lemma ApproveKeeps(s: State, id: nat, token: string, u: string)
    requires Inv(s) && id in s.handlers && s.handlers[id] == VerifyApprove(token, u)
    ensures Inv(ApproveAccount(s, id, u))
  {
    assert Holds(s, At(id), token, u);
    if s.users[u].status == Pending {
      ApprovingKeeps(s, id, token, u);
    } else {
      RefusingKeeps(s, id, token, u);
    }
  }

  lemma BlockTokens(s: State, u: string)
    requires TokensOk(s) && u in s.users
    ensures TokensOk(Blocking(s, u))
  {
    var t := Blocking(s, u);
    assert forall p, token, u :: Holds(t, p, token, u) <==> Holds(s, p, token, u);
    assert forall k, token :: Drafts(t, k, token) <==> Drafts(s, k, token);
  }

  lemma BlockKeeps(s: State, u: string)
    requires Inv(s) && u in s.users
    ensures Inv(Blocking(s, u))
  {
    BlockTokens(s, u);
    PlainFrame(s, Blocking(s, u));
  }

  // ----- the other sections -----

  lemma LoginPassesKeeps(s: State, id: nat, u: string, token: string)
    requires Inv(s) && id in s.handlers && s.handlers[id] == LoginRead(u)
    requires Admitted(s, u)
    ensures Inv(Put(s.(issued := s.issued + {token}), id, LoginInsert(u, token)))
  {
    LaterKeeps(s, 0, {token});
    PutKeeps(s.(issued := s.issued + {token}), id, LoginInsert(u, token));
  }

  lemma LoginReadKeeps(s: State, id: nat, u: string, token: string, passwordOk: bool)
    requires Inv(s) && id in s.handlers && s.handlers[id] == LoginRead(u)
    ensures Inv(CheckLogin(s, id, u, token, passwordOk))
  {
    if u !in s.users || !passwordOk {
      PutKeeps(s, id, Done(Unauthorized));
    } else if s.users[u].status != Approved {
      PutKeeps(s, id, Done(Forbidden));
    } else {
      LoginPassesKeeps(s, id, u, token);
    }
  }

  /** Even when a block lands between the status check and this insertion, the account is not Pending. */
  lemma LoginInsertKeeps(s: State, id: nat, u: string, token: string)
    requires Inv(s) && id in s.handlers && s.handlers[id] == LoginInsert(u, token)
    ensures Inv(InsertSession(s, id, u, token))
  {
    assert HandlerOk(s, s.handlers[id]);
    SessionAddKeeps(s, u, token);
    PutKeeps(SessionAdded(s, u, token), id, Done(Granted(token)));
  }

  lemma AuthSessionKeeps(s: State, id: nat, bearer: string, body: Option<Change>)
    requires Inv(s) && id in s.handlers && s.handlers[id] == AuthSession(bearer, body)
    ensures Inv(CheckSession(s, id, bearer, body))
  {
    if bearer !in s.sessions || s.sessions[bearer].expiresAt < s.clock {
      PutKeeps(s, id, Done(Unauthorized));
    } else {
      PutKeeps(s, id, AuthAccount(s.sessions[bearer].username, body));
    }
  }

  lemma AuthAccountKeeps(s: State, id: nat, u: string, body: Option<Change>)
    requires Inv(s) && id in s.handlers && s.handlers[id] == AuthAccount(u, body)
    ensures Inv(CheckAccount(s, id, u, body))
  {
    PutKeeps(s, id, CheckAccount(s, id, u, body).handlers[id]);
  }

  lemma StampKeeps(s: State, id: nat, u: string, change: Change)
    requires Inv(s) && id in s.handlers && s.handlers[id] == Stamp(u, change)
    ensures Inv(StampRecord(s, id, u, change))
  {
    assert HandlerOk(s, s.handlers[id]);
    PutKeeps(s, id, StampRecord(s, id, u, change).handlers[id]);
  }

  lemma WriteKeeps(s: State, id: nat, u: string, record: PeerRecord)
    requires Inv(s) && id in s.handlers && s.handlers[id] == RegistryWrite(u, record)
    ensures Inv(Put(s.(registry := Upsert(s.registry, u, record)), id, Done(Ok)))
  {
    assert HandlerOk(s, s.handlers[id]);
    UpsertOk(s, u, record);
    RegistryKeeps(s, Upsert(s.registry, u, record), s.pruner);
    PutKeeps(s.(registry := Upsert(s.registry, u, record)), id, Done(Ok));
  }

  lemma WithdrawKeeps(s: State, id: nat, u: string, node: string)
    requires Inv(s) && id in s.handlers && s.handlers[id] == RegistryRemove(u, node)
    ensures Inv(Put(s.(registry := Remove(s.registry, u, node)), id, Done(Ok)))
  {
    RemoveOk(s, u, node);
    RegistryKeeps(s, Remove(s.registry, u, node), s.pruner);
    PutKeeps(s.(registry := Remove(s.registry, u, node)), id, Done(Ok));
  }

  lemma PeersKeeps(s: State, id: nat, u: string)
    requires Inv(s) && id in s.handlers && s.handlers[id] == PeersRead(u)
    ensures Inv(Put(s, id, Done(Listed(Fetch(s.registry, u, SaturatingCutoff(s.clock))))))
  {
    RetainedDistinct(Of(s.registry, u), SeenSince(SaturatingCutoff(s.clock)));
    PutKeeps(s, id, Done(Listed(Fetch(s.registry, u, SaturatingCutoff(s.clock)))));
  }

  lemma BeginKeeps(s: State, id: nat, request: Request, token: string)
    requires Inv(s) && id !in s.handlers && token !in s.issued
    ensures Inv(Begin(s, id, request, token))
  {
    match request
    case Signup(username, email, password, hash, autoApprove) =>
      if username == "" || email == "" || password == "" {
        PutKeeps(s, id, Done(BadRequest));
      } else if autoApprove {
        var a := UserAccount(username, email, hash, Approved, None);
        assert s.issued + Drawn(a) == s.issued;
        DraftKeeps(s, id, a);
      } else {
        DraftKeeps(s, id, UserAccount(username, email, hash, Pending, Some(token)));
      }
    case _ => PutKeeps(s, id, Begin(s, id, request, token).handlers[id]);
  }

  // ----- the invariant -----

  lemma SignupSectionKeeps(s: State, id: nat, a: UserAccount)
    requires Inv(s) && id in s.handlers && s.handlers[id] == SignupUser(a)
    ensures Inv(InsertAccount(s, id, a))
  {
    if a.username in s.users || EmailTaken(s.users, a.email) {
      PutKeeps(s, id, Done(Conflict));
    } else {
      AdmitKeeps(s, id, a);
    }
  }

  lemma TakeSectionKeeps(s: State, id: nat, token: string)
    requires Inv(s) && id in s.handlers && s.handlers[id] == VerifyTake(token)
    ensures Inv(TakeLink(s, id, token))
  {
    if token in s.verifyTokens {
      TakeKeeps(s, id, token);
    } else {
      PutKeeps(s, id, Done(NotFound));
    }
  }

  lemma SectionKeeps(s: State, id: nat, token: string, passwordOk: bool)
    requires Inv(s) && id in s.handlers && token !in s.issued
    ensures Inv(RunSection(s, id, token, passwordOk))
  {
    hide Inv;
    match s.handlers[id]
    case SignupUser(a) => SignupSectionKeeps(s, id, a);
    case SignupLink(t, u) => LinkKeeps(s, id, t, u);
    case VerifyTake(t) => TakeSectionKeeps(s, id, t);
    case VerifyApprove(t, u) => ApproveKeeps(s, id, t, u);
    case LoginRead(u) => LoginReadKeeps(s, id, u, token, passwordOk);
    case LoginInsert(u, t) => LoginInsertKeeps(s, id, u, t);
    case AuthSession(bearer, body) => AuthSessionKeeps(s, id, bearer, body);
    case AuthAccount(u, body) => AuthAccountKeeps(s, id, u, body);
    case Stamp(u, change) => StampKeeps(s, id, u, change);
    case RegistryWrite(u, record) => WriteKeeps(s, id, u, record);
    case RegistryRemove(u, node) => WithdrawKeeps(s, id, u, node);
    case PeersRead(u) => PeersKeeps(s, id, u);
    case Done(_) =>
  }

  lemma StepKeeps(s: State, e: Event)
    requires Inv(s) && Enabled(s, e)
    ensures Inv(Step(s, e))
  {
    hide Inv, Begin, RunSection, RunPruner;
    match e
    case Tick(seconds) =>
      assert s.issued + {} == s.issued;
      LaterKeeps(s, seconds, {});
    case Arrive(id, request, token) => BeginKeeps(s, id, request, token);
    case Section(id, token, passwordOk) => SectionKeeps(s, id, token, passwordOk);
    case Block(u) => if u in s.users { BlockKeeps(s, u); }
    case PruneStep => PrunerKeeps(s);
  }

  /** The invariant holds in every state of every run. */
  lemma {:induction false} Invariant(states: seq<State>, events: seq<Event>, k: nat)
    requires Run(states, events) && k < |states|
    ensures Inv(states[k])
  {
    if k == 0 {
    } else {
      Invariant(states, events, k - 1);
      StepKeeps(states[k - 1], events[k - 1]);
    }
  }
}

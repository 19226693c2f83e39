/**
 * Where the contents of the server's maps come from: every account, approval, session and record
 * leads back to the request that asked for it.
 */
module Provenance {
  import opened Collections
  import opened Registry
  import opened Server
  import opened ServerInvariant
  import opened ServerHistory
  import opened PruneRuns
  import opened SessionEnd
  import opened Requests

  // ----- the request behind a handler -----

  /** What a handler of this request, which came with this token, can be about to do. */
  predicate Serving(request: Request, token: string, h: Handler) {
    match h
    case SignupUser(a) => Complete(request) && a == AskedFor(request, token)
    case SignupLink(t, u) => Complete(request) && !request.autoApprove && t == token && u == request.username
    case VerifyTake(t) => request == Verify(t)
    case VerifyApprove(t, _) => request == Verify(t)
    case LoginRead(u) => request == Login(u)
    case LoginInsert(u, _) => request == Login(u)
    case AuthSession(bearer, body) => request == ChangeRegistry(Some(bearer), body)
    case AuthAccount(_, body) => request.ChangeRegistry? && request.body == body
    case Stamp(u, change) => request.ChangeRegistry? && request.body == Some(change) && change.Enrol?
      && change.username == u
    case RegistryWrite(u, r) =>
      request.ChangeRegistry? && request.body == Some(Enrol(u, r.nodeId, r.addrs, r.relayUrl))
    case RegistryRemove(u, node) => request.ChangeRegistry? && request.body == Some(Withdraw(u, node))
    case PeersRead(u) => request == ListPeers(u)
    case Done(_) => true
  }

  ghost predicate ServingAt(s: State, id: nat, request: Request, token: string) {
    HandlerAt(s, id).Some? && Serving(request, token, HandlerAt(s, id).value)
  }

  lemma ServingNext(s: State, h: Handler, drawn: string, passwordOk: bool, request: Request, token: string)
    requires Serving(request, token, h)
    ensures Serving(request, token, NextHandler(s, h, drawn, passwordOk))
  {
  }

  lemma ServingKept(s: State, e: Event, id: nat, request: Request, token: string)
    requires Enabled(s, e) && ServingAt(s, id, request, token)
    ensures ServingAt(Step(s, e), id, request, token)
  {
    hide Serving, NextHandler, Step, Enabled;
    if Serves(e, id) {
      ServedBy(s, e, id);
      ServingNext(s, s.handlers[id], e.token, e.passwordOk, request, token);
    } else {
      OthersPass(s, e, id);
    }
  }

  lemma ServesAtFirst(states: seq<State>, events: seq<Event>, a: nat, id: nat, request: Request, token: string)
    requires Run(states, events) && Arrives(events, a, id, request, token)
    ensures ServingAt(states[a + 1], id, request, token)
  {
    Starts(states, events, a, id, request, token);
    hide Run, HandlerAt;
  }

  /** From its arrival on a handler serves its request. */
  lemma {:induction false} ServesItsRequest(states: seq<State>, events: seq<Event>, a: nat, k: nat, id: nat,
      request: Request, token: string)
    requires Run(states, events) && Arrives(events, a, id, request, token) && a < k < |states|
    ensures ServingAt(states[k], id, request, token)
  {
    hide *;
    if k == a + 1 {
      ServesAtFirst(states, events, a, id, request, token);
    } else {
      LastStep(states, events, k);
      ServesItsRequest(states, events, a, k - 1, id, request, token);
      ServingKept(states[k - 1], events[k - 1], id, request, token);
    }
  }

  lemma HandlerArises(s: State, e: Event, id: nat)
    requires Enabled(s, e) && id in Step(s, e).handlers
    ensures id in s.handlers || (e.Arrive? && e.id == id)
  {
    match e
    case Section(who, token, passwordOk) => SectionMoves(s, who, token, passwordOk);
    case PruneStep => PrunerFields(s);
    case _ =>
  }

  ghost predicate ArrivedAs(events: seq<Event>, a: nat, k: nat, id: nat) {
    a < k && a < |events| && events[a].Arrive? && events[a].id == id
  }

  /** Every handler has arrived. */
  lemma {:induction false} CameFrom(states: seq<State>, events: seq<Event>, k: nat, id: nat) returns (a: nat)
    requires Run(states, events) && k < |states| && id in states[k].handlers
    ensures ArrivedAs(events, a, k, id)
    ensures ServingAt(states[k], id, events[a].request, events[a].token)
  {
    hide Run, Step, Enabled, ServingAt;
    if k == 0 {
      NothingYet(states, events);
      assert false;
    } else {
      LastStep(states, events, k);
      HandlerArises(states[k - 1], events[k - 1], id);
      if id in states[k - 1].handlers {
        a := CameFrom(states, events, k - 1, id);
      } else {
        a := k - 1;
      }
      ServesItsRequest(states, events, a, k, id, events[a].request, events[a].token);
    }
  }

  lemma NothingYet(states: seq<State>, events: seq<Event>)
    requires Run(states, events)
    ensures states[0] == START
  {
  }

  // ----- accounts -----

  /** A verify has approved this account with this token. */
  ghost predicate VerifiedBefore(states: seq<State>, events: seq<Event>, k: nat, token: string, u: string) {
    exists i: nat :: i < k && i < |events| && i < |states| && Approves(states[i], events[i], token, u)
  }

  /** The account is the one this signup asked for, Approved only if that was asked for or a verify did it. */
  ghost predicate FromSignup(account: UserAccount, u: string, request: Request, token: string, verified: bool) {
    && Complete(request) && request.username == u
    && account.username == u && account.email == request.email && account.passwordHash == request.hash
    && (account.status == Pending ==> !request.autoApprove && account.verificationToken == Some(token))
    && (account.status == Approved ==> request.autoApprove || verified)
  }

  lemma AccountStep(s: State, e: Event, u: string, request: Request, token: string, before: bool, after: bool)
    requires Inv(s) && Enabled(s, e) && u in s.users && FromSignup(s.users[u], u, request, token, before)
    requires before ==> after
    requires Approves(s, e, token, u) ==> after
    ensures u in Step(s, e).users && FromSignup(Step(s, e).users[u], u, request, token, after)
  {
    UsersStep(s, e);
    if e.Section? && s.handlers[e.id].VerifyApprove? && s.handlers[e.id].username == u {
      assert Holds(s, At(e.id), s.handlers[e.id].token, u);
    }
    hide Inv, Step;
  }

  lemma AccountArises(s: State, e: Event, u: string)
    requires Enabled(s, e) && u !in s.users && u in Step(s, e).users
    ensures e.Section? && s.handlers[e.id].SignupUser?
    ensures s.handlers[e.id].account.username == u && Step(s, e).users[u] == s.handlers[e.id].account
  {
    UsersStep(s, e);
    hide Step;
  }

  lemma VerifiedNext(states: seq<State>, events: seq<Event>, k: nat, token: string, u: string)
    requires k < |events| && k < |states|
    ensures VerifiedBefore(states, events, k, token, u) ==> VerifiedBefore(states, events, k + 1, token, u)
    ensures Approves(states[k], events[k], token, u) ==> VerifiedBefore(states, events, k + 1, token, u)
  {
    hide Approves;
  }

  ghost predicate SignedUpBy(states: seq<State>, events: seq<Event>, a: nat, k: nat, u: string)
    requires k < |states| && u in states[k].users
  {
    && a < k && a < |events| && events[a].Arrive?
    && FromSignup(states[k].users[u], u, events[a].request, events[a].token,
                  VerifiedBefore(states, events, k, events[a].token, u))
  }

  /**
   * Every account was asked for by a signup, with this name, address and hash. It is Pending with that
   * signup's token, or Approved because the signup said so or because a verify came with the token, or
   * Blocked.
   */
  lemma {:induction false} AccountProvenance(states: seq<State>, events: seq<Event>, k: nat, u: string)
      returns (a: nat)
    requires Run(states, events) && k < |states| && u in states[k].users
    ensures SignedUpBy(states, events, a, k, u)
  {
    hide Run, Step, Enabled, Inv, FromSignup, VerifiedBefore, Approves, Serving;
    if k == 0 {
      NothingYet(states, events);
      assert false;
    } else {
      LastStep(states, events, k);
      var s, e := states[k - 1], events[k - 1];
      Invariant(states, events, k - 1);
      if u in s.users {
        a := AccountProvenance(states, events, k - 1, u);
        var token := events[a].token;
        VerifiedNext(states, events, k - 1, token, u);
        AccountStep(s, e, u, events[a].request, token, VerifiedBefore(states, events, k - 1, token, u),
                    VerifiedBefore(states, events, k, token, u));
      } else {
        AccountArises(s, e, u);
        a := CameFrom(states, events, k - 1, e.id);
        FromDraft(s.handlers[e.id], u, events[a].request, events[a].token,
                  VerifiedBefore(states, events, k, events[a].token, u));
      }
    }
  }

  lemma FromDraft(h: Handler, u: string, request: Request, token: string, verified: bool)
    requires h.SignupUser? && h.account.username == u && Serving(request, token, h)
    ensures FromSignup(h.account, u, request, token, verified)
  {
  }

  /** Nobody is Approved without a signup that needed no approval or a verify that came with the token. */
  lemma ApprovedForAReason(states: seq<State>, events: seq<Event>, k: nat, u: string) returns (a: nat, id: nat)
    requires Run(states, events) && k < |states| && IsApproved(states[k], u)
    ensures ArrivedAs(events, a, k, id) && Complete(events[a].request) && events[a].request.username == u
    ensures events[a].request.autoApprove || VerifiedBefore(states, events, k, events[a].token, u)
  {
    a := AccountProvenance(states, events, k, u);
    id := events[a].id;
  }

  // ----- sessions -----

  /** In this step a login of this user, who is Approved, has the right password and draws this token. */
  ghost predicate GetsIn(s: State, e: Event, id: nat, token: string, u: string) {
    e == Section(id, token, true) && HandlerAt(s, id) == Some(LoginRead(u)) && IsApproved(s, u)
  }

  ghost predicate LogsIn(states: seq<State>, events: seq<Event>, i: nat, id: nat, token: string, u: string) {
    i < |events| && i < |states| && GetsIn(states[i], events[i], id, token, u)
  }

  lemma LoginArises(s: State, e: Event, id: nat, token: string, u: string)
    requires Enabled(s, e) && HandlerAt(Step(s, e), id) == Some(LoginInsert(u, token))
    ensures HandlerAt(s, id) == Some(LoginInsert(u, token)) || GetsIn(s, e, id, token, u)
  {
    HandlerArises(s, e, id);
    if Serves(e, id) {
      ServedBy(s, e, id);
    } else if id in s.handlers {
      OthersPass(s, e, id);
    }
  }

  lemma {:induction false} LoginPassed(states: seq<State>, events: seq<Event>, k: nat, id: nat, token: string,
      u: string) returns (i: nat)
    requires Run(states, events) && k < |states| && HandlerAt(states[k], id) == Some(LoginInsert(u, token))
    ensures i < k && LogsIn(states, events, i, id, token, u)
  {
    hide Run, Step, Enabled, GetsIn;
    if k == 0 {
      NoHandlersYet(states, events);
      assert false;
    } else {
      LastStep(states, events, k);
      LoginArises(states[k - 1], events[k - 1], id, token, u);
      if HandlerAt(states[k - 1], id) == Some(LoginInsert(u, token)) {
        i := LoginPassed(states, events, k - 1, id, token, u);
      } else {
        i := k - 1;
      }
    }
  }

  lemma SessionArises(s: State, e: Event, token: string)
    requires Enabled(s, e) && token in Step(s, e).sessions
    ensures (token in s.sessions && Step(s, e).sessions[token] == s.sessions[token])
      || (e.Section? && HandlerAt(s, e.id) == Some(LoginInsert(Step(s, e).sessions[token].username, token))
          && Step(s, e).sessions[token].expiresAt == s.clock + SESSION_TTL_SECS)
  {
    match e
    case Section(id, drawn, passwordOk) => SectionSessions(s, id, drawn, passwordOk);
    case _ =>
  }

  /** The session was inserted at step j, for a day, after its login had passed its checks at step i. */
  ghost predicate SessionFrom(states: seq<State>, events: seq<Event>, k: nat, token: string, i: nat, j: nat, id: nat)
    requires k < |states| && token in states[k].sessions
  {
    && i < j < k && LogsIn(states, events, i, id, token, states[k].sessions[token].username)
    && states[k].sessions[token].expiresAt == states[j].clock + SESSION_TTL_SECS
  }

  /** Every session was opened by a login with the right password of a user who was Approved at that moment. */
  lemma {:induction false} SessionProvenance(states: seq<State>, events: seq<Event>, k: nat, token: string)
      returns (a: nat, i: nat, j: nat, id: nat, drawn: string)
    requires Run(states, events) && k < |states| && token in states[k].sessions
    ensures SessionFrom(states, events, k, token, i, j, id)
    ensures a < i && Arrives(events, a, id, Login(states[k].sessions[token].username), drawn)
  {
    hide Run, Step, Enabled, Approves, LogsIn;
    if k == 0 {
      NothingYet(states, events);
      assert false;
    } else {
      LastStep(states, events, k);
      var s, e := states[k - 1], events[k - 1];
      SessionArises(s, e, token);
      if token in s.sessions && states[k].sessions[token] == s.sessions[token] {
        a, i, j, id, drawn := SessionProvenance(states, events, k - 1, token);
      } else {
        j, id := k - 1, e.id;
        i := LoginPassed(states, events, j, id, token, states[k].sessions[token].username);
        a, drawn := LoginArrived(states, events, i, id, token, states[k].sessions[token].username);
      }
    }
  }

  lemma LoginArrived(states: seq<State>, events: seq<Event>, i: nat, id: nat, token: string, u: string)
      returns (a: nat, drawn: string)
    requires Run(states, events) && LogsIn(states, events, i, id, token, u)
    ensures a < i && Arrives(events, a, id, Login(u), drawn)
  {
    a := CameFrom(states, events, i, id);
    drawn := events[a].token;
  }

  // ----- records -----

  predicate StampsNow(s: State, e: Event, id: nat, r: PeerRecord) {
    Serves(e, id) && s.clock == r.lastSeen && id in s.handlers
  }

  /** At step i the handler reads the clock for its record. */
  ghost predicate StampsAt(states: seq<State>, events: seq<Event>, i: nat, id: nat, r: PeerRecord) {
    i < |events| && i < |states| && StampsNow(states[i], events[i], id, r)
  }

  lemma WriteArises(s: State, e: Event, id: nat, u: string, r: PeerRecord)
    requires Enabled(s, e) && HandlerAt(Step(s, e), id) == Some(RegistryWrite(u, r))
    ensures HandlerAt(s, id) == Some(RegistryWrite(u, r)) || StampsNow(s, e, id, r)
  {
    HandlerArises(s, e, id);
    if Serves(e, id) {
      ServedBy(s, e, id);
    } else if id in s.handlers {
      OthersPass(s, e, id);
    }
  }

  lemma {:induction false} WriteStamped(states: seq<State>, events: seq<Event>, k: nat, id: nat, u: string,
      r: PeerRecord) returns (i: nat)
    requires Run(states, events) && k < |states| && HandlerAt(states[k], id) == Some(RegistryWrite(u, r))
    ensures i < k && StampsAt(states, events, i, id, r)
  {
    hide Run, Step, Enabled, StampsNow;
    if k == 0 {
      NoHandlersYet(states, events);
      assert false;
    } else {
      LastStep(states, events, k);
      WriteArises(states[k - 1], events[k - 1], id, u, r);
      if HandlerAt(states[k - 1], id) == Some(RegistryWrite(u, r)) {
        i := WriteStamped(states, events, k - 1, id, u, r);
      } else {
        i := k - 1;
      }
    }
  }

  /** The step in which a handler writes this record. */
  ghost predicate WritesAt(states: seq<State>, events: seq<Event>, j: nat, id: nat, u: string, r: PeerRecord) {
    j < |events| && j < |states| && Serves(events[j], id) && HandlerAt(states[j], id) == Some(RegistryWrite(u, r))
  }

  /**
   * A handler that has come with a registration and takes its write step stores the device with the
   * addresses and the relay it was sent and a time read since it came.
   */
  lemma EnrolWrites(states: seq<State>, events: seq<Event>, a: nat, j: nat, id: nat, bearer: Option<string>,
                    u: string, n: string, addrs: seq<string>, relay: Option<string>, drawn: string)
      returns (i: nat)
    requires Run(states, events) && a < j < |events|
    requires Arrives(events, a, id, ChangeRegistry(bearer, Some(Enrol(u, n, addrs, relay))), drawn)
    requires Serves(events[j], id) && HandlerAt(states[j], id).Some? && HandlerAt(states[j], id).value.RegistryWrite?
    ensures a < i < j && Serves(events[i], id)
    ensures var r := PeerRecord(n, addrs, relay, states[i].clock);
      WritesAt(states, events, j, id, u, r) && n in BookAt(states[j + 1], u) && BookAt(states[j + 1], u)[n] == r
  {
    var r := states[j].handlers[id].record;
    ServesItsRequest(states, events, a, j, id, events[a].request, drawn);
    i := WriteStamped(states, events, j, id, u, r);
    CameLater(states, events, a, i, id);
    WriteLands(states, events, j, id, u, r);
  }

  /** A handler exists only after its arrival. */
  lemma CameLater(states: seq<State>, events: seq<Event>, a: nat, i: nat, id: nat)
    requires Run(states, events) && i < |states| && id in states[i].handlers
    requires a < |events| && events[a].Arrive? && events[a].id == id
    ensures a < i
  {
    var b := CameFrom(states, events, i, id);
    LastStep(states, events, a + 1);
    if i <= a {
      ServesItsRequest(states, events, b, a, id, events[b].request, events[b].token);
    }
  }

  lemma WriteLands(states: seq<State>, events: seq<Event>, j: nat, id: nat, u: string, r: PeerRecord)
    requires Run(states, events) && WritesAt(states, events, j, id, u, r) && j + 1 < |states|
    ensures r.nodeId in BookAt(states[j + 1], u) && BookAt(states[j + 1], u)[r.nodeId] == r
    ensures r in Of(states[j + 1].registry, u)
  {
    LastStep(states, events, j + 1);
    Invariant(states, events, j);
    hide Run;
    RegistryStep(states[j], id, events[j].token, events[j].passwordOk);
    hide Step, RunSection, NextHandler;
    RegisterRefines(states[j].registry, u, r);
    UpsertedRecords(Of(states[j].registry, u), r);
  }

  /** A handler that has come with a withdrawal and takes its remove step takes the device off the list. */
  lemma WithdrawRemoves(states: seq<State>, events: seq<Event>, a: nat, j: nat, id: nat, bearer: Option<string>,
                        u: string, n: string, drawn: string)
    requires Run(states, events) && a < j < |events|
    requires Arrives(events, a, id, ChangeRegistry(bearer, Some(Withdraw(u, n))), drawn)
    requires Serves(events[j], id) && HandlerAt(states[j], id).Some? && HandlerAt(states[j], id).value.RegistryRemove?
    ensures n !in BookAt(states[j + 1], u)
  {
    ServesItsRequest(states, events, a, j, id, events[a].request, drawn);
    LastStep(states, events, j + 1);
    Invariant(states, events, j);
    RegistryStep(states[j], id, events[j].token, events[j].passwordOk);
    hide Run, Step, RunSection;
    DeregisterRefines(states[j].registry, u, n);
  }

  // ----- which records are there, and for how long -----

  ghost predicate Has(s: State, u: string, r: PeerRecord) {
    r in Of(s.registry, u)
  }

  lemma UpsertHas(reg: Registry, v: string, w: PeerRecord, u: string, r: PeerRecord)
    requires WellFormed(reg)
    ensures r in Of(Upsert(reg, v, w), u) <==>
      (v == u && r == w) || (r in Of(reg, u) && !(v == u && r.nodeId == w.nodeId))
  {
    UpsertedRecords(Of(reg, v), w);
  }

  lemma RemoveHas(reg: Registry, v: string, n: string, u: string, r: PeerRecord)
    ensures r in Of(Remove(reg, v, n), u) <==> r in Of(reg, u) && !(v == u && r.nodeId == n)
  {
  }

  lemma PruneHas(reg: Registry, cutoff: nat, u: string, r: PeerRecord)
    ensures r in Of(Prune(reg, cutoff), u) <==> r in Of(reg, u) && r.lastSeen >= cutoff
  {
    assert Of(Prune(reg, cutoff), u) == Retained(Of(reg, u), SeenSince(cutoff));
  }

  lemma PrunerHas(s: State, u: string, r: PeerRecord)
    requires PrunerOk(s)
    ensures Has(RunPruner(s), u, r) ==> Has(s, u, r)
    ensures Has(s, u, r) && !Has(RunPruner(s), u, r) ==> r.lastSeen + PEER_TTL_SECS < s.clock
  {
    if s.pruner.RegistryNext? {
      PruneHas(s.registry, s.pruner.cutoff, u, r);
      hide Of, Prune;
    }
  }

  lemma SectionHas(s: State, id: nat, token: string, passwordOk: bool, u: string, r: PeerRecord)
    requires WellFormed(s.registry) && id in s.handlers
    ensures Has(RunSection(s, id, token, passwordOk), u, r) <==>
      match s.handlers[id]
      case RegistryWrite(v, w) => (v == u && r == w) || (Has(s, u, r) && !(v == u && r.nodeId == w.nodeId))
      case RegistryRemove(v, n) => Has(s, u, r) && !(v == u && r.nodeId == n)
      case _ => Has(s, u, r)
  {
    RegistryStep(s, id, token, passwordOk);
    hide RunSection, Of, Upsert, Remove;
    match s.handlers[id]
    case RegistryWrite(v, w) => UpsertHas(s.registry, v, w, u, r);
    case RegistryRemove(v, n) => RemoveHas(s.registry, v, n, u, r);
    case _ =>
  }

  lemma RecordArises(s: State, e: Event, u: string, r: PeerRecord)
    requires Inv(s) && Enabled(s, e) && Has(Step(s, e), u, r) && !Has(s, u, r)
    ensures e.Section? && HandlerAt(s, e.id) == Some(RegistryWrite(u, r))
  {
    match e
    case Section(id, token, passwordOk) =>
      hide RunSection, Has;
      SectionHas(s, id, token, passwordOk, u, r);
    case PruneStep => PrunerHas(s, u, r);
    case _ =>
  }

  /** A registration of this record for this user: it came at a, read the clock at i and wrote at j. */
  ghost predicate RegisteredAt(states: seq<State>, events: seq<Event>, a: nat, i: nat, j: nat, id: nat, u: string,
      r: PeerRecord) {
    && a < i < j && WritesAt(states, events, j, id, u, r) && StampsAt(states, events, i, id, r)
    && a < |events| && events[a].Arrive? && events[a].id == id && events[a].request.ChangeRegistry?
    && events[a].request.body == Some(Enrol(u, r.nodeId, r.addrs, r.relayUrl))
  }

  lemma WriteProvenance(states: seq<State>, events: seq<Event>, j: nat, id: nat, u: string, r: PeerRecord)
      returns (a: nat, i: nat)
    requires Run(states, events) && WritesAt(states, events, j, id, u, r)
    ensures RegisteredAt(states, events, a, i, j, id, u, r)
  {
    a := CameFrom(states, events, j, id);
    i := WriteStamped(states, events, j, id, u, r);
    CameLater(states, events, a, i, id);
  }

  /** Every record of the registry was sent by a registration of its user and carries the time read for it. */
  lemma {:induction false} RecordProvenance(states: seq<State>, events: seq<Event>, k: nat, u: string, r: PeerRecord)
      returns (a: nat, i: nat, j: nat, id: nat)
    requires Run(states, events) && k < |states| && Has(states[k], u, r)
    ensures j < k && RegisteredAt(states, events, a, i, j, id, u, r)
  {
    hide Run, Step, Enabled, Inv, RegisteredAt;
    if k == 0 {
      NothingYet(states, events);
      assert false;
    } else {
      LastStep(states, events, k);
      Invariant(states, events, k - 1);
      hide Has;
      if Has(states[k - 1], u, r) {
        a, i, j, id := RecordProvenance(states, events, k - 1, u, r);
      } else {
        RecordArises(states[k - 1], events[k - 1], u, r);
        j, id := k - 1, events[k - 1].id;
        a, i := WriteProvenance(states, events, j, id, u, r);
      }
    }
  }

  /** A registration or a withdrawal of this device of this user takes effect in this step. */
  predicate Touches(s: State, e: Event, u: string, n: string) {
    && e.Section? && e.id in s.handlers
    && match s.handlers[e.id]
       case RegistryWrite(v, r) => v == u && r.nodeId == n
       case RegistryRemove(v, node) => v == u && node == n
       case _ => false
  }

  lemma RecordGoes(s: State, e: Event, u: string, r: PeerRecord)
    requires Inv(s) && Enabled(s, e) && Has(s, u, r) && !Has(Step(s, e), u, r)
    ensures Touches(s, e, u, r.nodeId) || (e.PruneStep? && r.lastSeen + PEER_TTL_SECS < s.clock)
  {
    match e
    case Section(id, token, passwordOk) =>
      hide RunSection, Has;
      SectionHas(s, id, token, passwordOk, u, r);
    case PruneStep => PrunerHas(s, u, r);
    case _ =>
  }

  predicate ConcernsDevice(request: Request, u: string, n: string) {
    && request.ChangeRegistry? && request.body.Some?
    && request.body.value.username == u && request.body.value.nodeId == n
  }

  /** A record goes only by age, or as its own user asks for: this very device is registered again or withdrawn. */
  lemma LossProvenance(states: seq<State>, events: seq<Event>, k: nat, u: string, r: PeerRecord)
      returns (a: nat, id: nat)
    requires Run(states, events) && k < |events| && Has(states[k], u, r) && !Has(states[k + 1], u, r)
    ensures (events[k].PruneStep? && r.lastSeen + PEER_TTL_SECS < states[k].clock)
      || (Serves(events[k], id) && ArrivedAs(events, a, k, id) && ConcernsDevice(events[a].request, u, r.nodeId))
  {
    LastStep(states, events, k + 1);
    Invariant(states, events, k);
    RecordGoes(states[k], events[k], u, r);
    hide Run, Step, Inv, Has;
    a, id := 0, 0;
    if events[k].Section? {
      id := events[k].id;
      a := CameFrom(states, events, k, id);
    }
  }

  lemma {:induction false} RecordStays(states: seq<State>, events: seq<Event>, j: nat, k: nat, u: string, r: PeerRecord)
    requires Run(states, events) && j <= k < |states| && Has(states[j], u, r)
    requires forall m :: j <= m < k ==> !Touches(states[m], events[m], u, r.nodeId)
    requires states[k].clock <= r.lastSeen + PEER_TTL_SECS
    ensures Has(states[k], u, r)
  {
    hide Run, Step, Enabled, Inv, Has, Touches;
    if j == k {
    } else {
      LastStep(states, events, k);
      ClockStep(states[k - 1], events[k - 1]);
      RecordStays(states, events, j, k - 1, u, r);
      Invariant(states, events, k - 1);
      if !Has(states[k], u, r) {
        RecordGoes(states[k - 1], events[k - 1], u, r);
      }
    }
  }

  /**
   * For 300 seconds from its stamp a registration is in every answer about its user, as the device's
   * only record, unless the device is registered again or withdrawn: prunes and other devices, users,
   * logins and blocks change nothing about that.
   */
  lemma ListedForFiveMinutes(states: seq<State>, events: seq<Event>, j: nat, id: nat, u: string, r: PeerRecord,
                             a: nat, g: nat, asker: nat, drawn: string) returns (peers: Peers)
    requires Run(states, events) && WritesAt(states, events, j, id, u, r)
    requires Arrives(events, a, asker, ListPeers(u), drawn) && NextAt(events, a, g, asker) && j < g
    requires states[g].clock <= r.lastSeen + PEER_TTL_SECS
    requires forall m :: j < m < g ==> !Touches(states[m], events[m], u, r.nodeId)
    ensures HandlerAt(states[g + 1], asker) == Some(Done(Listed(peers)))
    ensures r in peers && forall p :: p in peers && p.nodeId == r.nodeId ==> p == r
  {
    WriteLands(states, events, j, id, u, r);
    RecordStays(states, events, j + 1, g, u, r);
    peers := PeersAnswered(states, events, a, g, asker, u, drawn);
  }

  // ----- what the pruning task takes -----

  /** The pruning task's last step before k. */
  ghost predicate LastTurn(events: seq<Event>, i: nat, k: nat) {
    i < k && i < |events| && events[i].PruneStep? && forall m :: i < m < k && m < |events| ==> !events[m].PruneStep?
  }

  lemma PrunerWaits(s: State, e: Event)
    requires Enabled(s, e) && !e.PruneStep?
    ensures Step(s, e).pruner == s.pruner
  {
    match e
    case Section(id, token, passwordOk) => SectionClock(s, id, token, passwordOk);
    case _ =>
  }

  /** The pruning task holds the time it read in its last step. */
  lemma {:induction false} PrunerRead(states: seq<State>, events: seq<Event>, k: nat) returns (i: nat)
    requires Run(states, events) && k < |states| && (states[k].pruner.RegistryNext? || states[k].pruner.SessionsNext?)
    ensures LastTurn(events, i, k) && i < |states|
    ensures states[k].pruner == (if states[k].pruner.RegistryNext? then RegistryNext(SaturatingCutoff(states[i].clock))
      else SessionsNext(states[i].clock))
  {
    hide Run, Step, Enabled;
    if k == 0 {
      NothingYet(states, events);
      assert false;
    } else {
      LastStep(states, events, k);
      if events[k - 1].PruneStep? {
        i := k - 1;
        PrunerTurns(states[i]);
      } else {
        PrunerWaits(states[k - 1], events[k - 1]);
        i := PrunerRead(states, events, k - 1);
      }
    }
  }

  lemma PrunerTurns(s: State)
    ensures Step(s, PruneStep).pruner == match s.pruner
      case Asleep => RegistryNext(SaturatingCutoff(s.clock))
      case RegistryNext(_) => StampNext
      case StampNext => SessionsNext(s.clock)
      case SessionsNext(_) => Asleep
  {
  }

  /** A sweep of the registry takes exactly the records that were older than 300 seconds when the clock was read. */
  lemma RegistrySweep(states: seq<State>, events: seq<Event>, k: nat) returns (i: nat)
    requires Run(states, events) && k < |events| && events[k].PruneStep? && states[k].pruner.RegistryNext?
    ensures LastTurn(events, i, k) && i < |states|
    ensures forall u, r ::
      Has(states[k + 1], u, r) <==> Has(states[k], u, r) && states[i].clock <= r.lastSeen + PEER_TTL_SECS
  {
    i := PrunerRead(states, events, k);
    LastStep(states, events, k + 1);
    hide Run;
    forall u, r
      ensures Has(states[k + 1], u, r) <==> Has(states[k], u, r) && states[i].clock <= r.lastSeen + PEER_TTL_SECS
    {
      PruneHas(states[k].registry, states[k].pruner.cutoff, u, r);
    }
  }

  /** A sweep of the sessions takes exactly those that had reached their expiry when the clock was read. */
  lemma SessionSweep(states: seq<State>, events: seq<Event>, k: nat) returns (i: nat)
    requires Run(states, events) && k < |events| && events[k].PruneStep? && states[k].pruner.SessionsNext?
    ensures LastTurn(events, i, k) && i < |states|
    ensures forall t ::
      t in states[k + 1].sessions <==> t in states[k].sessions && states[i].clock < states[k].sessions[t].expiresAt
  {
    i := PrunerRead(states, events, k);
    LastStep(states, events, k + 1);
    hide Run;
  }
}

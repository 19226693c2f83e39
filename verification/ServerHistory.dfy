/**
 * Properties of whole runs of the server: what has happened before, what can no longer happen,
 * and what can always still be brought about.
 */
module ServerHistory {
  import opened Collections
  import opened Registry
  import opened Server
  import opened ServerInvariant

  // ----- the accounts after a step -----

  function UsersAfter(s: State, e: Event): map<string, UserAccount>
    requires Enabled(s, e)
  {
    if e.Block? && e.username in s.users then s.users[e.username := s.users[e.username].(status := Blocked)]
    else if e.Section? && s.handlers[e.id].SignupUser? then Admission(s.users, s.handlers[e.id].account).0
    else if e.Section? && s.handlers[e.id].VerifyApprove? then Approval(s.users, s.handlers[e.id].username).0
    else s.users
  }

  lemma RegistrySectionUsers(s: State, id: nat, token: string, passwordOk: bool)
    requires id in s.handlers && token !in s.issued
    requires var h := s.handlers[id];
      !h.SignupUser? && !h.SignupLink? && !h.VerifyTake? && !h.VerifyApprove? && !h.LoginRead?
    ensures RunSection(s, id, token, passwordOk).users == s.users
  {
    match s.handlers[id]
    case LoginInsert(u, t) => assert InsertSession(s, id, u, t).users == s.users;
    case AuthSession(bearer, body) => assert CheckSession(s, id, bearer, body).users == s.users;
    case AuthAccount(u, body) => assert CheckAccount(s, id, u, body).users == s.users;
    case Stamp(u, change) => assert StampRecord(s, id, u, change).users == s.users;
    case _ =>
  }

  lemma SectionUsers(s: State, id: nat, token: string, passwordOk: bool)
    requires id in s.handlers && token !in s.issued
    ensures RunSection(s, id, token, passwordOk).users == UsersAfter(s, Section(id, token, passwordOk))
  {
    match s.handlers[id]
    case SignupUser(a) =>
    case SignupLink(t, u) =>
    case VerifyTake(t) => assert TakeLink(s, id, t).users == s.users;
    case VerifyApprove(t, u) =>
    case LoginRead(u) => assert CheckLogin(s, id, u, token, passwordOk).users == s.users;
    case _ => RegistrySectionUsers(s, id, token, passwordOk);
  }

  lemma UsersStep(s: State, e: Event)
    requires Enabled(s, e)
    ensures Step(s, e).users == UsersAfter(s, e)
  {
    match e
    case Section(id, token, passwordOk) => SectionUsers(s, id, token, passwordOk);
    case _ =>
  }

  lemma SectionClock(s: State, id: nat, token: string, passwordOk: bool)
    requires id in s.handlers
    ensures RunSection(s, id, token, passwordOk).clock == s.clock
    ensures RunSection(s, id, token, passwordOk).pruner == s.pruner
    ensures s.issued <= RunSection(s, id, token, passwordOk).issued
  {
    match s.handlers[id]
    case SignupUser(a) => assert InsertAccount(s, id, a).clock == s.clock;
    case SignupLink(t, u) =>
    case VerifyTake(t) => assert TakeLink(s, id, t).clock == s.clock;
    case VerifyApprove(t, u) => assert ApproveAccount(s, id, u).clock == s.clock;
    case LoginRead(u) => assert CheckLogin(s, id, u, token, passwordOk).clock == s.clock;
    case LoginInsert(u, t) => assert InsertSession(s, id, u, t).clock == s.clock;
    case AuthSession(bearer, body) => assert CheckSession(s, id, bearer, body).clock == s.clock;
    case AuthAccount(u, body) => assert CheckAccount(s, id, u, body).clock == s.clock;
    case Stamp(u, change) => assert StampRecord(s, id, u, change).clock == s.clock;
    case RegistryWrite(u, record) =>
    case RegistryRemove(u, node) =>
    case PeersRead(u) =>
    case Done(_) =>
  }

  lemma ClockStep(s: State, e: Event)
    requires Enabled(s, e)
    ensures s.clock <= Step(s, e).clock && s.issued <= Step(s, e).issued
  {
    match e
    case Section(id, token, passwordOk) => SectionClock(s, id, token, passwordOk);
    case Arrive(id, request, token) =>
    case _ =>
  }

  lemma StepGoesForward(s: State, e: Event)
    requires Enabled(s, e)
    ensures Later(s, Step(s, e))
  {
    UsersStep(s, e);
    ClockStep(s, e);
  }

  lemma LaterAccount(s: State, t: State, r: State, u: string)
    requires Later(s, t) && Later(t, r) && u in s.users
    ensures u in r.users && SameButLater(s.users[u], r.users[u])
  {
    assert SameButLater(s.users[u], t.users[u]);
    assert SameButLater(t.users[u], r.users[u]);
  }

  lemma LaterReflexive(s: State)
    ensures Later(s, s)
  {
  }

  lemma LaterTransitive(s: State, t: State, r: State)
    requires Later(s, t) && Later(t, r)
    ensures Later(s, r)
  {
    forall u | u in s.users
      ensures u in r.users && SameButLater(s.users[u], r.users[u])
    {
      LaterAccount(s, t, r, u);
    }
  }

  /** How a run got to its j-th state. */
  lemma LastStep(states: seq<State>, events: seq<Event>, j: nat)
    requires Run(states, events) && 0 < j < |states|
    ensures j <= |events| && Enabled(states[j - 1], events[j - 1])
    ensures states[j] == Step(states[j - 1], events[j - 1])
  {
    assert j - 1 + 1 == j;
  }

  /** Time, accounts and statuses only move forward along a run: Pending, then Approved, then Blocked. */
  lemma {:induction false} StatusHistory(states: seq<State>, events: seq<Event>, i: nat, j: nat)
    requires Run(states, events) && i <= j < |states|
    ensures Later(states[i], states[j])
  {
    if i == j {
      LaterReflexive(states[i]);
    } else {
      hide Run, Later, Step, Enabled;
      LastStep(states, events, j);
      StatusHistory(states, events, i, j - 1);
      StepGoesForward(states[j - 1], events[j - 1]);
      LaterTransitive(states[i], states[j - 1], states[j]);
    }
  }

  // ----- one verification token approves one account, once -----

  /** The step in which a verify approves an account. */
  ghost predicate Approves(s: State, e: Event, token: string, u: string) {
    && e.Section? && e.id in s.handlers && s.handlers[e.id] == VerifyApprove(token, u)
    && u in s.users && s.users[u].status == Pending
  }

  /** A token that was drawn and that no account, inserted or drafted, carries. */
  ghost predicate Spent(s: State, token: string) {
    && token in s.issued
    && (forall u :: u in s.users ==> s.users[u].verificationToken != Some(token))
    && (forall id :: !Drafts(s, id, token))
  }

  /** `t` differs from `s`, as far as handlers go, in the place of this one. */
  ghost predicate MovedTo(s: State, t: State, id: nat) {
    id in t.handlers && t.handlers == s.handlers[id := t.handlers[id]]
  }

  /** `t` has moved no handler but `id`, and not into a draft. */
  ghost predicate MovedOnly(s: State, t: State, id: nat) {
    MovedTo(s, t, id) && !t.handlers[id].SignupUser?
  }

  lemma SectionMoves(s: State, id: nat, token: string, passwordOk: bool)
    requires id in s.handlers
    ensures MovedOnly(s, RunSection(s, id, token, passwordOk), id)
  {
    match s.handlers[id]
    case LoginInsert(u, t) => assert MovedOnly(s, InsertSession(s, id, u, t), id);
    case AuthSession(bearer, body) => assert MovedOnly(s, CheckSession(s, id, bearer, body), id);
    case AuthAccount(u, body) => assert MovedOnly(s, CheckAccount(s, id, u, body), id);
    case Stamp(u, change) => assert MovedOnly(s, StampRecord(s, id, u, change), id);
    case RegistryWrite(u, record) =>
    case RegistryRemove(u, node) =>
    case PeersRead(u) =>
    case Done(_) =>
    case _ =>
  }

  lemma DraftsStep(s: State, e: Event, id: nat, token: string)
    requires Enabled(s, e)
    requires Drafts(Step(s, e), id, token)
    ensures Drafts(s, id, token) || token !in s.issued
  {
    match e
    case Section(k, t, passwordOk) => SectionMoves(s, k, t, passwordOk);
    case _ =>
  }

  lemma SpentStays(s: State, e: Event, token: string)
    requires Enabled(s, e) && Spent(s, token)
    ensures Spent(Step(s, e), token)
  {
    StepGoesForward(s, e);
    UsersStep(s, e);
    forall id
      ensures !Drafts(Step(s, e), id, token)
    {
      if Drafts(Step(s, e), id, token) {
        DraftsStep(s, e, id, token);
      }
    }
    assert e.Section? ==> !Drafts(s, e.id, token);
  }

  lemma {:induction false} SpentForever(states: seq<State>, events: seq<Event>, i: nat, j: nat, token: string)
    requires Run(states, events) && i <= j < |states| && Spent(states[i], token)
    ensures Spent(states[j], token)
  {
    if i == j {
    } else {
      SpentForever(states, events, i, j - 1, token);
      SpentStays(states[j - 1], events[j - 1], token);
    }
  }

  lemma ApprovalSpends(s: State, e: Event, token: string, u: string)
    requires Inv(s) && Enabled(s, e) && Approves(s, e, token, u)
    ensures s.users[u].verificationToken == Some(token)
    ensures Step(s, e).users[u].status == Approved
    ensures Spent(Step(s, e), token)
  {
    assert Holds(s, At(e.id), token, u);
    UsersStep(s, e);
    StepGoesForward(s, e);
    forall id
      ensures !Drafts(Step(s, e), id, token)
    {
      if Drafts(Step(s, e), id, token) {
        DraftsStep(s, e, id, token);
      }
    }
  }

  /** No token approves twice, and the account it approves is the one that was created with it. */
  lemma TokenApprovesOnce(states: seq<State>, events: seq<Event>, i: nat, j: nat, token: string, u: string, v: string)
    requires Run(states, events) && i < |events| && j < |events|
    requires Approves(states[i], events[i], token, u) && Approves(states[j], events[j], token, v)
    ensures i == j && u == v
    ensures states[i].users[u].verificationToken == Some(token) && states[i + 1].users[u].status == Approved
  {
    ApprovesBefore(states, events, i, j, token, u, v);
    ApprovesBefore(states, events, j, i, token, v, u);
    Invariant(states, events, i);
    ApprovalSpends(states[i], events[i], token, u);
  }

  lemma ApprovesBefore(states: seq<State>, events: seq<Event>, i: nat, j: nat, token: string, u: string, v: string)
    requires Run(states, events) && i < |events| && j < |events|
    requires Approves(states[i], events[i], token, u) && Approves(states[j], events[j], token, v)
    ensures j <= i
  {
    if i < j {
      Invariant(states, events, i);
      Invariant(states, events, j);
      ApprovalSpends(states[i], events[i], token, u);
      SpentForever(states, events, i + 1, j, token);
      assert Holds(states[j], At(events[j].id), token, v);
    }
  }

  /** The token is at `p`, for `u`, and nowhere else. */
  ghost predicate OnlyAt(s: State, p: Place, token: string, u: string) {
    forall q, v :: Holds(s, q, token, v) <==> q == p && v == u
  }

  lemma HolderIsUnique(s: State, p: Place, token: string, u: string)
    requires TokensUnique(s) && TokensMatch(s) && TokensPersonal(s) && Holds(s, p, token, u)
    ensures OnlyAt(s, p, token, u)
  {
    forall q, v | Holds(s, q, token, v)
      ensures q == p && v == u
    {
      assert SameToken(s.users[u], s.users[v]);
    }
  }

  /** A Pending account's token is in exactly one place: its signup, the map, or one verify in flight. */
  lemma TokenConservation(states: seq<State>, events: seq<Event>, k: nat, u: string)
    requires Run(states, events) && k < |states|
    requires u in states[k].users && states[k].users[u].status == Pending
    ensures states[k].users[u].verificationToken.Some?
    ensures exists p :: OnlyAt(states[k], p, states[k].users[u].verificationToken.value, u)
  {
    Invariant(states, events, k);
    var p :| Holds(states[k], p, states[k].users[u].verificationToken.value, u);
    HolderIsUnique(states[k], p, states[k].users[u].verificationToken.value, u);
  }

  // ----- no Pending account is stranded -----

  lemma FreshId(used: set<nat>) returns (id: nat)
    ensures id !in used
    ensures forall k :: k in used ==> k < id
  {
    if used == {} {
      id := 0;
    } else {
      var k :| k in used;
      var rest := FreshId(used - {k});
      id := Max(rest, k + 1);
      assert forall j :: j in used ==> j == k || j in used - {k};
    }
  }

  lemma FreshToken(used: set<string>) returns (token: string)
    ensures token !in used
    ensures forall k :: k in used ==> |k| < |token|
  {
    if used == {} {
      token := "t";
    } else {
      var k :| k in used;
      token := FreshToken(used - {k});
      if |token| <= |k| {
        token := k + "t";
      }
      assert forall j :: j in used ==> j == k || j in used - {k};
    }
  }

  /** The state after some events, if each is enabled in its turn. */
  ghost function After(s: State, events: seq<Event>): Option<State>
    decreases events
  {
    if events == [] then Some(s)
    else if Enabled(s, events[0]) then After(Step(s, events[0]), events[1..])
    else None
  }

  lemma AfterCons(s: State, e: Event, rest: seq<Event>)
    requires Enabled(s, e)
    ensures After(s, [e] + rest) == After(Step(s, e), rest)
  {
    assert ([e] + rest)[1..] == rest;
  }

  ghost predicate ApprovedIn(s: Option<State>, u: string) {
    s.Some? && u in s.value.users && s.value.users[u].status == Approved
  }

  /** A token in the map approves when its link is opened. */
  lemma ApproveFromLink(s: State, token: string, u: string, id: nat, drawn: string)
    requires u in s.users && s.users[u].status == Pending
    requires token in s.verifyTokens && s.verifyTokens[token] == u
    requires id !in s.handlers && drawn !in s.issued
    ensures ApprovedIn(After(s, [Arrive(id, Verify(token), drawn), Section(id, drawn, false),
      Section(id, drawn, false)]), u)
  {
    var arrive, section := Arrive(id, Verify(token), drawn), Section(id, drawn, false);
    var a := Put(s, id, VerifyTake(token));
    assert Step(s, arrive) == a;
    var b := TakeLink(a, id, token);
    assert b.handlers[id] == VerifyApprove(token, u) && b.users == s.users && b.issued == s.issued;
    TakenThenApproved(a, b, id, token, u, drawn);
    AfterCons(s, arrive, [section, section]);
    assert [arrive] + [section, section] == [arrive, section, section];
  }

  lemma TakenThenApproved(a: State, b: State, id: nat, token: string, u: string, drawn: string)
    requires id in a.handlers && a.handlers[id] == VerifyTake(token) && b == TakeLink(a, id, token)
    requires id in b.handlers && b.handlers[id] == VerifyApprove(token, u)
    requires u in b.users && b.users[u].status == Pending
    requires drawn !in a.issued && drawn !in b.issued
    ensures ApprovedIn(After(a, [Section(id, drawn, false), Section(id, drawn, false)]), u)
  {
    var section := Section(id, drawn, false);
    assert Step(a, section) == b;
    UsersStep(b, section);
    AfterCons(a, section, [section]);
    assert [section] + [section] == [section, section];
  }

  /** A signup that still holds the token inserts it; then the link can be opened. */
  lemma ApproveFromSignup(s: State, id: nat, token: string, u: string, other: nat, drawn: string)
    requires u in s.users && s.users[u].status == Pending
    requires id in s.handlers && s.handlers[id] == SignupLink(token, u)
    requires other !in s.handlers && drawn !in s.issued
    ensures ApprovedIn(After(s, [Section(id, drawn, false)] +
      [Arrive(other, Verify(token), drawn), Section(other, drawn, false), Section(other, drawn, false)]), u)
  {
    var t := Linked(s, id, token, u);
    assert Step(s, Section(id, drawn, false)) == t;
    ApproveFromLink(t, token, u, other, drawn);
    AfterCons(s, Section(id, drawn, false), [Arrive(other, Verify(token), drawn), Section(other, drawn, false),
      Section(other, drawn, false)]);
  }

  /** From every reachable state with a Pending account there are at most four steps that approve it. */
  lemma NeverStranded(states: seq<State>, events: seq<Event>, k: nat, u: string) returns (more: seq<Event>)
    requires Run(states, events) && k < |states|
    requires u in states[k].users && states[k].users[u].status == Pending
    ensures |more| <= 4
    ensures ApprovedIn(After(states[k], more), u)
  {
    Invariant(states, events, k);
    var s := states[k];
    var token := s.users[u].verificationToken.value;
    var p :| Holds(s, p, token, u);
    var other := FreshId(s.handlers.Keys);
    var drawn := FreshToken(s.issued);
    if p.Link? {
      more := [Arrive(other, Verify(token), drawn), Section(other, drawn, false), Section(other, drawn, false)];
      ApproveFromLink(s, token, u, other, drawn);
    } else if s.handlers[p.id].VerifyApprove? {
      more := [Section(p.id, drawn, false)];
    } else {
      more := [Section(p.id, drawn, false)] +
        [Arrive(other, Verify(token), drawn), Section(other, drawn, false), Section(other, drawn, false)];
      ApproveFromSignup(s, p.id, token, u, other, drawn);
    }
  }

  // ----- who may write to the registry -----

  /** At this moment the user held a session that had not expired. */
  ghost predicate HeldSession(s: State, u: string) {
    exists t :: t in s.sessions && s.sessions[t].username == u && s.clock <= s.sessions[t].expiresAt
  }

  ghost predicate IsApproved(s: State, u: string) {
    u in s.users && s.users[u].status == Approved
  }

  /** The handler has passed both checks of authenticate for this user. */
  predicate Cleared(h: Handler, u: string) {
    (h.Stamp? || h.RegistryWrite? || h.RegistryRemove?) && h.username == u
  }

  /** Neither authenticated nor about to be: handlers of other requests, and replies. */
  predicate Outside(h: Handler, u: string) {
    !h.AuthAccount? && !Cleared(h, u)
  }

  lemma OutsidersStayOutside(s: State, id: nat, token: string, passwordOk: bool, u: string)
    requires id in s.handlers
    requires var h := s.handlers[id];
      Outside(h, u) && !h.AuthSession? && !h.Stamp? && !h.RegistryWrite? && !h.RegistryRemove?
    ensures id in RunSection(s, id, token, passwordOk).handlers
    ensures Outside(RunSection(s, id, token, passwordOk).handlers[id], u)
  {
    match s.handlers[id]
    case SignupUser(a) => assert Outside(InsertAccount(s, id, a).handlers[id], u);
    case VerifyTake(t) => assert Outside(TakeLink(s, id, t).handlers[id], u);
    case VerifyApprove(t, v) => assert Outside(ApproveAccount(s, id, v).handlers[id], u);
    case LoginRead(v) => assert Outside(CheckLogin(s, id, v, token, passwordOk).handlers[id], u);
    case LoginInsert(v, t) => assert Outside(InsertSession(s, id, v, t).handlers[id], u);
    case _ =>
  }

  /** What a section may have given a handler, and what it must have had for that. */
  ghost predicate Gains(s: State, before: Handler, h: Handler, u: string) {
    && (h.AuthAccount? && h.username == u ==> HeldSession(s, u))
    && (Cleared(h, u) ==> Cleared(before, u) || (before.AuthAccount? && before.username == u && IsApproved(s, u)))
  }

  lemma SessionCheckGains(s: State, id: nat, bearer: string, body: Option<Change>, u: string)
    ensures Gains(s, AuthSession(bearer, body), CheckSession(s, id, bearer, body).handlers[id], u)
  {
  }

  /** How a handler gets past each check. */
  lemma ClearanceStep(s: State, id: nat, token: string, passwordOk: bool, u: string)
    requires id in s.handlers && id in RunSection(s, id, token, passwordOk).handlers
    ensures Gains(s, s.handlers[id], RunSection(s, id, token, passwordOk).handlers[id], u)
  {
    match s.handlers[id]
    case AuthSession(bearer, body) => SessionCheckGains(s, id, bearer, body, u);
    case AuthAccount(v, body) =>
    case Stamp(v, change) => assert Gains(s, s.handlers[id], StampRecord(s, id, v, change).handlers[id], u);
    case RegistryWrite(v, record) =>
    case RegistryRemove(v, node) =>
    case _ => OutsidersStayOutside(s, id, token, passwordOk, u);
  }

  /** Before this point of the run: a moment with an unexpired session. */
  ghost predicate SessionBefore(states: seq<State>, k: nat, u: string)
    requires k < |states|
  {
    exists i: nat :: i < k && HeldSession(states[i], u)
  }

  /** Before this point of the run: a moment with an unexpired session, then one at which the account was Approved. */
  ghost predicate ClearedBefore(states: seq<State>, k: nat, u: string)
    requires k < |states|
  {
    exists i: nat, j: nat :: i < j < k && HeldSession(states[i], u) && IsApproved(states[j], u)
  }

  ghost predicate Trailed(states: seq<State>, k: nat, id: nat, u: string)
    requires k < |states|
  {
    id in states[k].handlers ==>
      && (states[k].handlers[id].AuthAccount? && states[k].handlers[id].username == u ==> SessionBefore(states, k, u))
      && (Cleared(states[k].handlers[id], u) ==> ClearedBefore(states, k, u))
  }

  /** An event that is not a section of this handler leaves it alone or creates it outside. */
  lemma OthersLeaveAlone(s: State, e: Event, id: nat, u: string)
    requires Enabled(s, e) && !(e.Section? && e.id == id)
    requires id in Step(s, e).handlers
    ensures (id in s.handlers && Step(s, e).handlers[id] == s.handlers[id]) || Outside(Step(s, e).handlers[id], u)
  {
    match e
    case Section(who, token, passwordOk) => SectionMoves(s, who, token, passwordOk);
    case Arrive(who, request, token) =>
    case PruneStep => assert RunPruner(s).handlers == s.handlers;
    case _ =>
  }

  lemma TrailStep(states: seq<State>, events: seq<Event>, k: nat, id: nat, u: string)
    requires Run(states, events) && k + 1 < |states|
    requires Trailed(states, k, id, u)
    ensures Trailed(states, k + 1, id, u)
  {
    var s, e := states[k], events[k];
    if id in states[k + 1].handlers {
      if e.Section? && e.id == id {
        ClearanceStep(s, id, e.token, e.passwordOk, u);
      } else {
        OthersLeaveAlone(s, e, id, u);
      }
    }
  }

  lemma {:induction false} Trail(states: seq<State>, events: seq<Event>, k: nat, id: nat, u: string)
    requires Run(states, events) && k < |states|
    ensures Trailed(states, k, id, u)
  {
    if k == 0 {
    } else {
      Trail(states, events, k - 1, id, u);
      TrailStep(states, events, k - 1, id, u);
    }
  }

  lemma RegistryStep(s: State, id: nat, token: string, passwordOk: bool)
    requires id in s.handlers
    ensures RunSection(s, id, token, passwordOk).registry ==
      match s.handlers[id]
      case RegistryWrite(u, record) => Upsert(s.registry, u, record)
      case RegistryRemove(u, node) => Remove(s.registry, u, node)
      case _ => s.registry
  {
    match s.handlers[id]
    case SignupUser(a) => assert InsertAccount(s, id, a).registry == s.registry;
    case VerifyTake(t) => assert TakeLink(s, id, t).registry == s.registry;
    case VerifyApprove(t, u) => assert ApproveAccount(s, id, u).registry == s.registry;
    case LoginRead(u) => assert CheckLogin(s, id, u, token, passwordOk).registry == s.registry;
    case LoginInsert(u, t) => assert InsertSession(s, id, u, t).registry == s.registry;
    case AuthSession(bearer, body) => assert CheckSession(s, id, bearer, body).registry == s.registry;
    case AuthAccount(u, body) => assert CheckAccount(s, id, u, body).registry == s.registry;
    case Stamp(u, change) => assert StampRecord(s, id, u, change).registry == s.registry;
    case _ =>
  }

  /** Every change of the registry is a prune, or one user's own and follows both checks of that user. */
  lemma RegistryProvenance(states: seq<State>, events: seq<Event>, k: nat)
    requires Run(states, events) && k < |events|
    requires states[k + 1].registry != states[k].registry
    ensures (events[k].PruneStep? && states[k].pruner.RegistryNext?)
      || exists u ::
          && ClearedBefore(states, k, u)
          && forall v :: v != u ==> Of(states[k + 1].registry, v) == Of(states[k].registry, v)
  {
    var s, e := states[k], events[k];
    match e
    case Section(id, token, passwordOk) =>
      RegistryStep(s, id, token, passwordOk);
      var u := s.handlers[id].username;
      Trail(states, events, k, id, u);
      assert Cleared(s.handlers[id], u);
    case _ =>
  }

  // ----- the server-wide invariant, spelled out -----

  lemma ServerWide(states: seq<State>, events: seq<Event>, k: nat)
    requires Run(states, events) && k < |states|
    ensures var s := states[k];
      && (forall u :: u in s.users ==> s.users[u].username == u)
      && (forall u, v :: u in s.users && v in s.users && u != v ==> s.users[u].email != s.users[v].email)
      && (forall t :: t in s.verifyTokens ==>
            s.verifyTokens[t] in s.users && s.users[s.verifyTokens[t]].verificationToken == Some(t))
      && (forall u :: u in s.registry ==> s.registry[u] != [] && Distinct(s.registry[u]))
      && (forall u, p :: u in s.registry && p in s.registry[u] ==> p.lastSeen <= s.clock)
      && (forall u :: u in s.registry ==> u in s.users && s.users[u].status != Pending)
      && (forall t :: t in s.sessions ==>
            s.sessions[t].username in s.users && s.users[s.sessions[t].username].status != Pending)
  {
    Invariant(states, events, k);
    var s := states[k];
    forall t | t in s.verifyTokens
      ensures s.verifyTokens[t] in s.users && s.users[s.verifyTokens[t]].verificationToken == Some(t)
    {
      assert Holds(s, Link, t, s.verifyTokens[t]);
    }
  }
}

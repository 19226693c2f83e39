/**
 * How long one login keeps a device listed.
 *
 * A session lasts a day and is not renewed by use. A device that registers with one session only
 * disappears from all answers once that session, the time a request is in flight and the time to
 * live of its last record are over, however punctual its keepalive is.
 */
module SessionEnd {
  import opened Collections
  import opened Registry
  import opened Server
  import opened ServerInvariant
  import opened ServerHistory
  import opened PruneRuns

  // ----- a session never changes -----

  /** A login's token is its own: not yet a session, and no other login has it. */
  ghost predicate LoginsApart(s: State) {
    && (forall t :: t in s.sessions ==> t in s.issued)
    && (forall id :: id in s.handlers && s.handlers[id].LoginInsert? ==>
          s.handlers[id].token in s.issued && s.handlers[id].token !in s.sessions)
    && (forall a, b :: SameLogin(s, a, b) ==> a == b)
  }

  predicate SameLogin(s: State, a: nat, b: nat) {
    && a in s.handlers && b in s.handlers && s.handlers[a].LoginInsert? && s.handlers[b].LoginInsert?
    && s.handlers[a].token == s.handlers[b].token
  }

  /** The token is drawn and no login is about to insert it. */
  ghost predicate Settled(s: State, token: string) {
    token in s.issued && forall id :: id in s.handlers && s.handlers[id].LoginInsert? ==> s.handlers[id].token != token
  }

  /** A section's effect on its own handler and on no other. */
  lemma SectionHandlers(s: State, id: nat, token: string, passwordOk: bool)
    requires id in s.handlers
    ensures RunSection(s, id, token, passwordOk).handlers
      == s.handlers[id := NextHandler(s, s.handlers[id], token, passwordOk)]
  {
    SectionMoves(s, id, token, passwordOk);
    SectionNext(s, id, token, passwordOk);
  }

  lemma LoginSection(s: State, id: nat, token: string, passwordOk: bool)
    requires LoginsApart(s) && id in s.handlers && token !in s.issued
    ensures LoginsApart(RunSection(s, id, token, passwordOk))
  {
    var t := RunSection(s, id, token, passwordOk);
    var next := NextHandler(s, s.handlers[id], token, passwordOk);
    SectionHandlers(s, id, token, passwordOk);
    SectionSessions(s, id, token, passwordOk);
    SectionClock(s, id, token, passwordOk);
    hide RunSection, NextHandler;
    forall a, b | SameLogin(t, a, b)
      ensures a == b
    {
      assert a != id && b != id ==> SameLogin(s, a, b);
    }
    forall k | k in t.handlers && t.handlers[k].LoginInsert?
      ensures t.handlers[k].token in t.issued && t.handlers[k].token !in t.sessions
    {
      assert k != id && s.handlers[id].LoginInsert? && s.handlers[k].token == s.handlers[id].token
        ==> SameLogin(s, k, id);
    }
  }

  lemma LoginStep(s: State, e: Event)
    requires LoginsApart(s) && Enabled(s, e)
    ensures LoginsApart(Step(s, e))
  {
    match e
    case Section(id, token, passwordOk) => LoginSection(s, id, token, passwordOk);
    case Arrive(id, request, token) => LoginArrives(s, id, request, token);
    case Tick(_) => LoginIdle(s, Step(s, e));
    case Block(_) => LoginIdle(s, Step(s, e));
    case PruneStep => LoginIdle(s, Step(s, e));
  }

  lemma LoginArrives(s: State, id: nat, request: Request, token: string)
    requires LoginsApart(s) && id !in s.handlers
    ensures LoginsApart(Begin(s, id, request, token))
  {
    var t := Begin(s, id, request, token);
    assert !FirstHandler(request, token).LoginInsert?;
    assert forall a, b :: SameLogin(t, a, b) ==> SameLogin(s, a, b);
  }

  lemma LoginIdle(s: State, t: State)
    requires LoginsApart(s) && t.handlers == s.handlers && t.issued == s.issued && t.sessions.Keys <= s.sessions.Keys
    ensures LoginsApart(t)
  {
    assert forall a, b :: SameLogin(t, a, b) ==> SameLogin(s, a, b);
  }

  lemma LoginsAtStart(states: seq<State>, events: seq<Event>)
    requires Run(states, events)
    ensures LoginsApart(states[0])
  {
  }

  lemma {:induction false} LoginsStayApart(states: seq<State>, events: seq<Event>, k: nat)
    requires Run(states, events) && k < |states|
    ensures LoginsApart(states[k])
  {
    hide Run, LoginsApart, Step, Enabled;
    if k == 0 {
      LoginsAtStart(states, events);
    } else {
      LastStep(states, events, k);
      LoginsStayApart(states, events, k - 1);
      LoginStep(states[k - 1], events[k - 1]);
    }
  }

  lemma SettledSection(s: State, id: nat, drawn: string, passwordOk: bool, token: string)
    requires Settled(s, token) && id in s.handlers && drawn !in s.issued
    ensures Settled(RunSection(s, id, drawn, passwordOk), token)
  {
    SectionHandlers(s, id, drawn, passwordOk);
    SectionClock(s, id, drawn, passwordOk);
    hide RunSection, NextHandler;
  }

  lemma SettledStep(s: State, e: Event, token: string)
    requires Settled(s, token) && Enabled(s, e)
    ensures Settled(Step(s, e), token)
  {
    match e
    case Section(id, drawn, passwordOk) => SettledSection(s, id, drawn, passwordOk, token);
    case _ =>
  }

  lemma SettledSession(s: State, e: Event, token: string, r: SessionRecord)
    requires Settled(s, token) && Enabled(s, e) && SessionAs(s, token, r)
    ensures SessionAs(Step(s, e), token, r)
  {
    match e
    case Section(id, drawn, passwordOk) => SectionSessions(s, id, drawn, passwordOk);
    case _ =>
  }

  lemma NowSettled(s: State, token: string)
    requires LoginsApart(s) && token in s.sessions
    ensures Settled(s, token)
  {
  }

  /** The session of this token, if it is there, is this one. */
  predicate SessionAs(s: State, token: string, r: SessionRecord) {
    token in s.sessions ==> s.sessions[token] == r
  }

  /** A session's expiry is fixed when it is created: whenever it is there, it is the same. */
  lemma {:induction false} SessionStays(states: seq<State>, events: seq<Event>, i: nat, j: nat, token: string)
    requires Run(states, events) && i <= j < |states| && token in states[i].sessions
    ensures Settled(states[j], token) && SessionAs(states[j], token, states[i].sessions[token])
  {
    hide Run, Settled, Step, Enabled;
    if i == j {
      LoginsStayApart(states, events, i);
      NowSettled(states[i], token);
    } else {
      LastStep(states, events, j);
      SessionStays(states, events, i, j - 1, token);
      SettledStep(states[j - 1], events[j - 1], token);
      SettledSession(states[j - 1], events[j - 1], token, states[i].sessions[token]);
    }
  }

  lemma SessionFixed(states: seq<State>, events: seq<Event>, i: nat, j: nat, token: string)
    requires Run(states, events) && i < |states| && j < |states|
    requires token in states[i].sessions && token in states[j].sessions
    ensures states[i].sessions[token] == states[j].sessions[token]
  {
    if i <= j {
      SessionStays(states, events, i, j, token);
    } else {
      SessionStays(states, events, j, i, token);
    }
  }

  // ----- a device with one session -----

  /** The registration of this device of this user, past its session check. */
  predicate Enrolling(h: Handler, u: string, node: string) {
    match h
    case AuthAccount(_, body) => body.Some? && body.value.Enrol? && body.value.username == u
      && body.value.nodeId == node
    case Stamp(v, change) => change.Enrol? && v == u && change.nodeId == node
    case RegistryWrite(v, record) => v == u && record.nodeId == node
    case _ => false
  }

  /** A registration of the device passes its session check in this step, by this token. */
  predicate Passes(s: State, e: Event, id: nat, token: string, u: string, node: string) {
    && e.Section? && e.id == id && id in s.handlers && s.handlers[id].AuthSession? && s.handlers[id].bearer == token
    && Enrolling(NextHandler(s, s.handlers[id], e.token, e.passwordOk), u, node)
  }

  /** The device registers with this session only. */
  ghost predicate OneSession(states: seq<State>, events: seq<Event>, token: string, u: string, node: string) {
    forall i: nat, id, other :: i < |events| && i < |states| && Passes(states[i], events[i], id, other, u, node)
      ==> other == token
  }

  predicate Writes(s: State, e: Event, id: nat, u: string, node: string) {
    && e.Section? && e.id == id && id in s.handlers
    && s.handlers[id].RegistryWrite? && Enrolling(s.handlers[id], u, node)
  }

  /** From its session check to its write a registration of the device takes at most `flight` seconds. */
  ghost predicate InTime(states: seq<State>, events: seq<Event>, flight: nat, token: string, u: string, node: string) {
    forall i: nat, j: nat, id ::
      && i < j < |events| && j < |states| && Passes(states[i], events[i], id, token, u, node)
      && Writes(states[j], events[j], id, u, node)
      ==> states[j].clock <= states[i].clock + flight
  }

  ghost predicate PassedBefore(states: seq<State>, events: seq<Event>, k: nat, id: nat, u: string, node: string) {
    exists i: nat, token :: i < k && i < |events| && i < |states| && Passes(states[i], events[i], id, token, u, node)
  }

  /** The handler was already past its session check before this step, or passes it now. */
  ghost predicate EnrolsSince(s: State, e: Event, id: nat, u: string, node: string) {
    && id in s.handlers
    && (Enrolling(s.handlers[id], u, node)
        || (s.handlers[id].AuthSession? && Passes(s, e, id, s.handlers[id].bearer, u, node)))
  }

  lemma EnrolBySection(s: State, who: nat, token: string, passwordOk: bool, id: nat, h: Handler, u: string,
                       node: string)
    requires who in s.handlers && Enrolling(h, u, node)
    requires HandlerAt(RunSection(s, who, token, passwordOk), id) == Some(h)
    ensures EnrolsSince(s, Section(who, token, passwordOk), id, u, node)
  {
    SectionHandlers(s, who, token, passwordOk);
    hide RunSection, NextHandler;
  }

  lemma EnrolNotNew(s: State, t: State, who: nat, request: Request, token: string, id: nat, u: string, node: string)
    requires who !in s.handlers && t == Begin(s, who, request, token)
    requires id in t.handlers && Enrolling(t.handlers[id], u, node)
    ensures id in s.handlers && s.handlers[id] == t.handlers[id]
  {
    assert !Enrolling(FirstHandler(request, token), u, node);
  }

  lemma EnrolStep(s: State, e: Event, id: nat, u: string, node: string)
    requires Enabled(s, e) && id in Step(s, e).handlers && Enrolling(Step(s, e).handlers[id], u, node)
    ensures EnrolsSince(s, e, id, u, node)
  {
    hide Enrolling, RunSection, Begin, Passes;
    match e
    case Section(who, token, passwordOk) =>
      EnrolBySection(s, who, token, passwordOk, id, Step(s, e).handlers[id], u, node);
    case Arrive(who, request, token) => EnrolNotNew(s, Step(s, e), who, request, token, id, u, node);
    case Tick(_) =>
    case Block(_) =>
    case PruneStep =>
  }

  lemma PassedEarlier(states: seq<State>, events: seq<Event>, k: nat, id: nat, u: string, node: string)
    requires PassedBefore(states, events, k, id, u, node)
    ensures PassedBefore(states, events, k + 1, id, u, node)
  {
    hide Passes;
  }

  lemma PassedNow(states: seq<State>, events: seq<Event>, k: nat, id: nat, u: string, node: string)
    requires k < |events| && k < |states| && id in states[k].handlers && states[k].handlers[id].AuthSession?
    requires Passes(states[k], events[k], id, states[k].handlers[id].bearer, u, node)
    ensures PassedBefore(states, events, k + 1, id, u, node)
  {
    hide Passes;
  }

  lemma NoHandlersYet(states: seq<State>, events: seq<Event>)
    requires Run(states, events)
    ensures states[0].handlers == map[]
  {
  }

  lemma {:induction false} EnrollingPassed(states: seq<State>, events: seq<Event>, k: nat, id: nat, u: string,
      node: string)
    requires Run(states, events) && k < |states| && id in states[k].handlers
      && Enrolling(states[k].handlers[id], u, node)
    ensures PassedBefore(states, events, k, id, u, node)
  {
    hide Run, Step, Enabled, Enrolling, Passes, PassedBefore;
    if k == 0 {
      NoHandlersYet(states, events);
    } else {
      LastStep(states, events, k);
      EnrolStep(states[k - 1], events[k - 1], id, u, node);
      if Enrolling(states[k - 1].handlers[id], u, node) {
        EnrollingPassed(states, events, k - 1, id, u, node);
        PassedEarlier(states, events, k - 1, id, u, node);
      } else {
        PassedNow(states, events, k - 1, id, u, node);
      }
    }
  }

  /** Every record of the device was seen by this time at the latest. */
  ghost predicate SeenBy(r: Registry, u: string, node: string, last: nat) {
    forall p :: p in Of(r, u) && p.nodeId == node ==> p.lastSeen <= last
  }

  lemma SmallerSeen(r: Registry, t: Registry, u: string, node: string, last: nat)
    requires SeenBy(r, u, node, last) && forall p :: p in Of(t, u) ==> p in Of(r, u)
    ensures SeenBy(t, u, node, last)
  {
  }

  lemma RegistrySeen(s: State, e: Event, u: string, node: string, last: nat)
    requires Enabled(s, e) && SeenBy(s.registry, u, node, last)
    requires forall id :: Writes(s, e, id, u, node) ==> s.handlers[id].record.lastSeen <= last
    ensures SeenBy(Step(s, e).registry, u, node, last)
  {
    match e
    case Section(id, token, passwordOk) =>
      RegistryStep(s, id, token, passwordOk);
      match s.handlers[id] {
        case RegistryWrite(v, record) =>
          assert v == u && record.nodeId == node ==> Writes(s, e, id, u, node);
        case RegistryRemove(v, other) => SmallerSeen(s.registry, Remove(s.registry, v, other), u, node, last);
        case _ =>
      }
    case PruneStep =>
      if s.pruner.RegistryNext? {
        SmallerSeen(s.registry, Prune(s.registry, s.pruner.cutoff), u, node, last);
      }
    case _ =>
  }

  /** A registration that writes was stamped while its one session lasted, or shortly after. */
  lemma WrittenInTime(states: seq<State>, events: seq<Event>, at: nat, token: string, u: string, node: string,
      flight: nat,
                      k: nat, id: nat)
    requires Run(states, events) && at < |states| && token in states[at].sessions && k < |events|
    requires OneSession(states, events, token, u, node) && InTime(states, events, flight, token, u, node)
    requires Writes(states[k], events[k], id, u, node)
    ensures states[k].handlers[id].record.lastSeen <= states[at].sessions[token].expiresAt + flight
  {
    EnrollingPassed(states, events, k, id, u, node);
    var i: nat, other :| i < k && i < |events| && i < |states| && Passes(states[i], events[i], id, other, u, node);
    assert other == token;
    assert states[k].clock <= states[i].clock + flight;
    Invariant(states, events, k);
    assert HandlerOk(states[k], states[k].handlers[id]);
    assert token in states[i].sessions && states[i].clock <= states[i].sessions[token].expiresAt;
    SessionFixed(states, events, at, i, token);
  }

  lemma {:induction false} AlwaysSeen(states: seq<State>, events: seq<Event>, at: nat, token: string, u: string,
      node: string,
                                      flight: nat, k: nat)
    requires Run(states, events) && at < |states| && token in states[at].sessions && k < |states|
    requires OneSession(states, events, token, u, node) && InTime(states, events, flight, token, u, node)
    ensures SeenBy(states[k].registry, u, node, states[at].sessions[token].expiresAt + flight)
  {
    if k == 0 {
    } else {
      LastStep(states, events, k);
      AlwaysSeen(states, events, at, token, u, node, flight, k - 1);
      var s, e, last := states[k - 1], events[k - 1], states[at].sessions[token].expiresAt + flight;
      forall id | Writes(s, e, id, u, node)
        ensures s.handlers[id].record.lastSeen <= last
      {
        WrittenInTime(states, events, at, token, u, node, flight, k - 1, id);
      }
      RegistrySeen(s, e, u, node, last);
    }
  }

  /**
   * A device that registers with one session only, and whose requests take at most `flight` seconds
   * from their session check to their write, is in no answer once the session has been over for
   * `flight` seconds and the time to live, however often it registers.
   */
  lemma GoneAfterTheSession(states: seq<State>, events: seq<Event>, at: nat, token: string, u: string, node: string,
                            flight: nat, k: nat)
    requires Run(states, events) && at < |states| && token in states[at].sessions && k < |states|
    requires OneSession(states, events, token, u, node) && InTime(states, events, flight, token, u, node)
    requires states[k].clock > states[at].sessions[token].expiresAt + flight + PEER_TTL_SECS
    ensures forall p :: p in Fetch(states[k].registry, u, SaturatingCutoff(states[k].clock)) ==> p.nodeId != node
  {
    AlwaysSeen(states, events, at, token, u, node, flight, k);
    assert forall p ::
      p in Fetch(states[k].registry, u, SaturatingCutoff(states[k].clock)) ==> p in Of(states[k].registry, u);
  }
}

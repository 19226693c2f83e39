/**
 * The pruning task inside the whole server.
 *
 * Pruning the registry can never be seen (module RegistryRun). Pruning sessions can, at one instant
 * only: authenticate accepts a session in the very second it expires, the sweep drops it then. The
 * main result is the exact condition on a run for all of its prunes to be unobservable.
 */
module PruneRuns {
  import opened Collections
  import opened Registry
  import RegistryRun
  import opened Server
  import opened ServerInvariant
  import opened ServerHistory

  // ----- what accounts and tokens do is independent of pruning -----

  /** Handlers of signup, verify and login. */
  predicate AboutAccounts(h: Handler) {
    h.SignupUser? || h.SignupLink? || h.VerifyTake? || h.VerifyApprove? || h.LoginRead? || h.LoginInsert?
  }

  ghost predicate SameKind(a: Handler, b: Handler) {
    a == b || (!AboutAccounts(a) && !AboutAccounts(b))
  }

  /** What signup, verify and login read and write, besides their own handlers. */
  function AccountView(s: State): (map<string, UserAccount>, map<string, string>, nat, set<string>) {
    (s.users, s.verifyTokens, s.clock, s.issued)
  }

  function HandlerAt(s: State, id: nat): Option<Handler> {
    if id in s.handlers then Some(s.handlers[id]) else None
  }

  /** The accounts of the two states agree, and so does this handler. */
  ghost predicate AgreeAt(s: State, t: State, id: nat) {
    (AccountView(s), HandlerAt(s, id)) == (AccountView(t), HandlerAt(t, id))
  }

  ghost predicate Agree(s: State, t: State) {
    AccountView(s) == AccountView(t)
  }

  /** The two states agree on accounts, links, time and drawn tokens, and on every handler about accounts. */
  ghost predicate SameAccounts(s: State, t: State) {
    && Agree(s, t)
    && (forall id :: id in s.handlers <==> id in t.handlers)
    && (forall id :: id in s.handlers && id in t.handlers ==> SameKind(s.handlers[id], t.handlers[id]))
  }

  lemma LinkAlike(s: State, t: State, id: nat, token: string, u: string)
    requires Agree(s, t)
    ensures AgreeAt(Linked(s, id, token, u), Linked(t, id, token, u), id)
  {
  }

  lemma TakeAlike(s: State, t: State, id: nat, token: string)
    requires Agree(s, t)
    ensures AgreeAt(TakeLink(s, id, token), TakeLink(t, id, token), id)
  {
  }

  lemma ApproveAlike(s: State, t: State, id: nat, u: string)
    requires Agree(s, t)
    ensures AgreeAt(ApproveAccount(s, id, u), ApproveAccount(t, id, u), id)
  {
  }

  lemma LoginAlike(s: State, t: State, id: nat, u: string, token: string, passwordOk: bool)
    requires Agree(s, t)
    ensures AgreeAt(CheckLogin(s, id, u, token, passwordOk), CheckLogin(t, id, u, token, passwordOk), id)
  {
  }

  lemma SessionAlike(s: State, t: State, id: nat, u: string, token: string)
    requires Agree(s, t)
    ensures AgreeAt(InsertSession(s, id, u, token), InsertSession(t, id, u, token), id)
  {
  }

  /** Sections of the registry requests do not touch accounts and stay among themselves. */
  ghost predicate AccountsUntouched(s: State, t: State, id: nat) {
    && t.users == s.users && t.verifyTokens == s.verifyTokens && t.clock == s.clock && t.issued == s.issued
    && id in t.handlers && t.handlers == s.handlers[id := t.handlers[id]] && !AboutAccounts(t.handlers[id])
  }

  lemma RegistrySections(s: State, id: nat, token: string, passwordOk: bool)
    requires id in s.handlers && !AboutAccounts(s.handlers[id])
    ensures AccountsUntouched(s, RunSection(s, id, token, passwordOk), id)
  {
    match s.handlers[id]
    case AuthSession(bearer, body) => assert AccountsUntouched(s, CheckSession(s, id, bearer, body), id);
    case AuthAccount(u, body) => assert AccountsUntouched(s, CheckAccount(s, id, u, body), id);
    case Stamp(u, change) => assert AccountsUntouched(s, StampRecord(s, id, u, change), id);
    case RegistryWrite(u, record) =>
    case RegistryRemove(u, node) =>
    case PeersRead(u) =>
    case Done(_) =>
  }

  /** One section of the same handler, about accounts or not, moves both states alike. */
  lemma SectionAlike(s: State, t: State, id: nat, token: string, passwordOk: bool)
    requires Agree(s, t) && id in s.handlers && id in t.handlers && SameKind(s.handlers[id], t.handlers[id])
    requires id in RunSection(s, id, token, passwordOk).handlers && id in RunSection(t, id, token, passwordOk).handlers
    ensures Agree(RunSection(s, id, token, passwordOk), RunSection(t, id, token, passwordOk))
    ensures SameKind(RunSection(s, id, token, passwordOk).handlers[id],
      RunSection(t, id, token, passwordOk).handlers[id])
  {
    match s.handlers[id]
    case SignupUser(a) =>
    case SignupLink(k, u) => LinkAlike(s, t, id, k, u);
    case VerifyTake(k) => TakeAlike(s, t, id, k);
    case VerifyApprove(k, u) => ApproveAlike(s, t, id, u);
    case LoginRead(u) => LoginAlike(s, t, id, u, token, passwordOk);
    case LoginInsert(u, k) => SessionAlike(s, t, id, u, k);
    case _ =>
      RegistrySections(s, id, token, passwordOk);
      RegistrySections(t, id, token, passwordOk);
  }

  lemma PrunerFields(s: State)
    ensures Agree(RunPruner(s), s) && RunPruner(s).handlers == s.handlers
  {
    match s.pruner
    case _ =>
  }

  lemma PrunersKeepAccounts(s: State, t: State)
    requires SameAccounts(s, t)
    ensures SameAccounts(RunPruner(s), t) && SameAccounts(RunPruner(s), RunPruner(t))
  {
    PrunerFields(s);
    PrunerFields(t);
  }

  lemma SameAccountsSection(s: State, t: State, id: nat, token: string, passwordOk: bool)
    requires SameAccounts(s, t) && id in s.handlers
    ensures id in t.handlers && SameAccounts(RunSection(s, id, token, passwordOk), RunSection(t, id, token, passwordOk))
  {
    SectionMoves(s, id, token, passwordOk);
    SectionMoves(t, id, token, passwordOk);
    SectionAlike(s, t, id, token, passwordOk);
  }

  lemma SameAccountsBegin(s: State, t: State, id: nat, request: Request, token: string)
    requires SameAccounts(s, t)
    ensures SameAccounts(Begin(s, id, request, token), Begin(t, id, request, token))
  {
  }

  /** Whatever the sessions and registries: the same events stay enabled and the accounts stay the same. */
  lemma SameAccountsStep(s: State, t: State, e: Event)
    requires SameAccounts(s, t) && Enabled(s, e)
    ensures Enabled(t, e) && SameAccounts(Step(s, e), Step(t, e))
  {
    match e
    case Arrive(id, request, token) => SameAccountsBegin(s, t, id, request, token);
    case Section(id, token, passwordOk) => SameAccountsSection(s, t, id, token, passwordOk);
    case PruneStep => PrunersKeepAccounts(s, t);
    case _ =>
  }

  // ----- the simulation: a run with prunes against the run without -----

  /** The same reply, lists of peers counting as maps. */
  ghost predicate SameReply(a: Handler, b: Handler) {
    a == b || (a.Done? && b.Done? && a.reply.Listed? && b.reply.Listed?
               && Distinct(a.reply.peers) && Distinct(b.reply.peers) && ById(a.reply.peers) == ById(b.reply.peers))
  }

  ghost predicate SameReplies(s: State, t: State) {
    && (forall id :: id in s.handlers <==> id in t.handlers)
    && (forall id :: id in s.handlers && id in t.handlers ==> SameReply(s.handlers[id], t.handlers[id]))
  }

  /** The pruned state has no session of its own, and lacks only sessions whose time has come. */
  ghost predicate SessionsClose(s: State, t: State) {
    && (forall k :: k in s.sessions ==> k in t.sessions && t.sessions[k] == s.sessions[k])
    && (forall k :: k in t.sessions && t.sessions[k].expiresAt > t.clock ==> k in s.sessions)
  }

  /** `s` has been pruned, `t` has not. */
  ghost predicate Rel(s: State, t: State) {
    && SameAccounts(s, t)
    && SameReplies(s, t)
    && RegistryRun.SameLive(s.registry, t.registry, t.clock)
    && SessionsClose(s, t)
    && PrunerOk(s)
  }

  // Authentication.

  /** authenticate reads this session in the second in which it expires. */
  predicate AtBoundary(t: State, e: Event) {
    && e.Section? && e.id in t.handlers && t.handlers[e.id].AuthSession?
    && t.handlers[e.id].bearer in t.sessions
    && t.sessions[t.handlers[e.id].bearer].expiresAt == t.clock
  }

  /** Pruned and unpruned sessions give different verdicts for exactly the sessions dropped in their last second. */
  lemma VerdictsDiffer(s: State, t: State, bearer: string, body: Option<Change>)
    requires SessionsClose(s, t)
    ensures SessionVerdict(s.sessions, t.clock, bearer, body) != SessionVerdict(t.sessions, t.clock, bearer, body)
      <==> bearer in t.sessions && bearer !in s.sessions && t.sessions[bearer].expiresAt == t.clock
  {
  }

  // Sessions.

  lemma SectionSessions(s: State, id: nat, token: string, passwordOk: bool)
    requires id in s.handlers
    ensures RunSection(s, id, token, passwordOk).sessions ==
      if s.handlers[id].LoginInsert?
      then s.sessions[s.handlers[id].token := SessionRecord(s.handlers[id].username, s.clock + SESSION_TTL_SECS)]
      else s.sessions
  {
    match s.handlers[id]
    case SignupUser(a) => assert InsertAccount(s, id, a).sessions == s.sessions;
    case VerifyTake(t) => assert TakeLink(s, id, t).sessions == s.sessions;
    case VerifyApprove(t, u) => assert ApproveAccount(s, id, u).sessions == s.sessions;
    case LoginRead(u) => assert CheckLogin(s, id, u, token, passwordOk).sessions == s.sessions;
    case AuthSession(bearer, body) => assert CheckSession(s, id, bearer, body).sessions == s.sessions;
    case AuthAccount(u, body) => assert CheckAccount(s, id, u, body).sessions == s.sessions;
    case Stamp(u, change) => assert StampRecord(s, id, u, change).sessions == s.sessions;
    case _ =>
  }

  lemma SectionKeepsClose(s: State, t: State, id: nat, token: string, passwordOk: bool)
    requires Agree(s, t) && SessionsClose(s, t) && id in s.handlers && id in t.handlers
    requires SameKind(s.handlers[id], t.handlers[id])
    ensures SessionsClose(RunSection(s, id, token, passwordOk), RunSection(t, id, token, passwordOk))
  {
    SectionSessions(s, id, token, passwordOk);
    SectionSessions(t, id, token, passwordOk);
    SectionClock(t, id, token, passwordOk);
  }

  lemma SessionsStayClose(s: State, t: State, e: Event)
    requires SameAccounts(s, t) && SessionsClose(s, t) && Enabled(s, e) && Enabled(t, e) && !e.PruneStep?
    ensures SessionsClose(Step(s, e), Step(t, e))
  {
    match e
    case Section(id, token, passwordOk) => SectionKeepsClose(s, t, id, token, passwordOk);
    case Tick(_) =>
    case Arrive(_, _, _) =>
    case Block(_) =>
    case PruneStep =>
  }

  // Registry.

  lemma SectionRegistriesAlike(s: State, t: State, id: nat, token: string, passwordOk: bool)
    requires Agree(s, t) && RegistryRun.SameLive(s.registry, t.registry, t.clock)
    requires SamePlaces(s, t, id)
    ensures RegistryRun.SameLive(
      RunSection(s, id, token, passwordOk).registry, RunSection(t, id, token, passwordOk).registry, t.clock)
  {
    RegistryStep(s, id, token, passwordOk);
    RegistryStep(t, id, token, passwordOk);
    hide RunSection, RegistryRun.SameLive;
    match s.handlers[id]
    case RegistryWrite(u, record) =>
      RegistryRun.SameLiveStep(s.registry, t.registry, t.clock, RegistryRun.Put(u, record));
    case RegistryRemove(u, node) =>
      RegistryRun.SameLiveStep(s.registry, t.registry, t.clock, RegistryRun.Drop(u, node));
    case _ =>
  }

  lemma RegistriesStayAlike(s: State, t: State, e: Event)
    requires Agree(s, t) && SameReplies(s, t) && RegistryRun.SameLive(s.registry, t.registry, t.clock)
    requires Enabled(s, e) && Enabled(t, e) && !e.PruneStep?
    ensures RegistryRun.SameLive(Step(s, e).registry, Step(t, e).registry, Step(t, e).clock)
  {
    match e
    case Section(id, token, passwordOk) =>
      assert SamePlaces(s, t, id);
      SectionClock(t, id, token, passwordOk);
      hide RunSection, RegistryRun.SameLive;
      SectionRegistriesAlike(s, t, id, token, passwordOk);
    case Tick(seconds) => RegistryRun.SameLiveLater(s.registry, t.registry, t.clock, t.clock + seconds);
    case _ =>
  }

  // Replies.

  /** Both servers answer GET /peers with the same map. */
  lemma PeersAlike(s: State, t: State, u: string)
    requires RegistryRun.SameLive(s.registry, t.registry, t.clock)
    ensures SameReply(Done(Listed(Fetch(s.registry, u, SaturatingCutoff(t.clock)))),
                      Done(Listed(Fetch(t.registry, u, SaturatingCutoff(t.clock)))))
  {
    FetchRefines(s.registry, u, SaturatingCutoff(t.clock));
    FetchRefines(t.registry, u, SaturatingCutoff(t.clock));
    assert RegistryRun.Live(s.registry, u, SaturatingCutoff(t.clock))
      == RegistryRun.Live(t.registry, u, SaturatingCutoff(t.clock));
  }

  ghost predicate SamePlaces(s: State, t: State, id: nat) {
    id in s.handlers && id in t.handlers && SameReply(s.handlers[id], t.handlers[id])
  }

  /** Where the section takes its handler. */
  function NextHandler(s: State, h: Handler, token: string, passwordOk: bool): Handler {
    match h
    case SignupUser(a) => Admission(s.users, a).1
    case SignupLink(_, _) => Done(Created)
    case VerifyTake(t) => Redemption(s.verifyTokens, t).1
    case VerifyApprove(_, u) => Done(Approval(s.users, u).1)
    case LoginRead(u) => LoginVerdict(s.users, u, token, passwordOk)
    case LoginInsert(_, t) => Done(Granted(t))
    case AuthSession(bearer, body) => SessionVerdict(s.sessions, s.clock, bearer, body)
    case AuthAccount(u, body) => AccountVerdict(s.users, u, body)
    case Stamp(u, change) => Stamped(u, change, s.clock)
    case RegistryWrite(_, _) => Done(Ok)
    case RegistryRemove(_, _) => Done(Ok)
    case PeersRead(u) => Done(Listed(Fetch(s.registry, u, SaturatingCutoff(s.clock))))
    case Done(_) => h
  }

  lemma SectionNext(s: State, id: nat, token: string, passwordOk: bool)
    requires id in s.handlers
    ensures HandlerAt(RunSection(s, id, token, passwordOk), id)
      == Some(NextHandler(s, s.handlers[id], token, passwordOk))
  {
    match s.handlers[id]
    case _ =>
  }

  lemma NextAlike(s: State, t: State, h: Handler, token: string, passwordOk: bool)
    requires Agree(s, t) && RegistryRun.SameLive(s.registry, t.registry, t.clock)
    requires h.AuthSession? ==>
      SessionVerdict(s.sessions, t.clock, h.bearer, h.body) == SessionVerdict(t.sessions, t.clock, h.bearer, h.body)
    ensures SameReply(NextHandler(s, h, token, passwordOk), NextHandler(t, h, token, passwordOk))
  {
    if h.PeersRead? {
      PeersAlike(s, t, h.username);
    }
  }

  lemma MovedReplyAlike(s: State, t: State, id: nat, token: string, passwordOk: bool)
    requires Rel(s, t) && SamePlaces(s, t, id)
    requires !AtBoundary(t, Section(id, token, passwordOk))
    ensures SamePlaces(RunSection(s, id, token, passwordOk), RunSection(t, id, token, passwordOk), id)
  {
    var h := s.handlers[id];
    SectionNext(s, id, token, passwordOk);
    SectionNext(t, id, token, passwordOk);
    if h.Done? {
    } else {
      if h.AuthSession? {
        VerdictsDiffer(s, t, h.bearer, h.body);
      }
      NextAlike(s, t, h, token, passwordOk);
    }
  }

  lemma RepliesAfter(s: State, t: State, s2: State, t2: State, id: nat)
    requires SameReplies(s, t) && MovedTo(s, s2, id) && MovedTo(t, t2, id) && SamePlaces(s2, t2, id)
    ensures SameReplies(s2, t2)
  {
  }

  lemma RepliesStayAlike(s: State, t: State, e: Event)
    requires Rel(s, t) && Enabled(s, e) && Enabled(t, e) && !e.PruneStep? && !AtBoundary(t, e)
    ensures SameReplies(Step(s, e), Step(t, e))
  {
    match e
    case Section(id, token, passwordOk) =>
      SectionMoves(s, id, token, passwordOk);
      SectionMoves(t, id, token, passwordOk);
      MovedReplyAlike(s, t, id, token, passwordOk);
      RepliesAfter(s, t, RunSection(s, id, token, passwordOk), RunSection(t, id, token, passwordOk), id);
    case Arrive(id, request, token) =>
      RepliesAfter(s, t, Begin(s, id, request, token), Begin(t, id, request, token), id);
    case _ =>
  }

  lemma RelStep(s: State, t: State, e: Event)
    requires Rel(s, t) && Enabled(s, e) && !e.PruneStep? && !AtBoundary(t, e)
    ensures Enabled(t, e) && Rel(Step(s, e), Step(t, e))
  {
    SameAccountsStep(s, t, e);
    RepliesStayAlike(s, t, e);
    RegistriesStayAlike(s, t, e);
    SessionsStayClose(s, t, e);
    PrunerKept(s, e);
  }

  lemma PrunerKept(s: State, e: Event)
    requires PrunerOk(s) && Enabled(s, e) && !e.PruneStep?
    ensures PrunerOk(Step(s, e))
  {
    match e
    case Section(id, token, passwordOk) => SectionClock(s, id, token, passwordOk);
    case _ =>
  }

  /** A stage of the pruning task is invisible. */
  lemma RelPrune(s: State, t: State)
    requires Rel(s, t)
    ensures Rel(RunPruner(s), t)
  {
    PrunersKeepAccounts(s, t);
    PrunerFields(s);
    match s.pruner
    case RegistryNext(cutoff) =>
      PruneRefines(s.registry, cutoff);
      forall v
        ensures RegistryRun.Live(Prune(s.registry, cutoff), v, SaturatingCutoff(t.clock))
          == RegistryRun.Live(s.registry, v, SaturatingCutoff(t.clock))
      {
        RegistryRun.LiveAfterSweep(s.registry, cutoff, v, SaturatingCutoff(t.clock));
      }
    case SessionsNext(now) =>
    case _ =>
  }

  // ----- whole runs -----

  function WithoutPrunes(events: seq<Event>): seq<Event> {
    if events == [] then []
    else (if events[0].PruneStep? then [] else [events[0]]) + WithoutPrunes(events[1..])
  }

  /** No authenticate of the run reads a session in the second in which it expires. */
  ghost predicate Undisturbed(t: State, events: seq<Event>)
    decreases events
  {
    events != [] && Enabled(t, events[0]) ==>
      !AtBoundary(t, events[0]) && Undisturbed(Step(t, events[0]), events[1..])
  }

  /** Prunes never enable or disable anything, nor touch an account. */
  lemma {:induction false} PrunesChangeNoAccount(s: State, t: State, events: seq<Event>)
    requires SameAccounts(s, t)
    requires After(t, WithoutPrunes(events)).Some?
    ensures After(s, events).Some? && SameAccounts(After(s, events).value, After(t, WithoutPrunes(events)).value)
    decreases events
  {
    if events == [] {
    } else {
      if events[0].PruneStep? {
        assert WithoutPrunes(events) == WithoutPrunes(events[1..]);
        PrunersKeepAccounts(s, t);
        PrunesChangeNoAccount(RunPruner(s), t, events[1..]);
      } else {
        SameAccountsStep(t, s, events[0]);
        PrunesChangeNoAccount(Step(s, events[0]), Step(t, events[0]), events[1..]);
      }
    }
  }

  lemma {:induction false} Simulate(s: State, t: State, events: seq<Event>)
    requires Rel(s, t)
    requires After(s, events).Some? && After(t, WithoutPrunes(events)).Some?
    requires Undisturbed(t, WithoutPrunes(events))
    ensures Rel(After(s, events).value, After(t, WithoutPrunes(events)).value)
    decreases events
  {
    if events == [] {
    } else {
      if events[0].PruneStep? {
        assert WithoutPrunes(events) == WithoutPrunes(events[1..]);
        RelPrune(s, t);
        Simulate(RunPruner(s), t, events[1..]);
      } else {
        RelStep(s, t, events[0]);
        Simulate(Step(s, events[0]), Step(t, events[0]), events[1..]);
      }
    }
  }

  // A disturbed run: sweep the sessions just before the disturbed step.

  /** The handler has been let in by its session; nothing turns it into Unauthorized any more. */
  ghost predicate LetIn(s: State, h: Handler) {
    || (h.AuthAccount? && h.username in s.users)
    || h.Stamp? || h.RegistryWrite? || h.RegistryRemove?
    || (h.Done? && h.reply != Unauthorized)
  }

  lemma LetInStays(s: State, e: Event, id: nat)
    requires Enabled(s, e) && !e.PruneStep?
    requires id in s.handlers && LetIn(s, s.handlers[id])
    ensures id in Step(s, e).handlers && LetIn(Step(s, e), Step(s, e).handlers[id])
  {
    StepGoesForward(s, e);
    match e
    case Section(who, token, passwordOk) =>
      SectionMoves(s, who, token, passwordOk);
      if who == id {
        SectionNext(s, id, token, passwordOk);
      }
    case _ =>
  }

  lemma UnauthorizedStays(s: State, e: Event, id: nat)
    requires Enabled(s, e) && !e.PruneStep?
    requires id in s.handlers && s.handlers[id] == Done(Unauthorized)
    ensures id in Step(s, e).handlers && Step(s, e).handlers[id] == Done(Unauthorized)
  {
    match e
    case Section(who, token, passwordOk) =>
      SectionMoves(s, who, token, passwordOk);
      if who == id {
        SectionNext(s, id, token, passwordOk);
      }
    case _ =>
  }

  /** Once let in on one side and refused on the other, the handler never ends alike. */
  lemma {:induction false} NeverMeet(s: State, t: State, events: seq<Event>, id: nat)
    requires WithoutPrunes(events) == events
    requires After(s, events).Some? && After(t, events).Some?
    requires id in s.handlers && s.handlers[id] == Done(Unauthorized)
    requires id in t.handlers && LetIn(t, t.handlers[id])
    ensures !SameReplies(After(s, events).value, After(t, events).value)
    decreases events
  {
    if events == [] {
    } else {
      NoPruneHead(events);
      UnauthorizedStays(s, events[0], id);
      LetInStays(t, events[0], id);
      NeverMeet(Step(s, events[0]), Step(t, events[0]), events[1..], id);
    }
  }

  lemma {:induction false} WithoutPrunesLength(events: seq<Event>)
    ensures |WithoutPrunes(events)| <= |events|
  {
    if events == [] {
    } else {
      WithoutPrunesLength(events[1..]);
    }
  }

  lemma NoPruneHead(events: seq<Event>)
    requires WithoutPrunes(events) == events && events != []
    ensures !events[0].PruneStep? && WithoutPrunes(events[1..]) == events[1..]
  {
    WithoutPrunesLength(events[1..]);
  }

  /** A full turn of the pruning task. */
  function Swept(s: State): State {
    RunPruner(RunPruner(RunPruner(RunPruner(s))))
  }

  const TURN := [PruneStep, PruneStep, PruneStep, PruneStep]

  lemma AfterTurn(s: State, events: seq<Event>)
    ensures After(s, TURN + events) == After(Swept(s), events)
  {
    var a := RunPruner(s);
    var b := RunPruner(a);
    var c := RunPruner(b);
    AfterCons(s, PruneStep, [PruneStep, PruneStep, PruneStep] + events);
    AfterCons(a, PruneStep, [PruneStep, PruneStep] + events);
    AfterCons(b, PruneStep, [PruneStep] + events);
    AfterCons(c, PruneStep, events);
    assert TURN + events == [PruneStep] + ([PruneStep, PruneStep, PruneStep] + events);
    assert [PruneStep, PruneStep, PruneStep] + events == [PruneStep] + ([PruneStep, PruneStep] + events);
    assert [PruneStep, PruneStep] + events == [PruneStep] + ([PruneStep] + events);
  }

  lemma WithoutTurn(events: seq<Event>)
    ensures WithoutPrunes(TURN + events) == WithoutPrunes(events)
  {
    var a, b, c := [PruneStep] + events, [PruneStep, PruneStep] + events, [PruneStep, PruneStep, PruneStep] + events;
    assert (TURN + events)[1..] == c && c[1..] == b && b[1..] == a && a[1..] == events;
    assert WithoutPrunes(a) == WithoutPrunes(events);
    assert WithoutPrunes(b) == WithoutPrunes(a);
    assert WithoutPrunes(c) == WithoutPrunes(b);
  }

  lemma PrunerUnmoved(s: State, e: Event)
    requires Enabled(s, e) && !e.PruneStep?
    ensures Step(s, e).pruner == s.pruner
  {
    match e
    case Section(id, token, passwordOk) => SectionClock(s, id, token, passwordOk);
    case _ =>
  }

  /** At the boundary the swept server refuses and the other lets in. */
  lemma BoundaryParts(s: State, e: Event)
    requires Inv(s) && s.pruner.Asleep? && Enabled(s, e) && AtBoundary(s, e)
    ensures e.id in Swept(s).handlers && Enabled(Swept(s), e)
    ensures HandlerAt(Step(Swept(s), e), e.id) == Some(Done(Unauthorized))
    ensures HandlerAt(Step(s, e), e.id).Some? && LetIn(Step(s, e), HandlerAt(Step(s, e), e.id).value)
  {
    SweptAccounts(s);
    SectionNext(s, e.id, e.token, e.passwordOk);
    SectionNext(Swept(s), e.id, e.token, e.passwordOk);
    StepGoesForward(s, e);
  }

  lemma SweptAccounts(s: State)
    ensures Agree(Swept(s), s) && Swept(s).handlers == s.handlers
    ensures SameAccounts(Swept(s), s)
  {
    PrunerFields(s);
    PrunerFields(RunPruner(s));
    PrunerFields(RunPruner(RunPruner(s)));
    PrunerFields(RunPruner(RunPruner(RunPruner(s))));
  }

  lemma SweepAtBoundary(s: State, ref: seq<Event>)
    requires Inv(s) && s.pruner.Asleep?
    requires WithoutPrunes(ref) == ref && After(s, ref).Some?
    requires ref != [] && AtBoundary(s, ref[0])
    ensures After(s, TURN + ref).Some? && !SameReplies(After(s, TURN + ref).value, After(s, ref).value)
  {
    AfterTurn(s, ref);
    SweptAccounts(s);
    PrunesChangeNoAccount(Swept(s), s, ref);
    BoundaryParts(s, ref[0]);
    NoPruneHead(ref);
    NeverMeet(Step(Swept(s), ref[0]), Step(s, ref[0]), ref[1..], ref[0].id);
  }

  /** A disturbed run can be made to answer differently by one turn of the pruning task. */
  lemma {:induction false} Expose(s: State, ref: seq<Event>) returns (events: seq<Event>)
    requires Inv(s) && s.pruner.Asleep?
    requires WithoutPrunes(ref) == ref && After(s, ref).Some?
    requires !Undisturbed(s, ref)
    ensures WithoutPrunes(events) == ref
    ensures After(s, events).Some? && !SameReplies(After(s, events).value, After(s, ref).value)
    decreases ref
  {
    if AtBoundary(s, ref[0]) {
      events := TURN + ref;
      WithoutTurn(ref);
      SweepAtBoundary(s, ref);
    } else {
      NoPruneHead(ref);
      StepKeeps(s, ref[0]);
      PrunerUnmoved(s, ref[0]);
      var rest := Expose(Step(s, ref[0]), ref[1..]);
      events := [ref[0]] + rest;
      AfterCons(s, ref[0], rest);
      assert events[1..] == rest;
    }
  }

  lemma StartRelated()
    ensures Rel(START, START)
  {
  }

  /**
   * A run answers every request alike under every placing of prunes if and only if none of its
   * authentications reads a session in the very second in which it expires.
   */
  lemma PrunesUnobservableIff(ref: seq<Event>)
    requires WithoutPrunes(ref) == ref && After(START, ref).Some?
    ensures Undisturbed(START, ref) <==>
      forall events :: WithoutPrunes(events) == ref ==>
        After(START, events).Some? && SameReplies(After(START, events).value, After(START, ref).value)
  {
    StartRelated();
    if Undisturbed(START, ref) {
      forall events | WithoutPrunes(events) == ref
        ensures After(START, events).Some? && SameReplies(After(START, events).value, After(START, ref).value)
      {
        PrunesChangeNoAccount(START, START, events);
        Simulate(START, START, events);
      }
    } else {
      var events := Expose(START, ref);
    }
  }

  ghost predicate DisturbedFrom(s: State, ref: seq<Event>) {
    WithoutPrunes(ref) == ref && After(s, ref).Some? && !Undisturbed(s, ref)
  }

  lemma DisturbedCons(s: State, e: Event, ref: seq<Event>)
    requires Enabled(s, e) && !e.PruneStep? && DisturbedFrom(Step(s, e), ref)
    ensures DisturbedFrom(s, [e] + ref)
  {
    AfterCons(s, e, ref);
    assert ([e] + ref)[1..] == ref;
  }

  /** A user who holds a session in its last second and presents it. */
  lemma LastSecond(s: State, id: nat)
    requires id !in s.handlers && "y" !in s.issued
    requires "x" in s.sessions && s.sessions["x"].expiresAt == s.clock
    ensures DisturbedFrom(s, [Arrive(id, ChangeRegistry(Some("x"), None), "y"), Section(id, "y", true)])
  {
    var arrive, section := Arrive(id, ChangeRegistry(Some("x"), None), "y"), Section(id, "y", true);
    var t := Step(s, arrive);
    assert t.handlers[id] == AuthSession("x", None);
    assert AtBoundary(t, section);
    assert [section][1..] == [];
    DisturbedCons(s, arrive, [section]);
    assert [arrive] + [section] == [arrive, section];
  }

  /** Logging in from here, waiting a day and presenting the session. */
  lemma LoginAndWait(s: State) returns (ref: seq<Event>)
    requires s.users == map["a" := UserAccount("a", "e", "h", Approved, None)]
    requires s.handlers.Keys == {0} && s.issued == {} && s.clock == 0
    ensures DisturbedFrom(s, ref)
  {
    var e2, e3, e4, e5 := Arrive(1, Login("a"), "x"), Section(1, "x", true), Section(1, "y", true),
      Tick(SESSION_TTL_SECS);
    var s3 := Put(s, 1, LoginRead("a"));
    assert Step(s, e2) == s3;
    var s4 := Put(s3.(issued := {"x"}), 1, LoginInsert("a", "x"));
    assert Step(s3, e3) == s4;
    var s5 := InsertSession(s4, 1, "a", "x");
    assert Step(s4, e4) == s5;
    var s6 := s5.(clock := SESSION_TTL_SECS);
    assert Step(s5, e5) == s6;
    ref := [Arrive(2, ChangeRegistry(Some("x"), None), "y"), Section(2, "y", true)];
    LastSecond(s6, 2);
    DisturbedCons(s5, e5, ref);
    DisturbedCons(s4, e4, [e5] + ref);
    DisturbedCons(s3, e3, [e4] + ([e5] + ref));
    DisturbedCons(s, e2, [e3] + ([e4] + ([e5] + ref)));
    ref := [e2] + ([e3] + ([e4] + ([e5] + ref)));
  }

  /** Such runs exist: sign up, log in, and present the session in its last second. */
  lemma DisturbedRun() returns (ref: seq<Event>)
    ensures DisturbedFrom(START, ref)
  {
    var e0, e1 := Arrive(0, Signup("a", "e", "p", "h", true), "x"), Section(0, "x", false);
    var account := UserAccount("a", "e", "h", Approved, None);
    var s1 := Put(START, 0, SignupUser(account));
    assert Step(START, e0) == s1;
    var s2 := Put(s1.(users := map["a" := account]), 0, Done(Created));
    assert Step(s1, e1) == s2;
    ref := LoginAndWait(s2);
    DisturbedCons(s1, e1, ref);
    DisturbedCons(START, e0, [e1] + ref);
    ref := [e0] + ([e1] + ref);
  }
}
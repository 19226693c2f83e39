/**
 * The server as a program: shared maps that the locked sections of the handlers change in place.
 * Each method is one critical section; together they run any schedule, and every step of the
 * object is the step of module Server.
 */
module LiveServer {
  import opened Collections
  import opened Registry
  import opened RegistryLoops
  import opened Server

  /** Whether some account has this address: a search through all accounts. */
  method EmailInUse(users: map<string, UserAccount>, email: string) returns (taken: bool)
    ensures taken == EmailTaken(users, email)
  {
    var todo := users.Keys;
    while todo != {}
      invariant todo <= users.Keys
      invariant forall u :: u in users && u !in todo ==> users[u].email != email
      decreases |todo|
    {
      var u :| u in todo;
      if users[u].email == email {
        return true;
      }
      todo := todo - {u};
    }
    return false;
  }

  /** Drop the sessions whose expiry has come. */
  method RetainSessions(sessions: map<string, SessionRecord>, now: nat) returns (kept: map<string, SessionRecord>)
    ensures kept == PruneSessions(sessions, now)
  {
    kept := sessions;
    var todo := sessions.Keys;
    while todo != {}
      invariant todo <= sessions.Keys
      invariant kept == map t | t in sessions && (t in todo || sessions[t].expiresAt > now) :: sessions[t]
      decreases |todo|
    {
      var t :| t in todo;
      if sessions[t].expiresAt <= now {
        kept := kept - {t};
      }
      todo := todo - {t};
    }
  }

  class AppState {
    const registry: RustRegistry
    var users: map<string, UserAccount>
    var sessions: map<string, SessionRecord>
    var verifyTokens: map<string, string>
    var handlers: map<nat, Handler>
    var pruner: Pruner
    var clock: nat
    ghost var issued: set<string>

    ghost function Snapshot(): State
      reads this, registry
    {
      State(registry.lists, users, sessions, verifyTokens, handlers, pruner, clock, issued)
    }

    constructor ()
      ensures Snapshot() == START
      ensures fresh(registry)
    {
      registry := new RustRegistry();
      users, sessions, verifyTokens, handlers := map[], map[], map[], map[];
      pruner, clock := Asleep, 0;
      issued := {};
    }

    method Accept(id: nat, request: Request, token: string)
      modifies this
      ensures Snapshot() == Begin(old(Snapshot()), id, request, token)
    {
      handlers := handlers[id := FirstHandler(request, token)];
      issued := if DrawsLink(request) then issued + {token} else issued;
    }

    /** The users section of signup: both checks and the insertion under one lock. */
    method AdmitSection(id: nat, a: UserAccount)
      modifies this
      ensures Snapshot() == InsertAccount(old(Snapshot()), id, a)
    {
      var taken := EmailInUse(users, a.email);
      if a.username in users || taken {
        handlers := handlers[id := Done(Conflict)];
      } else {
        users := users[a.username := a];
        var next := if a.verificationToken.Some? then SignupLink(a.verificationToken.value, a.username)
          else Done(Created);
        handlers := handlers[id := next];
      }
    }

    method LinkSection(id: nat, token: string, username: string)
      modifies this
      ensures Snapshot() == Put(old(Snapshot()).(verifyTokens := old(verifyTokens)[token := username]), id,
        Done(Created))
    {
      verifyTokens := verifyTokens[token := username];
      handlers := handlers[id := Done(Created)];
    }

    method TakeSection(id: nat, token: string)
      modifies this
      ensures Snapshot() == TakeLink(old(Snapshot()), id, token)
    {
      if token !in verifyTokens {
        handlers := handlers[id := Done(NotFound)];
      } else {
        handlers := handlers[id := VerifyApprove(token, verifyTokens[token])];
        verifyTokens := verifyTokens - {token};
      }
    }

    method ApproveSection(id: nat, username: string)
      modifies this
      ensures Snapshot() == ApproveAccount(old(Snapshot()), id, username)
    {
      var reply := Ok;
      if username in users {
        if users[username].status == Pending {
          users := users[username := users[username].(status := Approved, verificationToken := None)];
        } else {
          reply := BadRequest;
        }
      }
      handlers := handlers[id := Done(reply)];
    }

    method LoginSection(id: nat, username: string, token: string, passwordOk: bool)
      modifies this
      ensures Snapshot() == CheckLogin(old(Snapshot()), id, username, token, passwordOk)
    {
      var status := if username in users then Some(users[username].status) else None;
      var next;
      if status.None? || !passwordOk {
        next := Done(Unauthorized);
      } else if status.value != Approved {
        next := Done(Forbidden);
      } else {
        next := LoginInsert(username, token);
        issued := issued + {token};
      }
      handlers := handlers[id := next];
    }

    method SessionSection(id: nat, username: string, token: string)
      modifies this
      ensures Snapshot() == InsertSession(old(Snapshot()), id, username, token)
    {
      sessions := sessions[token := SessionRecord(username, clock + SESSION_TTL_SECS)];
      handlers := handlers[id := Done(Granted(token))];
    }

    method BearerSection(id: nat, bearer: string, body: Option<Change>)
      modifies this
      ensures Snapshot() == CheckSession(old(Snapshot()), id, bearer, body)
    {
      var next := Done(Unauthorized);
      if bearer in sessions && clock <= sessions[bearer].expiresAt {
        next := AuthAccount(sessions[bearer].username, body);
      }
      handlers := handlers[id := next];
    }

    method AccountSection(id: nat, username: string, body: Option<Change>)
      modifies this
      ensures Snapshot() == CheckAccount(old(Snapshot()), id, username, body)
    {
      var next;
      if username !in users {
        next := Done(Unauthorized);
      } else if users[username].status != Approved {
        next := Done(Forbidden);
      } else if body.None? {
        next := Done(BadRequest);
      } else if body.value.username != username {
        next := Done(Forbidden);
      } else {
        match body.value {
          case Enrol(_, _, _, _) => next := Stamp(username, body.value);
          case Withdraw(_, node) => next := RegistryRemove(username, node);
        }
      }
      handlers := handlers[id := next];
    }

    method WriteSection(id: nat, username: string, record: PeerRecord)
      modifies this, registry
      ensures Snapshot() == Put(old(Snapshot()).(registry := Upsert(old(registry.lists), username, record)), id,
        Done(Ok))
    {
      registry.Register(username, record);
      handlers := handlers[id := Done(Ok)];
    }

    method RemoveSection(id: nat, username: string, node: string)
      modifies this, registry
      ensures Snapshot() == Put(old(Snapshot()).(registry := Remove(old(registry.lists), username, node)), id, Done(Ok))
    {
      registry.Deregister(username, node);
      handlers := handlers[id := Done(Ok)];
    }

    method PeersSection(id: nat, username: string)
      modifies this
      ensures Snapshot() == Put(old(Snapshot()), id,
        Done(Listed(Fetch(registry.lists, username, SaturatingCutoff(clock)))))
    {
      var peers := registry.ListPeers(username, clock);
      handlers := handlers[id := Done(Listed(peers))];
    }

    /** Run the next section of a handler. */
    method Serve(id: nat, token: string, passwordOk: bool)
      requires id in handlers
      modifies this, registry
      ensures Snapshot() == RunSection(old(Snapshot()), id, token, passwordOk)
    {
      match handlers[id] {
        case SignupUser(a) => AdmitSection(id, a);
        case SignupLink(t, u) => LinkSection(id, t, u);
        case VerifyTake(t) => TakeSection(id, t);
        case VerifyApprove(t, u) => ApproveSection(id, u);
        case LoginRead(u) => LoginSection(id, u, token, passwordOk);
        case LoginInsert(u, t) => SessionSection(id, u, t);
        case AuthSession(bearer, body) => BearerSection(id, bearer, body);
        case AuthAccount(u, body) => AccountSection(id, u, body);
        case Stamp(u, change) => handlers := handlers[id := Stamped(u, change, clock)];
        case RegistryWrite(u, record) => WriteSection(id, u, record);
        case RegistryRemove(u, node) => RemoveSection(id, u, node);
        case PeersRead(u) => PeersSection(id, u);
        case Done(_) =>
      }
    }

    /** One stage of the endless loop of prune_task. */
    method PruneStage()
      modifies this, registry
      ensures Snapshot() == RunPruner(old(Snapshot()))
    {
      match pruner {
        case Asleep => pruner := RegistryNext(SaturatingCutoff(clock));
        case RegistryNext(cutoff) =>
          registry.RetainLive(cutoff);
          pruner := StampNext;
        case StampNext => pruner := SessionsNext(clock);
        case SessionsNext(now) =>
          sessions := RetainSessions(sessions, now);
          pruner := Asleep;
      }
    }

    /** Any event of the transition system. */
    method Handle(e: Event)
      requires Enabled(Snapshot(), e)
      modifies this, registry
      ensures Snapshot() == Step(old(Snapshot()), e)
    {
      match e {
        case Tick(seconds) => clock := clock + seconds;
        case Arrive(id, request, token) => Accept(id, request, token);
        case Section(id, token, passwordOk) => Serve(id, token, passwordOk);
        case Block(u) =>
          if u in users {
            users := users[u := users[u].(status := Blocked)];
          }
        case PruneStep => PruneStage();
      }
    }
  }
}

/**
 * Runs of the registry: any sequence of critical sections, in the order in which the lock was taken.
 *
 * Two results: the Rust and the Python registry answer every run identically, and pruning cannot
 * be observed, wherever and however often it happens.
 */
module RegistryRun {
  import opened Collections
  import opened Registry
  import opened RegistryLoops

  /** A critical section on the registry. */
  datatype Op =
    | Put(user: string, record: PeerRecord)   // the record was stamped before the lock was taken
    | Drop(user: string, id: string)
    | Ask(user: string)                       // reads the clock under the lock
    | Sweep(read: nat)                        // the clock was read before the lock was taken

  datatype Timed = Timed(at: nat, op: Op)

  datatype Answer = Quiet | Listed(peers: Peers) | Pruned(count: int)

  // ----- the two servers -----

  ghost function Rust(r: Registry, op: Op): Registry {
    match op
    case Put(user, record) => Upsert(r, user, record)
    case Drop(user, id) => Remove(r, user, id)
    case Ask(_) => r
    case Sweep(read) => Prune(r, SaturatingCutoff(read))
  }

  ghost function RustAnswer(r: Registry, t: Timed): Answer {
    match t.op
    case Ask(user) => Listed(Fetch(r, user, SaturatingCutoff(t.at)))
    case Sweep(_) => Pruned(Total(r) - Total(Rust(r, t.op)))
    case _ => Quiet
  }

  ghost function Python(r: Registry, op: Op): Registry {
    match op
    case Put(user, record) => Upsert(r, user, record)
    case Drop(user, id) => Remove(r, user, id)
    case Ask(_) => r
    case Sweep(read) => Prune(r, SignedCutoff(read))
  }

  ghost function PythonAnswer(r: Registry, t: Timed): Answer {
    match t.op
    case Ask(user) => Listed(Fetch(r, user, SignedCutoff(t.at)))
    case Sweep(_) => Pruned(Total(r) - Total(Python(r, t.op)))
    case _ => Quiet
  }

  ghost function RustRun(r: Registry, ops: seq<Timed>): (Registry, seq<Answer>)
    decreases ops
  {
    if ops == [] then (r, [])
    else
      var rest := RustRun(Rust(r, ops[0].op), ops[1..]);
      (rest.0, [RustAnswer(r, ops[0])] + rest.1)
  }

  ghost function PythonRun(r: Registry, ops: seq<Timed>): (Registry, seq<Answer>)
    decreases ops
  {
    if ops == [] then (r, [])
    else
      var rest := PythonRun(Python(r, ops[0].op), ops[1..]);
      (rest.0, [PythonAnswer(r, ops[0])] + rest.1)
  }

  lemma TwinStep(r: Registry, t: Timed)
    ensures Rust(r, t.op) == Python(r, t.op)
    ensures RustAnswer(r, t) == PythonAnswer(r, t)
  {
    match t.op
    case Sweep(read) =>
      forall user | user in r
        ensures Retained(r[user], SeenSince(SaturatingCutoff(read))) == Retained(r[user], SeenSince(SignedCutoff(read)))
      {
        CutoffsAgree(r[user], read);
      }
    case Ask(user) => CutoffsAgree(Of(r, user), t.at);
    case _ =>
  }

  /** The twins agree on every run: same lists in the same order, same answers, same prune counts. */
  lemma {:induction false} TwinsAgree(r: Registry, ops: seq<Timed>)
    ensures RustRun(r, ops) == PythonRun(r, ops)
    decreases ops
  {
    if ops == [] {
    } else {
      TwinStep(r, ops[0]);
      TwinsAgree(Rust(r, ops[0].op), ops[1..]);
    }
  }

  method RustSection(rust: RustRegistry, t: Timed) returns (a: Answer)
    modifies rust
    ensures rust.lists == Rust(old(rust.lists), t.op)
    ensures a == RustAnswer(old(rust.lists), t)
  {
    match t.op {
      case Put(user, record) => rust.Register(user, record); a := Quiet;
      case Drop(user, id) => rust.Deregister(user, id); a := Quiet;
      case Ask(user) => var peers := rust.ListPeers(user, t.at); a := Listed(peers);
      case Sweep(read) => var n := rust.PruneExpired(read); a := Pruned(n);
    }
  }

  method PythonSection(py: PythonRegistry, t: Timed) returns (a: Answer)
    modifies py
    ensures py.registry == Python(old(py.registry), t.op)
    ensures a == PythonAnswer(old(py.registry), t)
  {
    match t.op {
      case Put(user, record) => py.UpsertPeer(user, record); a := Quiet;
      case Drop(user, id) => py.RemovePeer(user, id); a := Quiet;
      case Ask(user) => var peers := py.FetchPeers(user, t.at); a := Listed(peers);
      case Sweep(read) => var n := py.PruneExpired(read); a := Pruned(n);
    }
  }

  /** Drive both programs through one run: their states and answers never part. */
  method Replay(rust: RustRegistry, py: PythonRegistry, ops: seq<Timed>) returns (a: seq<Answer>, b: seq<Answer>)
    requires rust.lists == py.registry
    modifies rust, py
    ensures a == b && |a| == |ops|
    ensures rust.lists == py.registry
  {
    a, b := [], [];
    for i := 0 to |ops|
      invariant a == b && |a| == i
      invariant rust.lists == py.registry
    {
      TwinStep(rust.lists, ops[i]);
      var x := RustSection(rust, ops[i]);
      var y := PythonSection(py, ops[i]);
      a, b := a + [x], b + [y];
    }
  }

  // ----- pruning is unobservable -----

  /** What a fetch at this cutoff shows of one user, as a map from device to record. */
  ghost function Live(r: Registry, user: string, cutoff: nat): map<string, PeerRecord> {
    ById(Fetch(r, user, cutoff))
  }

  lemma LiveIs(r: Registry, user: string, cutoff: nat)
    requires WellFormed(r)
    ensures Live(r, user, cutoff) == Restricted(ById(Of(r, user)), SeenSince(cutoff))
  {
    RetainRefines(Of(r, user), SeenSince(cutoff));
  }

  /** A late register replaces a live record by a stale one, which hides the device until it registers again. */
  lemma LiveAfterPut(r: Registry, user: string, record: PeerRecord, v: string, cutoff: nat)
    requires WellFormed(r)
    ensures WellFormed(Upsert(r, user, record))
    ensures Live(Upsert(r, user, record), v, cutoff)
         == if v != user then Live(r, v, cutoff)
            else if record.lastSeen >= cutoff then Live(r, v, cutoff)[record.nodeId := record]
            else Live(r, v, cutoff) - {record.nodeId}
  {
    UpsertRefines(Of(r, user), record);
    var after := Upsert(r, user, record);
    assert Of(after, v) == if v == user then Upserted(Of(r, user), record) else Of(r, v);
    LiveIs(r, v, cutoff);
    LiveIs(after, v, cutoff);
    RestrictUpdate(ById(Of(r, v)), record, cutoff);
  }

  lemma RestrictUpdate(m: map<string, PeerRecord>, record: PeerRecord, cutoff: nat)
    ensures Restricted(m[record.nodeId := record], SeenSince(cutoff))
         == if record.lastSeen >= cutoff then Restricted(m, SeenSince(cutoff))[record.nodeId := record]
            else Restricted(m, SeenSince(cutoff)) - {record.nodeId}
  {
  }

  lemma LiveAfterDrop(r: Registry, user: string, id: string, v: string, cutoff: nat)
    requires WellFormed(r)
    ensures WellFormed(Remove(r, user, id))
    ensures Live(Remove(r, user, id), v, cutoff) == Live(r, v, cutoff) - if v == user then {id} else {}
  {
    DeregisterRefines(r, user, id);
    BookOfIs(r, v);
    BookOfIs(Remove(r, user, id), v);
    LiveIs(r, v, cutoff);
    LiveIs(Remove(r, user, id), v, cutoff);
  }

  /** A prune that used an older cutoff takes nothing a later fetch would show. */
  lemma LiveAfterSweep(r: Registry, earlier: nat, v: string, cutoff: nat)
    requires WellFormed(r)
    requires earlier <= cutoff
    ensures WellFormed(Prune(r, earlier))
    ensures Live(Prune(r, earlier), v, cutoff) == Live(r, v, cutoff)
  {
    PruneRefines(r, earlier);
    BookOfIs(r, v);
    BookOfIs(Prune(r, earlier), v);
    LiveIs(r, v, cutoff);
    LiveIs(Prune(r, earlier), v, cutoff);
  }

  lemma LiveLater(r: Registry, v: string, cutoff: nat, later: nat)
    requires WellFormed(r)
    requires cutoff <= later
    ensures Live(r, v, later) == Restricted(Live(r, v, cutoff), SeenSince(later))
  {
    LiveIs(r, v, cutoff);
    LiveIs(r, v, later);
  }

  /** The simulation relation: the registries may differ only in what has already expired. */
  ghost predicate SameLive(a: Registry, b: Registry, now: nat) {
    && WellFormed(a) && WellFormed(b)
    && forall v :: Live(a, v, SaturatingCutoff(now)) == Live(b, v, SaturatingCutoff(now))
  }

  lemma SameLiveLater(a: Registry, b: Registry, now: nat, later: nat)
    requires SameLive(a, b, now)
    requires now <= later
    ensures SameLive(a, b, later)
  {
    forall v
      ensures Live(a, v, SaturatingCutoff(later)) == Live(b, v, SaturatingCutoff(later))
    {
      LiveLater(a, v, SaturatingCutoff(now), SaturatingCutoff(later));
      LiveLater(b, v, SaturatingCutoff(now), SaturatingCutoff(later));
    }
  }

  lemma SameLiveStep(a: Registry, b: Registry, now: nat, op: Op)
    requires SameLive(a, b, now)
    requires !op.Sweep?
    ensures SameLive(Rust(a, op), Rust(b, op), now)
  {
    var c := SaturatingCutoff(now);
    match op
    case Put(user, record) =>
      LiveAfterPut(a, user, record, user, c);
      LiveAfterPut(b, user, record, user, c);
      forall v
        ensures Live(Rust(a, op), v, c) == Live(Rust(b, op), v, c)
      {
        LiveAfterPut(a, user, record, v, c);
        LiveAfterPut(b, user, record, v, c);
      }
    case Drop(user, id) =>
      LiveAfterDrop(a, user, id, user, c);
      LiveAfterDrop(b, user, id, user, c);
      forall v
        ensures Live(Rust(a, op), v, c) == Live(Rust(b, op), v, c)
      {
        LiveAfterDrop(a, user, id, v, c);
        LiveAfterDrop(b, user, id, v, c);
      }
    case Ask(_) =>
  }

  lemma SameLiveSweep(a: Registry, b: Registry, now: nat, read: nat)
    requires SameLive(a, b, now)
    requires read <= now
    ensures SameLive(Prune(a, SaturatingCutoff(read)), b, now)
    ensures SameLive(b, Prune(a, SaturatingCutoff(read)), now)
  {
    PruneRefines(a, SaturatingCutoff(read));
    forall v
      ensures Live(Prune(a, SaturatingCutoff(read)), v, SaturatingCutoff(now)) == Live(a, v, SaturatingCutoff(now))
    {
      LiveAfterSweep(a, SaturatingCutoff(read), v, SaturatingCutoff(now));
    }
  }

  /** The clock does not run backwards and a prune reads it before it sweeps. Stamps of records are arbitrary. */
  ghost predicate InOrder(ops: seq<Timed>, now: nat) {
    ops != [] ==>
      && now <= ops[0].at
      && (ops[0].op.Sweep? ==> ops[0].op.read <= ops[0].at)
      && InOrder(ops[1..], ops[0].at)
  }

  ghost function WithoutSweeps(ops: seq<Timed>): seq<Timed> {
    if ops == [] then []
    else (if ops[0].op.Sweep? then [] else [ops[0]]) + WithoutSweeps(ops[1..])
  }

  /** What clients see of a run: every fetch's answer as a map. */
  ghost function Seen(r: Registry, ops: seq<Timed>): seq<map<string, PeerRecord>>
    decreases ops
  {
    if ops == [] then []
    else
      (if ops[0].op.Ask? then [Live(r, ops[0].op.user, SaturatingCutoff(ops[0].at))] else [])
      + Seen(Rust(r, ops[0].op), ops[1..])
  }

  lemma {:induction false} SimulateRuns(a: Registry, b: Registry, nowA: nat, nowB: nat, xs: seq<Timed>, ys: seq<Timed>)
    requires InOrder(xs, nowA) && InOrder(ys, nowB)
    requires SameLive(a, b, Max(nowA, nowB))
    requires WithoutSweeps(xs) == WithoutSweeps(ys)
    ensures Seen(a, xs) == Seen(b, ys)
    decreases |xs| + |ys|
  {
    if xs != [] && xs[0].op.Sweep? {
      SameLiveLater(a, b, Max(nowA, nowB), Max(xs[0].at, nowB));
      SameLiveSweep(a, b, Max(xs[0].at, nowB), xs[0].op.read);
      SimulateRuns(Rust(a, xs[0].op), b, xs[0].at, nowB, xs[1..], ys);
    } else if ys != [] && ys[0].op.Sweep? {
      SameLiveLater(a, b, Max(nowA, nowB), Max(nowA, ys[0].at));
      SameLiveSweep(b, a, Max(nowA, ys[0].at), ys[0].op.read);
      SimulateRuns(a, Rust(b, ys[0].op), nowA, ys[0].at, xs, ys[1..]);
    } else if xs != [] && ys != [] {
      assert WithoutSweeps(xs)[0] == xs[0] && WithoutSweeps(ys)[0] == ys[0];
      assert WithoutSweeps(xs)[1..] == WithoutSweeps(xs[1..]) && WithoutSweeps(ys)[1..] == WithoutSweeps(ys[1..]);
      SameLiveLater(a, b, Max(nowA, nowB), xs[0].at);
      SameLiveStep(a, b, xs[0].at, xs[0].op);
      SimulateRuns(Rust(a, xs[0].op), Rust(b, ys[0].op), xs[0].at, ys[0].at, xs[1..], ys[1..]);
    }
  }

  /** Two runs that differ only in their prunes show clients the same peers. */
  lemma PruneIsUnobservable(r: Registry, now: nat, xs: seq<Timed>, ys: seq<Timed>)
    requires WellFormed(r)
    requires InOrder(xs, now) && InOrder(ys, now)
    requires WithoutSweeps(xs) == WithoutSweeps(ys)
    ensures Seen(r, xs) == Seen(r, ys)
  {
    SimulateRuns(r, r, now, now, xs, ys);
  }
}

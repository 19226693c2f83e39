/**
 * The watcher's keepalive against the server's time to live.
 *
 * The watcher registers once, then creates an interval of 120 seconds and registers at its ticks.
 * Handlers are awaited inside the same loop and requests take time, so a tick is served late. This
 * module says exactly how late it may be, and how many ticks may fail in a row, for the device to
 * stay visible in every run of the registry, prunes and other devices included.
 */
module Keepalive {
  import opened Collections
  import opened Registry
  import opened RegistryRun

  const KEEPALIVE_INTERVAL: nat := 120

  /**
   * A device and how punctual it is. `start` is when the interval was created; the initial
   * registration, tick 0, was stamped at most `lead` seconds before that. The record of tick k is
   * in the registry at most `late` seconds after start + 120k. At most `misses` ticks in a row fail.
   */
  datatype Plan = Plan(user: string, node: string, start: nat, lead: nat, late: nat, misses: nat)

  /** The earliest stamp the registration of a tick can carry. */
  function Earliest(p: Plan, tick: nat): int {
    if tick == 0 then p.start - p.lead else p.start + KEEPALIVE_INTERVAL * tick
  }

  /** The latest moment at which the record of a tick enters the registry. */
  function Due(p: Plan, tick: nat): nat {
    if tick == 0 then p.start else p.start + KEEPALIVE_INTERVAL * tick + p.late
  }

  predicate Own(p: Plan, op: Op) {
    op.Put? && op.user == p.user && op.record.nodeId == p.node
  }

  /**
   * A run in which the device keeps its plan: `ticks[i]` is the tick served by the i-th section
   * when that section is the device's own registration, and `last` its latest successful tick.
   */
  ghost predicate OnTime(p: Plan, ops: seq<Timed>, ticks: seq<nat>, last: Option<nat>)
    requires |ticks| == |ops|
    decreases ops
  {
    ops != [] ==>
      var t, tick := ops[0], ticks[0];
      if Own(p, t.op) then
        && Earliest(p, tick) <= t.op.record.lastSeen <= t.at <= Due(p, tick)
        && (last.Some? ==> last.value < tick <= last.value + p.misses + 1)
        && OnTime(p, ops[1..], ticks[1..], Some(tick))
      else
        && t.op != Drop(p.user, p.node)
        && (last.Some? ==> t.at <= Due(p, last.value + p.misses + 1))
        && OnTime(p, ops[1..], ticks[1..], last)
  }

  /** Every fetch after the first registration lists the device. */
  ghost predicate AlwaysListed(p: Plan, r: Registry, ops: seq<Timed>, known: bool)
    decreases ops
  {
    ops != [] ==>
      var t := ops[0];
      && (known && t.op == Ask(p.user) ==> p.node in Live(r, p.user, SaturatingCutoff(t.at)))
      && AlwaysListed(p, Rust(r, t.op), ops[1..], known || Own(p, t.op))
  }

  /** The device's record is present and no older than its latest successful tick. */
  ghost predicate Fresh(p: Plan, r: Registry, last: Option<nat>) {
    && WellFormed(r)
    && (last.Some? ==>
        && p.node in ById(Of(r, p.user))
        && Earliest(p, last.value) <= ById(Of(r, p.user))[p.node].lastSeen)
  }

  predicate Punctual(p: Plan) {
    KEEPALIVE_INTERVAL * (p.misses + 1) + p.lead + p.late <= PEER_TTL_SECS
  }

  /** Before the next successful tick is due, no cutoff passes the stamp of the latest one. */
  lemma CutoffStaysBehind(p: Plan, tick: nat, now: nat)
    requires Punctual(p)
    requires now <= Due(p, tick + p.misses + 1)
    ensures SaturatingCutoff(now) <= Max(0, Earliest(p, tick))
  {
  }

  lemma FreshAfterOwn(p: Plan, r: Registry, op: Op, tick: nat)
    requires WellFormed(r)
    requires Own(p, op) && Earliest(p, tick) <= op.record.lastSeen
    ensures Fresh(p, Rust(r, op), Some(tick))
  {
    UpsertRefines(Of(r, op.user), op.record);
  }

  lemma FreshAfterSweep(p: Plan, r: Registry, read: nat, last: Option<nat>)
    requires Punctual(p)
    requires Fresh(p, r, last)
    requires last.Some? ==> read <= Due(p, last.value + p.misses + 1)
    ensures Fresh(p, Prune(r, SaturatingCutoff(read)), last)
  {
    PruneRefines(r, SaturatingCutoff(read));
    BookOfIs(r, p.user);
    BookOfIs(Prune(r, SaturatingCutoff(read)), p.user);
    if last.Some? {
      CutoffStaysBehind(p, last.value, read);
    }
  }

  lemma FreshAfterDrop(p: Plan, r: Registry, user: string, id: string, last: Option<nat>)
    requires Fresh(p, r, last)
    requires user != p.user || id != p.node
    ensures Fresh(p, Remove(r, user, id), last)
  {
    DeregisterRefines(r, user, id);
    BookOfIs(r, p.user);
    BookOfIs(Remove(r, user, id), p.user);
  }

  lemma FreshAfterOther(p: Plan, r: Registry, op: Op, last: Option<nat>, now: nat)
    requires Punctual(p)
    requires Fresh(p, r, last)
    requires !Own(p, op) && op != Drop(p.user, p.node)
    requires last.Some? ==> now <= Due(p, last.value + p.misses + 1)
    requires op.Sweep? ==> op.read <= now
    ensures Fresh(p, Rust(r, op), last)
  {
    match op
    case Put(user, record) => UpsertRefines(Of(r, user), record);
    case Drop(user, id) => FreshAfterDrop(p, r, user, id, last);
    case Ask(_) =>
    case Sweep(read) => FreshAfterSweep(p, r, read, last);
  }

  lemma {:induction false} StaysListed(p: Plan, r: Registry, now: nat, ops: seq<Timed>, ticks: seq<nat>,
      last: Option<nat>)
    requires Punctual(p)
    requires |ticks| == |ops| && InOrder(ops, now) && OnTime(p, ops, ticks, last)
    requires Fresh(p, r, last)
    ensures AlwaysListed(p, r, ops, last.Some?)
    decreases ops
  {
    if ops == [] {
    } else {
      var t := ops[0];
      if Own(p, t.op) {
        FreshAfterOwn(p, r, t.op, ticks[0]);
        StaysListed(p, Rust(r, t.op), t.at, ops[1..], ticks[1..], Some(ticks[0]));
      } else {
        FreshAfterOther(p, r, t.op, last, t.at);
        if last.Some? {
          CutoffStaysBehind(p, last.value, t.at);
          LiveIs(r, p.user, SaturatingCutoff(t.at));
        }
        StaysListed(p, Rust(r, t.op), t.at, ops[1..], ticks[1..], last);
      }
    }
  }

  /** No run in which the device keeps to these bounds ever hides it from a fetch. */
  ghost predicate NeverHidden(lead: nat, late: nat, misses: nat) {
    forall user, node, start, ops, ticks ::
      var p := Plan(user, node, start, lead, late, misses);
      |ticks| == |ops| && InOrder(ops, 0) && OnTime(p, ops, ticks, None) ==> AlwaysListed(p, map[], ops, false)
  }

  /** The latest run the plan allows: one registration, and a fetch just before the next is due. */
  lemma LatestFetch(p: Plan) returns (ops: seq<Timed>, ticks: seq<nat>)
    requires p.start == p.lead
    requires !Punctual(p)
    ensures |ticks| == |ops| && InOrder(ops, 0) && OnTime(p, ops, ticks, None)
    ensures !AlwaysListed(p, map[], ops, false)
  {
    var record := PeerRecord(p.node, [], None, 0);
    var deadline := Due(p, p.misses + 1);
    var first, second := Timed(p.lead, Put(p.user, record)), Timed(deadline, Ask(p.user));
    ops, ticks := [first, second], [0, 0];
    assert ops[1..] == [second] && ticks[1..] == [0];
    assert [second][1..] == [] && [0 as nat][1..] == [];
    var r := Rust(map[], first.op);
    assert Of(map[], p.user) == [] && Upserted([], record) == [record];
    assert Of(r, p.user) == [record] && [record][1..] == [];
    assert Fetch(r, p.user, SaturatingCutoff(deadline)) == [];
    assert !AlwaysListed(p, r, [second], true);
  }

  /** The bound is exact: 180 seconds of slack when no tick fails, 60 when single ticks may, none beyond that. */
  lemma KeepaliveBound(lead: nat, late: nat, misses: nat)
    ensures NeverHidden(lead, late, misses) <==> KEEPALIVE_INTERVAL * (misses + 1) + lead + late <= PEER_TTL_SECS
    ensures NeverHidden(lead, late, 0) <==> lead + late <= 180
    ensures NeverHidden(lead, late, 1) <==> lead + late <= 60
    ensures !NeverHidden(lead, late, 2 + misses)
  {
    BoundFor(lead, late, misses);
    BoundFor(lead, late, 0);
    BoundFor(lead, late, 1);
    BoundFor(lead, late, 2 + misses);
  }

  lemma BoundFor(lead: nat, late: nat, misses: nat)
    ensures NeverHidden(lead, late, misses) <==> KEEPALIVE_INTERVAL * (misses + 1) + lead + late <= PEER_TTL_SECS
  {
    if KEEPALIVE_INTERVAL * (misses + 1) + lead + late <= PEER_TTL_SECS {
      forall user, node, start, ops, ticks |
        var p := Plan(user, node, start, lead, late, misses);
        |ticks| == |ops| && InOrder(ops, 0) && OnTime(p, ops, ticks, None)
        ensures AlwaysListed(Plan(user, node, start, lead, late, misses), map[], ops, false)
      {
        StaysListed(Plan(user, node, start, lead, late, misses), map[], 0, ops, ticks, None);
      }
    } else {
      var p := Plan("u", "n", lead, lead, late, misses);
      var ops, ticks := LatestFetch(p);
      assert !AlwaysListed(p, map[], ops, false);
    }
  }
}

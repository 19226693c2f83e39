/**
 * The peer registry as a value: what one critical section on the shared map does.
 *
 * A registry maps a username to the list of that user's devices. Both servers keep such a list
 * and edit it with loops (RegistryLoops); this module says what those loops compute and relates
 * the lists to the phone book they stand for, a map from username to a map from node id to record.
 */
module Registry {
  import opened Collections

  const PEER_TTL_SECS: nat := 300

  datatype PeerRecord = PeerRecord(nodeId: string, addrs: seq<string>, relayUrl: Option<string>, lastSeen: nat)

  type Peers = seq<PeerRecord>
  type Registry = map<string, Peers>

  /** The tests by which records are kept: seen at or after a moment, or not this device. */
  datatype Keep = SeenSince(cutoff: int) | NotNode(nodeId: string)

  predicate Keeps(keep: Keep, p: PeerRecord) {
    match keep
    case SeenSince(cutoff) => p.lastSeen >= cutoff
    case NotNode(id) => p.nodeId != id
  }

  /** The Rust server's cutoff saturates at zero. */
  function SaturatingCutoff(now: nat): nat {
    if now < PEER_TTL_SECS then 0 else now - PEER_TTL_SECS
  }

  /** The Python server's cutoff is an ordinary subtraction and may be negative. */
  function SignedCutoff(now: nat): int {
    now - PEER_TTL_SECS
  }

  // ----- one user's list -----

  /** Position of the first record of a device, or the length of the list. */
  function IndexOf(peers: Peers, id: string): (i: nat)
    ensures i <= |peers|
    ensures i < |peers| ==> peers[i].nodeId == id
    ensures forall j :: 0 <= j < i ==> peers[j].nodeId != id
  {
    if peers == [] || peers[0].nodeId == id then 0 else 1 + IndexOf(peers[1..], id)
  }

  function Upserted(peers: Peers, record: PeerRecord): Peers {
    var i := IndexOf(peers, record.nodeId);
    if i < |peers| then peers[i := record] else peers + [record]
  }

  /** The records that pass the test, in their order. */
  function Retained(peers: Peers, keep: Keep): (r: Peers)
    ensures |r| <= |peers|
    ensures forall p :: p in r <==> p in peers && Keeps(keep, p)
  {
    if peers == [] then []
    else (if Keeps(keep, peers[0]) then [peers[0]] else []) + Retained(peers[1..], keep)
  }

  ghost predicate Distinct(peers: Peers) {
    forall i, j :: 0 <= i < j < |peers| ==> peers[i].nodeId != peers[j].nodeId
  }

  /** One user's phone book: device to record, the first record counting. */
  ghost function ById(peers: Peers): map<string, PeerRecord> {
    if peers == [] then map[] else ById(peers[1..])[peers[0].nodeId := peers[0]]
  }

  /** In a list without repeated devices the phone book has exactly the listed records. */
  lemma {:induction false} ByIdHolds(peers: Peers)
    requires Distinct(peers)
    ensures forall p :: p in peers ==> p.nodeId in ById(peers) && ById(peers)[p.nodeId] == p
    ensures forall id :: id in ById(peers) ==> ById(peers)[id] in peers && ById(peers)[id].nodeId == id
  {
    if peers == [] {
    } else {
      ByIdHolds(peers[1..]);
      assert forall p :: p in peers ==> p == peers[0] || p in peers[1..];
      assert forall p :: p in peers[1..] ==> p in peers && p.nodeId != peers[0].nodeId;
    }
  }

  lemma RetainedHead(p: PeerRecord, rest: Peers, keep: Keep)
    ensures Retained([p] + rest, keep) == (if Keeps(keep, p) then [p] else []) + Retained(rest, keep)
  {
    assert ([p] + rest)[1..] == rest;
  }

  lemma Associative(a: Peers, b: Peers, c: Peers)
    ensures a + (b + c) == (a + b) + c
  {
  }

  lemma {:induction false} RetainedConcat(a: Peers, b: Peers, keep: Keep)
    ensures Retained(a + b, keep) == Retained(a, keep) + Retained(b, keep)
  {
    if a == [] {
      assert a + b == b;
      assert Retained(a, keep) == [];
    } else {
      hide Retained, Keeps;
      var head, rest := a[0], a[1..];
      RetainedConcat(rest, b, keep);
      assert a == [head] + rest;
      Associative([head], rest, b);
      RetainedHead(head, rest + b, keep);
      RetainedHead(head, rest, keep);
      Associative(if Keeps(keep, head) then [head] else [], Retained(rest, keep), Retained(b, keep));
    }
  }

  lemma RetainedSnoc(peers: Peers, p: PeerRecord, keep: Keep)
    ensures Retained(peers + [p], keep) == Retained(peers, keep) + if Keeps(keep, p) then [p] else []
  {
    RetainedConcat(peers, [p], keep);
    RetainedHead(p, [], keep);
    assert [p] + [] == [p];
  }

  lemma DistinctCons(p: PeerRecord, rest: Peers)
    requires Distinct(rest) && forall q :: q in rest ==> q.nodeId != p.nodeId
    ensures Distinct([p] + rest)
  {
    assert forall j :: 0 <= j < |rest| ==> rest[j] in rest;
  }

  lemma {:induction false} RetainedDistinct(peers: Peers, keep: Keep)
    requires Distinct(peers)
    ensures Distinct(Retained(peers, keep))
  {
    if peers == [] {
      assert Retained(peers, keep) == [];
    } else {
      hide Retained, Keeps;
      var rest := Retained(peers[1..], keep);
      RetainedDistinct(peers[1..], keep);
      RetainedHead(peers[0], peers[1..], keep);
      assert peers == [peers[0]] + peers[1..];
      assert forall p :: p in peers[1..] ==> p.nodeId != peers[0].nodeId;
      DistinctCons(peers[0], rest);
      assert [] + rest == rest;
    }
  }

  /** Retaining by one test and then by another keeps what passes both, in either order. */
  lemma {:induction false} RetainedCommute(peers: Peers, a: Keep, b: Keep)
    ensures Retained(Retained(peers, a), b) == Retained(Retained(peers, b), a)
  {
    if peers == [] {
    } else {
      RetainedCommute(peers[1..], a, b);
      var h, ta, tb := peers[0], Retained(peers[1..], a), Retained(peers[1..], b);
      assert Keeps(a, h) ==> ([h] + ta)[1..] == ta;
      assert Keeps(b, h) ==> ([h] + tb)[1..] == tb;
      assert [] + ta == ta && [] + tb == tb;
    }
  }

  /** A phone book is determined by the records it holds. */
  lemma ByIdIs(peers: Peers, m: map<string, PeerRecord>)
    requires Distinct(peers)
    requires forall p :: p in peers ==> p.nodeId in m && m[p.nodeId] == p
    requires forall id :: id in m ==> m[id] in peers && m[id].nodeId == id
    ensures ById(peers) == m
  {
    ByIdHolds(peers);
  }

  lemma UpsertedRecords(peers: Peers, record: PeerRecord)
    requires Distinct(peers)
    ensures Distinct(Upserted(peers, record))
    ensures forall p :: p in Upserted(peers, record) <==> p == record || (p in peers && p.nodeId != record.nodeId)
  {
    var after, i := Upserted(peers, record), IndexOf(peers, record.nodeId);
    assert after[i] == record;
    assert forall k :: 0 <= k < |peers| && k != i ==> after[k] == peers[k] && peers[k].nodeId != record.nodeId;
    assert |after| == Max(|peers|, i + 1);
  }

  /** Replacing or appending a record is a map update. */
  lemma UpsertRefines(peers: Peers, record: PeerRecord)
    requires Distinct(peers)
    ensures Distinct(Upserted(peers, record))
    ensures ById(Upserted(peers, record)) == ById(peers)[record.nodeId := record]
  {
    UpsertedRecords(peers, record);
    ByIdHolds(peers);
    ByIdIs(Upserted(peers, record), ById(peers)[record.nodeId := record]);
  }

  /** Retaining a list restricts the map. */
  lemma RetainRefines(peers: Peers, keep: Keep)
    requires Distinct(peers)
    ensures Distinct(Retained(peers, keep))
    ensures ById(Retained(peers, keep)) == Restricted(ById(peers), keep)
  {
    RetainedDistinct(peers, keep);
    ByIdHolds(peers);
    ByIdIs(Retained(peers, keep), Restricted(ById(peers), keep));
  }

  ghost function Restricted(m: map<string, PeerRecord>, keep: Keep): map<string, PeerRecord> {
    map id | id in m && Keeps(keep, m[id]) :: m[id]
  }

  lemma EmptyById(peers: Peers)
    requires Distinct(peers)
    ensures ById(peers) == map[] <==> peers == []
  {
    if peers != [] {
      ByIdHolds(peers);
      assert peers[0].nodeId in ById(peers);
    }
  }

  // ----- the whole map -----

  function Of(r: Registry, user: string): Peers {
    if user in r then r[user] else []
  }

  function Upsert(r: Registry, user: string, record: PeerRecord): Registry {
    r[user := Upserted(Of(r, user), record)]
  }

  function Remove(r: Registry, user: string, id: string): Registry {
    if user !in r then r
    else
      var left := Retained(r[user], NotNode(id));
      if left == [] then r - {user} else r[user := left]
  }

  function Fetch(r: Registry, user: string, cutoff: int): Peers {
    Retained(Of(r, user), SeenSince(cutoff))
  }

  function Prune(r: Registry, cutoff: int): Registry {
    map user | user in r && Retained(r[user], SeenSince(cutoff)) != [] :: Retained(r[user], SeenSince(cutoff))
  }

  /** No empty lists and no device listed twice. */
  ghost predicate WellFormed(r: Registry) {
    forall user :: user in r ==> r[user] != [] && Distinct(r[user])
  }

  /** The phone book a registry stands for. */
  ghost function Book(r: Registry): map<string, map<string, PeerRecord>> {
    map user | user in r :: ById(r[user])
  }

  ghost function BookOf(book: map<string, map<string, PeerRecord>>, user: string): map<string, PeerRecord> {
    if user in book then book[user] else map[]
  }

  lemma BookOfIs(r: Registry, user: string)
    ensures BookOf(Book(r), user) == ById(Of(r, user))
  {
    assert ById([]) == map[];
  }

  /** Registering is a nested map update. */
  lemma RegisterRefines(r: Registry, user: string, record: PeerRecord)
    requires WellFormed(r)
    ensures WellFormed(Upsert(r, user, record))
    ensures Book(Upsert(r, user, record)) == Book(r)[user := BookOf(Book(r), user)[record.nodeId := record]]
  {
    var after := Upsert(r, user, record);
    UpsertRefines(Of(r, user), record);
    BookOfIs(r, user);
    assert after.Keys == r.Keys + {user};
    assert forall u :: u in after ==> after[u] == if u == user then Upserted(Of(r, user), record) else r[u];
  }

  lemma WithoutRefines(peers: Peers, id: string)
    requires Distinct(peers)
    ensures ById(Retained(peers, NotNode(id))) == ById(peers) - {id}
  {
    RetainedDistinct(peers, NotNode(id));
    ByIdHolds(peers);
    ByIdIs(Retained(peers, NotNode(id)), ById(peers) - {id});
  }

  /** Deregistering deletes one device of one user; a user left with no device disappears. */
  lemma DeregisterRefines(r: Registry, user: string, id: string)
    requires WellFormed(r)
    ensures WellFormed(Remove(r, user, id))
    ensures forall u :: BookOf(Book(Remove(r, user, id)), u) == BookOf(Book(r), u) - if u == user then {id} else {}
  {
    var after := Remove(r, user, id);
    RetainedDistinct(Of(r, user), NotNode(id));
    forall u
      ensures BookOf(Book(after), u) == BookOf(Book(r), u) - if u == user then {id} else {}
    {
      BookOfIs(r, u);
      BookOfIs(after, u);
      if u == user {
        WithoutRefines(Of(r, u), id);
        assert Of(after, u) == Retained(Of(r, u), NotNode(id));
      } else {
        assert Of(after, u) == Of(r, u);
      }
    }
  }

  /** A fetch answers with the live part of one user's phone book. */
  lemma FetchRefines(r: Registry, user: string, cutoff: int)
    requires WellFormed(r)
    ensures Distinct(Fetch(r, user, cutoff))
    ensures ById(Fetch(r, user, cutoff)) == Restricted(BookOf(Book(r), user), SeenSince(cutoff))
  {
    RetainRefines(Of(r, user), SeenSince(cutoff));
  }

  lemma PruneUserRefines(r: Registry, cutoff: int, user: string)
    requires WellFormed(r)
    ensures Distinct(Of(Prune(r, cutoff), user))
    ensures BookOf(Book(Prune(r, cutoff)), user) == Restricted(BookOf(Book(r), user), SeenSince(cutoff))
    ensures user in Prune(r, cutoff) <==> Restricted(BookOf(Book(r), user), SeenSince(cutoff)) != map[]
  {
    FetchRefines(r, user, cutoff);
    EmptyById(Fetch(r, user, cutoff));
    assert Of(Prune(r, cutoff), user) == Fetch(r, user, cutoff);
    BookOfIs(Prune(r, cutoff), user);
  }

  /** Pruning restricts every user's phone book to its live part and forgets users that have none. */
  lemma PruneRefines(r: Registry, cutoff: int)
    requires WellFormed(r)
    ensures WellFormed(Prune(r, cutoff))
    ensures forall u :: BookOf(Book(Prune(r, cutoff)), u) == Restricted(BookOf(Book(r), u), SeenSince(cutoff))
    ensures forall u :: u in Prune(r, cutoff) <==> Restricted(BookOf(Book(r), u), SeenSince(cutoff)) != map[]
  {
    var after := Prune(r, cutoff);
    forall u
      ensures Distinct(Of(after, u))
      ensures BookOf(Book(after), u) == Restricted(BookOf(Book(r), u), SeenSince(cutoff))
      ensures u in after <==> Restricted(BookOf(Book(r), u), SeenSince(cutoff)) != map[]
    {
      PruneUserRefines(r, cutoff, u);
    }
    assert forall u :: u in after ==> after[u] == Of(after, u) && after[u] != [];
  }

  /** A stamp is never negative, so the two cutoffs keep the same records at every time, below 300 seconds too. */
  lemma {:induction false} CutoffsAgree(peers: Peers, now: nat)
    ensures Retained(peers, SeenSince(SaturatingCutoff(now))) == Retained(peers, SeenSince(SignedCutoff(now)))
  {
    if peers == [] {
    } else {
      CutoffsAgree(peers[1..], now);
    }
  }

  // ----- counting -----

  /** Number of records in the registry. */
  ghost function Total(r: Registry): nat {
    if r == map[] then 0
    else
      var user :| user in r;
      |r[user]| + Total(r - {user})
  }

  /** The total does not depend on the order in which users are counted. */
  lemma {:induction false} TotalSplit(r: Registry, user: string)
    requires user in r
    ensures Total(r) == |r[user]| + Total(r - {user})
  {
    var first :| first in r && Total(r) == |r[first]| + Total(r - {first});
    if first != user {
      TotalSplit(r - {first}, user);
      TotalSplit(r - {user}, first);
      assert r - {first} - {user} == r - {user} - {first};
    }
  }

  /** Pruning never adds records, so the server's unsigned difference cannot underflow. */
  lemma {:induction false} PruneTotal(r: Registry, cutoff: int)
    ensures Total(Prune(r, cutoff)) <= Total(r)
  {
    if r != map[] {
      var user :| user in r;
      TotalSplit(r, user);
      PruneTotal(r - {user}, cutoff);
      assert Prune(r, cutoff) - {user} == Prune(r - {user}, cutoff);
      if user in Prune(r, cutoff) {
        TotalSplit(Prune(r, cutoff), user);
      } else {
        assert Prune(r, cutoff) - {user} == Prune(r, cutoff);
      }
    }
  }
}

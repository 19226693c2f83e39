/**
 * The two registries as they are programmed: a map of lists changed in place. Each method is one
 * critical section and is proved to compute the function of the same name in module Registry.
 */
module RegistryLoops {
  import opened Registry

  /** Keep the records that pass a test, in order. */
  method RetainPeers(peers: Peers, keep: Keep) returns (kept: Peers)
    ensures kept == Retained(peers, keep)
  {
    kept := [];
    for i := 0 to |peers|
      invariant kept == Retained(peers[..i], keep)
    {
      assert peers[..i + 1] == peers[..i] + [peers[i]];
      RetainedSnoc(peers[..i], peers[i], keep);
      if Keeps(keep, peers[i]) {
        kept := kept + [peers[i]];
      }
    }
    assert peers[..|peers|] == peers;
  }

  /** Number of records, summed list by list. */
  method CountRecords(r: Registry) returns (n: nat)
    ensures n == Total(r)
  {
    n := 0;
    var rest := r;
    while rest != map[]
      invariant n + Total(rest) == Total(r)
      decreases |rest|
    {
      var user :| user in rest;
      TotalSplit(rest, user);
      n := n + |rest[user]|;
      rest := rest - {user};
    }
  }

  /** A sweep over a snapshot of the keys, halfway: the users in `todo` are still as they were. */
  ghost function HalfPruned(before: Registry, todo: set<string>, cutoff: int): Registry {
    map user | user in before && (user in todo || user in Prune(before, cutoff)) ::
      if user in todo then before[user] else Prune(before, cutoff)[user]
  }

  /** The registry with one user's list replaced; an empty list takes the key away. */
  function Replaced(r: Registry, user: string, left: Peers): Registry {
    if left == [] then r - {user} else r[user := left]
  }

  /** Filtering one more user of the snapshot keeps the sweep on course. */
  lemma SweepOne(before: Registry, todo: set<string>, user: string, cutoff: int)
    requires user in todo && todo <= before.Keys
    ensures user in HalfPruned(before, todo, cutoff)
    ensures Replaced(HalfPruned(before, todo, cutoff), user, Retained(before[user], SeenSince(cutoff)))
         == HalfPruned(before, todo - {user}, cutoff)
    ensures HalfPruned(before, todo, cutoff)[user] == before[user]
  {
  }

  lemma SweepEnds(before: Registry, cutoff: int)
    ensures HalfPruned(before, before.Keys, cutoff) == before
    ensures HalfPruned(before, {}, cutoff) == Prune(before, cutoff)
  {
  }

  /** Replacing one list changes the number of records by the difference of the two lengths. */
  lemma ReplacedTotal(r: Registry, user: string, left: Peers)
    requires user in r
    ensures Total(Replaced(r, user, left)) == Total(r) - |r[user]| + |left|
  {
    TotalSplit(r, user);
    if left != [] {
      TotalSplit(r[user := left], user);
      assert r[user := left] - {user} == r - {user};
    }
  }

  /** The registry of the Rust server: a map from user to list of records behind one lock. */
  class RustRegistry {
    var lists: Registry

    constructor ()
      ensures lists == map[]
    {
      lists := map[];
    }

    method Register(user: string, record: PeerRecord)
      modifies this
      ensures lists == Upsert(old(lists), user, record)
    {
      var peers := if user in lists then lists[user] else [];
      var i := 0;
      while i < |peers| && peers[i].nodeId != record.nodeId
        invariant i <= |peers|
        invariant forall j :: 0 <= j < i ==> peers[j].nodeId != record.nodeId
      {
        i := i + 1;
      }
      assert i == IndexOf(peers, record.nodeId);
      if i < |peers| {
        peers := peers[i := record];
      } else {
        peers := peers + [record];
      }
      lists := lists[user := peers];
    }

    method ListPeers(user: string, now: nat) returns (peers: Peers)
      ensures peers == Fetch(lists, user, SaturatingCutoff(now))
    {
      if user in lists {
        peers := RetainPeers(lists[user], SeenSince(SaturatingCutoff(now)));
      } else {
        peers := [];
      }
    }

    method Deregister(user: string, id: string)
      modifies this
      ensures lists == Remove(old(lists), user, id)
    {
      if user in lists {
        var left := RetainPeers(lists[user], NotNode(id));
        lists := lists[user := left];
        if left == [] {
          lists := lists - {user};
          assert lists == old(lists) - {user};
        }
      }
    }

    /** Filter one user's list, dropping the user when nothing is left. */
    method RetainUser(user: string, cutoff: int)
      requires user in lists
      modifies this
      ensures lists == Replaced(old(lists), user, Retained(old(lists)[user], SeenSince(cutoff)))
    {
      var left := RetainPeers(lists[user], SeenSince(cutoff));
      if left == [] {
        lists := lists - {user};
      } else {
        lists := lists[user := left];
      }
    }

    /** Every user's list is filtered and users without live devices go. */
    method RetainLive(cutoff: int)
      modifies this
      ensures lists == Prune(old(lists), cutoff)
    {
      var todo := lists.Keys;
      SweepEnds(lists, cutoff);
      while todo != {}
        invariant todo <= old(lists).Keys
        invariant lists == HalfPruned(old(lists), todo, cutoff)
        decreases |todo|
      {
        var user :| user in todo;
        SweepOne(old(lists), todo, user, cutoff);
        RetainUser(user, cutoff);
        todo := todo - {user};
      }
    }

    /** `read` is the clock when the cutoff was taken, which happens before the lock is. */
    method PruneExpired(read: nat) returns (pruned: nat)
      modifies this
      ensures lists == Prune(old(lists), SaturatingCutoff(read))
      ensures pruned == Total(old(lists)) - Total(lists)
    {
      var before := CountRecords(lists);
      PruneTotal(lists, SaturatingCutoff(read));
      RetainLive(SaturatingCutoff(read));
      var after := CountRecords(lists);
      pruned := before - after;
    }
  }

  /** The module-level `_registry` dict of the Python server. */
  class PythonRegistry {
    var registry: Registry

    constructor ()
      ensures registry == map[]
    {
      registry := map[];
    }

    method UpsertPeer(user: string, record: PeerRecord)
      modifies this
      ensures registry == Upsert(old(registry), user, record)
    {
      if user !in registry {
        registry := registry[user := []];
      }
      var peers := registry[user];
      for i := 0 to |peers|
        invariant registry == old(registry)[user := peers] && peers == Of(old(registry), user)
        invariant forall j :: 0 <= j < i ==> peers[j].nodeId != record.nodeId
      {
        if peers[i].nodeId == record.nodeId {
          assert i == IndexOf(peers, record.nodeId);
          registry := registry[user := peers[i := record]];
          return;
        }
      }
      assert IndexOf(peers, record.nodeId) == |peers|;
      registry := registry[user := peers + [record]];
    }

    method FetchPeers(user: string, now: nat) returns (peers: Peers)
      ensures peers == Fetch(registry, user, SignedCutoff(now))
    {
      var cutoff := now - PEER_TTL_SECS;
      peers := RetainPeers(if user in registry then registry[user] else [], SeenSince(cutoff));
    }

    method RemovePeer(user: string, id: string)
      modifies this
      ensures registry == Remove(old(registry), user, id)
    {
      if user !in registry {
        return;
      }
      var left := RetainPeers(registry[user], NotNode(id));
      registry := registry[user := left];
      if registry[user] == [] {
        registry := registry - {user};
        assert registry == old(registry) - {user};
      }
    }

    /** One turn of the sweep: filter a list, count what went, delete the key of an empty list. */
    method PruneUser(user: string, cutoff: int) returns (gone: int)
      requires user in registry
      modifies this
      ensures registry == Replaced(old(registry), user, Retained(old(registry)[user], SeenSince(cutoff)))
      ensures gone == Total(old(registry)) - Total(registry)
    {
      var before := |registry[user]|;
      var left := RetainPeers(registry[user], SeenSince(cutoff));
      ReplacedTotal(registry, user, left);
      registry := registry[user := left];
      gone := before - |registry[user]|;
      if registry[user] == [] {
        registry := registry - {user};
        assert registry == old(registry) - {user};
      }
    }

    /** The dict loses keys while a snapshot of its keys is walked; the counter still adds up. */
    method PruneExpired(read: nat) returns (pruned: int)
      modifies this
      ensures registry == Prune(old(registry), SignedCutoff(read))
      ensures pruned == Total(old(registry)) - Total(registry)
    {
      var cutoff := read - PEER_TTL_SECS;
      pruned := 0;
      var todo := registry.Keys;
      SweepEnds(registry, cutoff);
      while todo != {}
        invariant todo <= old(registry).Keys
        invariant registry == HalfPruned(old(registry), todo, cutoff)
        invariant pruned == Total(old(registry)) - Total(registry)
        decreases |todo|
      {
        var user :| user in todo;
        SweepOne(old(registry), todo, user, cutoff);
        var gone := PruneUser(user, cutoff);
        pruned := pruned + gone;
        todo := todo - {user};
      }
    }
  }
}

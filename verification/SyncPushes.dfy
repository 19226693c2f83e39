/**
 * What a push sends and what comes of a pull: offers lead back to the push that was asked for, and a
 * pull that no fault interrupts is answered positively if and only if the offered name is acceptable.
 */
module SyncPushes {
  import opened Collections
  import opened Directory
  import opened Sync
  import opened SyncProofs
  import opened SyncResults

  // ----- from the start of a push to its offer -----

  lemma ImportingArises(s: Net, e: Event, id: nat)
    requires Enabled(s, e) && id in Step(s, e).pushes && Step(s, e).pushes[id].Importing?
    ensures var p := Step(s, e).pushes[id];
      (id in s.pushes && s.pushes[id] == p) || e == StartPush(id, p.node, p.name, p.peers)
  {
    match e
    case _ =>
  }

  lemma {:induction false} ImportingStarted(dirs: map<nat, Files>, states: seq<Net>, events: seq<Event>, k: nat,
      id: nat) returns (a: nat)
    requires Run(dirs, states, events) && k < |states| && id in states[k].pushes && states[k].pushes[id].Importing?
    ensures var p := states[k].pushes[id];
      a < k && a < |events| && events[a] == StartPush(id, p.node, p.name, p.peers)
  {
    hide Run, Enabled, Step, Inv;
    if k == 0 {
      NothingYet(dirs, states, events);
      assert false;
    } else {
      BoundsOf(dirs, states, events);
      StepOf(dirs, states, events, k - 1);
      ImportingArises(states[k - 1], events[k - 1], id);
      if id in states[k - 1].pushes && states[k - 1].pushes[id] == states[k].pushes[id] {
        a := ImportingStarted(dirs, states, events, k - 1, id);
      } else {
        a := k - 1;
      }
    }
  }

  lemma BoundsOf(dirs: map<nat, Files>, states: seq<Net>, events: seq<Event>)
    requires Run(dirs, states, events)
    ensures |states| == |events| + 1
  {
  }

  /**
   * Every push that notifies peers was asked for: it was started at step a for this node, name and
   * these peers, and offers the bytes that the name had at its node when they were imported at step j.
   */
  lemma PushProvenance(dirs: map<nat, Files>, states: seq<Net>, events: seq<Event>, k: nat, id: nat)
      returns (a: nat, j: nat, node: nat, data: Bytes)
    requires Run(dirs, states, events) && k < |states| && id in states[k].pushes && HasResults(states[k].pushes[id])
    ensures var p := states[k].pushes[id];
      && a < j < k && events[a] == StartPush(id, node, p.offer.fileName, p.peers)
      && p.offer.fileName in FilesOf(states[j], node) && FilesOf(states[j], node)[p.offer.fileName] == data
      && p.offer == Offer(CollectionHash(p.offer.fileName, data), p.offer.fileName)
  {
    OfferImported(dirs, states, events, k, id);
    var i: nat, bytes :|
      i < k && ImportedAt(states[i], events[i], id, states[k].pushes[id].offer, states[k].pushes[id].peers, bytes);
    j, data, node := i, bytes, states[i].pushes[id].node;
    a := ImportingStarted(dirs, states, events, j, id);
  }

  /** A push waits for its import: nothing else touches it. */
  lemma PushWaits(s: Net, e: Event, id: nat, fail: bool)
    requires Enabled(s, e) && id in s.pushes && s.pushes[id].Importing?
    requires forall f :: e != Import(id, f)
    ensures id in Step(s, e).pushes && Step(s, e).pushes[id] == s.pushes[id]
  {
    match e
    case Import(other, f) => assert other == id ==> e == Import(id, f);
    case _ =>
  }

  lemma BeginsImporting(s: Net, id: nat, node: nat, name: string, peers: seq<nat>)
    requires Enabled(s, StartPush(id, node, name, peers))
    ensures var t := Step(s, StartPush(id, node, name, peers));
      id in t.pushes && t.pushes[id] == Importing(node, name, peers)
  {
  }

  lemma {:induction false} StillImporting(dirs: map<nat, Files>, states: seq<Net>, events: seq<Event>, a: nat, j: nat,
      id: nat, node: nat, name: string, peers: seq<nat>)
    requires Run(dirs, states, events) && a < j < |states| && a < |events|
    requires events[a] == StartPush(id, node, name, peers)
    requires forall m, f :: a < m < j ==> events[m] != Import(id, f)
    ensures id in states[j].pushes && states[j].pushes[id] == Importing(node, name, peers)
  {
    hide *;
    BoundsOf(dirs, states, events);
    StepOf(dirs, states, events, j - 1);
    if j == a + 1 {
      BeginsImporting(states[a], id, node, name, peers);
    } else {
      StillImporting(dirs, states, events, a, j - 1, id, node, name, peers);
      PushWaits(states[j - 1], events[j - 1], id, false);
    }
  }

  /**
   * A push that is asked for goes out: its import offers the file, as it is at that moment, to all the
   * given peers, unless there are none, the file is gone or the import fails.
   */
  lemma PushGoesOut(dirs: map<nat, Files>, states: seq<Net>, events: seq<Event>, a: nat, j: nat, id: nat, node: nat,
      name: string, peers: seq<nat>, fail: bool)
    requires Run(dirs, states, events) && a < j < |events|
    requires events[a] == StartPush(id, node, name, peers) && events[j] == Import(id, fail)
    requires forall m, f :: a < m < j ==> events[m] != Import(id, f)
    ensures j + 1 < |states| && id in states[j + 1].pushes
    ensures var files, p := FilesOf(states[j], node), states[j + 1].pushes[id];
      if peers != [] && !fail && name in files
      then p == Notifying(Offer(CollectionHash(name, files[name]), name), peers, None, [])
        && Download(p.offer.hash) == Some(files[name])
      else p == Aborted
  {
    BoundsOf(dirs, states, events);
    StillImporting(dirs, states, events, a, j, id, node, name, peers);
    StepOf(dirs, states, events, j);
    hide Run, Inv;
  }

  // ----- a pull without faults -----

  /** The names that a pull accepts: plain, not hidden and not empty. */
  predicate Acceptable(name: string) {
    SafeName(name) && name != ""
  }

  /** How far a pull without faults has come: its export file, once there, stays. */
  ghost predicate Faultless(s: Net, cid: nat) {
    && cid in s.conns
    && var c := s.conns[cid];
      match c.pull
      case Received => true
      case Downloading => SafeName(c.offer.fileName)
      case Exporting(own, _, _) => SafeName(c.offer.fileName) && own in FilesOf(s, c.to)
      case Landing(own, _) => SafeName(c.offer.fileName) && own in FilesOf(s, c.to)
      case Replied(ok) => ok <==> Acceptable(c.offer.fileName)
  }

  lemma FaultlessOwn(s: Net, cid: nat, tmp: string, amount: nat)
    requires Inv(s) && Enabled(s, PullStep(cid, tmp, amount, false)) && Faultless(s, cid)
    ensures Faultless(RunPull(s, cid, tmp, amount, false), cid)
  {
    assert Honest(s, s.conns[cid].offer) && PullOk(s, s.conns[cid]);
    FilesAfterPull(s, cid, tmp, amount, false, s.conns[cid].to);
    hide Inv;
  }

  lemma FaultlessOther(s: Net, other: nat, tmp: string, amount: nat, fail: bool, cid: nat)
    requires Inv(s) && Enabled(s, PullStep(other, tmp, amount, fail)) && Faultless(s, cid) && other != cid
    ensures Faultless(RunPull(s, other, tmp, amount, fail), cid)
  {
    var c, d := s.conns[cid], s.conns[other];
    FilesAfterPull(s, other, tmp, amount, fail, c.to);
    if TempOf(c.pull).Some? && d.to == c.to {
      assert PullOk(s, c) && PullOk(s, d);
      assert !SameTemp(c, d);
      ExportsAreHidden(TempOf(c.pull).value);
      PullElsewhere(FilesOf(s, c.to), d.offer, d.pull, tmp, amount, fail, TempOf(c.pull).value);
    }
    hide Inv, PullNext;
  }

  /** No fault hits the pull in this step: no error of its own, and nobody deletes export files at its node. */
  predicate Spares(s: Net, e: Event, cid: nat)
    requires cid in s.conns
  {
    && (e.PullStep? && e.cid == cid ==> !e.fail)
    && (e.UserRemove? && e.node == s.conns[cid].to ==> !IsExport(e.name))
  }

  lemma FaultlessStep(s: Net, e: Event, cid: nat)
    requires Inv(s) && Enabled(s, e) && Faultless(s, cid) && Spares(s, e, cid)
    ensures Faultless(Step(s, e), cid)
    ensures Step(s, e).conns[cid].to == s.conns[cid].to && Step(s, e).conns[cid].offer == s.conns[cid].offer
  {
    match e
    case PullStep(other, tmp, amount, fail) =>
      if other == cid {
        FaultlessOwn(s, cid, tmp, amount);
      } else {
        FaultlessOther(s, other, tmp, amount, fail, cid);
      }
    case UserRemove(_, _) => assert PullOk(s, s.conns[cid]);
    case UserWrite(_, _, _) =>
    case _ =>
  }

  ghost predicate SparedSince(states: seq<Net>, events: seq<Event>, c: nat, k: nat, cid: nat) {
    forall m :: c < m < k && m < |events| && m < |states| && cid in states[m].conns
      ==> Spares(states[m], events[m], cid)
  }

  lemma FaultlessFirst(s: Net, id: nat, cid: nat)
    requires Enabled(s, Connect(id, cid))
    ensures Faultless(Step(s, Connect(id, cid)), cid)
  {
  }

  lemma {:induction false} StaysFaultless(dirs: map<nat, Files>, states: seq<Net>, events: seq<Event>, c: nat, k: nat,
      id: nat, cid: nat)
    requires Run(dirs, states, events) && c < k < |states| && c < |events| && events[c] == Connect(id, cid)
    requires SparedSince(states, events, c, k, cid)
    ensures Faultless(states[k], cid)
  {
    hide Run, Inv, Step, Enabled, Faultless;
    BoundsOf(dirs, states, events);
    StepOf(dirs, states, events, k - 1);
    if k == c + 1 {
      FaultlessFirst(states[c], id, cid);
    } else {
      StaysFaultless(dirs, states, events, c, k - 1, id, cid);
      FaultlessHere(states[k - 1], cid);
      FaultlessStep(states[k - 1], events[k - 1], cid);
    }
  }

  lemma FaultlessHere(s: Net, cid: nat)
    requires Faultless(s, cid)
    ensures cid in s.conns
  {
  }

  /**
   * Whatever runs beside it, a pull that no fault interrupts answers positively if and only if the
   * offered name is acceptable; and a positive answer means that its node has had the offered bytes.
   */
  lemma FaultlessPullAnswers(dirs: map<nat, Files>, states: seq<Net>, events: seq<Event>, c: nat, k: nat, id: nat,
      cid: nat)
    requires Run(dirs, states, events) && c < k < |states| && c < |events| && events[c] == Connect(id, cid)
    requires SparedSince(states, events, c, k, cid)
    requires cid in states[k].conns && states[k].conns[cid].pull.Replied?
    ensures states[k].conns[cid].pull.ok <==> Acceptable(states[k].conns[cid].offer.fileName)
    ensures Acceptable(states[k].conns[cid].offer.fileName)
      ==> HadBy(states, k, states[k].conns[cid].to, states[k].conns[cid].offer)
  {
    StaysFaultless(dirs, states, events, c, k, id, cid);
    if states[k].conns[cid].pull.ok {
      ReplySound(dirs, states, events, k, cid);
    }
  }
}

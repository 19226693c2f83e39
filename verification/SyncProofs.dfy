/** What every interleaving of pushes, pulls and user actions keeps, over all nodes. */
module SyncProofs {
  import opened Collections
  import opened Directory
  import opened Sync

  // ----- the invariant -----

  /** What an offer's hash and name stand for was written by a user under that name. */
  ghost predicate Honest(s: Net, offer: Offer) {
    && Download(offer.hash).Some?
    && offer.hash == CollectionHash(offer.fileName, Download(offer.hash).value)
    && (offer.fileName, Download(offer.hash).value) in s.written
  }

  /** An export in progress has a prefix of the offered bytes in its own file, unless that was removed. */
  ghost predicate PullOk(s: Net, c: Conn) {
    match c.pull
    case Exporting(tmp, data, done) =>
      && Some(data) == Download(c.offer.hash) && SafeName(c.offer.fileName) && IsExport(tmp)
      && (tmp in FilesOf(s, c.to) ==> FilesOf(s, c.to)[tmp] == data[..Upto(data, done)])
    case Landing(tmp, data) =>
      && Some(data) == Download(c.offer.hash) && SafeName(c.offer.fileName) && IsExport(tmp)
      && (tmp in FilesOf(s, c.to) ==> FilesOf(s, c.to)[tmp] == data)
    case Downloading => SafeName(c.offer.fileName)
    case _ => true
  }

  ghost predicate ConnsOk(s: Net) {
    forall cid :: cid in s.conns ==> Honest(s, s.conns[cid].offer) && PullOk(s, s.conns[cid])
  }

  ghost predicate SameTemp(a: Conn, b: Conn) {
    TempOf(a.pull).Some? && TempOf(a.pull) == TempOf(b.pull) && a.to == b.to
  }

  ghost predicate TempsOk(s: Net) {
    forall a, b :: a in s.conns && b in s.conns && SameTemp(s.conns[a], s.conns[b]) ==> a == b
  }

  ghost predicate Carries(s: Net, cid: nat, offer: Offer, peer: nat) {
    cid in s.conns && s.conns[cid].offer == offer && s.conns[cid].to == peer
  }

  /** The connection a push waits on carries its offer to the peer whose turn it is. */
  ghost predicate PushOk(s: Net, p: Push) {
    match p
    case Importing(_, name, _) => !Hidden(name)
    case Notifying(offer, peers, conn, results) =>
      && Honest(s, offer) && |results| <= |peers|
      && (conn.Some? ==> |results| < |peers| && Carries(s, conn.value, offer, peers[|results|]))
    case Finished(offer, peers, results) => Honest(s, offer) && |results| == |peers|
    case Aborted => true
  }

  ghost predicate PushesOk(s: Net) {
    forall id :: id in s.pushes ==> PushOk(s, s.pushes[id])
  }

  /** Every visible file was written by a user under its name. */
  ghost predicate FilesOk(s: Net) {
    forall node, name :: name in FilesOf(s, node) && !Hidden(name) ==> (name, FilesOf(s, node)[name]) in s.written
  }

  ghost predicate Inv(s: Net) {
    ConnsOk(s) && TempsOk(s) && PushesOk(s) && FilesOk(s)
  }

  lemma ExportsAreHidden(n: string)
    requires IsExport(n)
    ensures Hidden(n)
  {
    assert n[0] == ".dddatasync-export-"[0];
  }

  // ----- a pull step -----

  /** What a pull step does to other names than its own export and its target. */
  lemma PullElsewhere(files: Files, offer: Offer, pull: Pull, tmp: string, amount: nat, fail: bool, n: string)
    requires TempOf(pull) != Some(n) && (pull.Downloading? ==> n != tmp) && (pull.Landing? ==> n != offer.fileName)
    ensures var next := PullNext(files, offer, pull, tmp, amount, fail);
      (n in next.1 <==> n in files) && (n in files ==> next.1[n] == files[n])
  {
    match pull
    case _ =>
  }

  lemma FilesAfterPull(s: Net, cid: nat, tmp: string, amount: nat, fail: bool, node: nat)
    requires cid in s.conns
    ensures var c := s.conns[cid];
      FilesOf(RunPull(s, cid, tmp, amount, fail), node)
      == if node == c.to then PullNext(FilesOf(s, c.to), c.offer, c.pull, tmp, amount, fail).1 else FilesOf(s, node)
  {
  }

  lemma NextPullOk(s: Net, cid: nat, tmp: string, amount: nat, fail: bool)
    requires Inv(s) && Enabled(s, PullStep(cid, tmp, amount, fail))
    ensures var t := RunPull(s, cid, tmp, amount, fail); PullOk(t, t.conns[cid])
  {
    var c := s.conns[cid];
    assert PullOk(s, c);
    match c.pull
    case Exporting(own, data, done) => assert data[..|data|] == data;
    case _ =>
  }

  lemma PullKeepsConns(s: Net, cid: nat, tmp: string, amount: nat, fail: bool)
    requires Inv(s) && Enabled(s, PullStep(cid, tmp, amount, fail))
    ensures ConnsOk(RunPull(s, cid, tmp, amount, fail))
  {
    var t := RunPull(s, cid, tmp, amount, fail);
    forall k | k in t.conns
      ensures Honest(t, t.conns[k].offer) && PullOk(t, t.conns[k])
    {
      assert Honest(s, s.conns[k].offer);
      if k == cid {
        NextPullOk(s, cid, tmp, amount, fail);
      }
    }
  }

  lemma PullKeepsTemps(s: Net, cid: nat, tmp: string, amount: nat, fail: bool)
    requires Inv(s) && Enabled(s, PullStep(cid, tmp, amount, fail))
    ensures TempsOk(RunPull(s, cid, tmp, amount, fail))
  {
    var t, c := RunPull(s, cid, tmp, amount, fail), s.conns[cid];
    assert PullOk(s, c);
    forall a, b | a in t.conns && b in t.conns && SameTemp(t.conns[a], t.conns[b])
      ensures a == b
    {
      assert PullOk(s, s.conns[a]) && PullOk(s, s.conns[b]);
      assert SameTemp(s.conns[a], s.conns[b]) ==> a == b;
    }
  }

  /** The only visible name a pull changes is the offered one, and only to the offered bytes. */
  lemma PullLands(s: Net, cid: nat, tmp: string, amount: nat, fail: bool, n: string)
    requires Inv(s) && Enabled(s, PullStep(cid, tmp, amount, fail)) && !Hidden(n)
    ensures var c := s.conns[cid];
      var files, next := FilesOf(s, c.to), PullNext(FilesOf(s, c.to), c.offer, c.pull, tmp, amount, fail);
      || (n in next.1 && n == c.offer.fileName && Some(next.1[n]) == Download(c.offer.hash) && next.0 == Replied(true))
      || ((n in next.1 <==> n in files) && (n in files ==> next.1[n] == files[n]))
  {
    var c := s.conns[cid];
    assert PullOk(s, c);
    ExportsAreHidden(tmp);
    if TempOf(c.pull).Some? {
      ExportsAreHidden(TempOf(c.pull).value);
    }
    if c.pull.Landing? && n == c.offer.fileName {
    } else {
      PullElsewhere(FilesOf(s, c.to), c.offer, c.pull, tmp, amount, fail, n);
    }
  }

  lemma PullKeepsFiles(s: Net, cid: nat, tmp: string, amount: nat, fail: bool)
    requires Inv(s) && Enabled(s, PullStep(cid, tmp, amount, fail))
    ensures FilesOk(RunPull(s, cid, tmp, amount, fail))
  {
    var t := RunPull(s, cid, tmp, amount, fail);
    forall node, name | name in FilesOf(t, node) && !Hidden(name)
      ensures (name, FilesOf(t, node)[name]) in t.written
    {
      FilesAfterPull(s, cid, tmp, amount, fail, node);
      PullLands(s, cid, tmp, amount, fail, name);
      assert Honest(s, s.conns[cid].offer);
    }
  }

  // ----- users -----

  lemma FilesFrame(s: Net, t: Net)
    requires FilesOk(s) && t.dirs == s.dirs && t.written == s.written
    ensures FilesOk(t)
  {
    assert forall node :: FilesOf(t, node) == FilesOf(s, node);
  }

  lemma WriteKeeps(s: Net, node: nat, name: string, data: Bytes)
    requires Inv(s) && !Hidden(name)
    ensures Inv(Step(s, UserWrite(node, name, data)))
  {
    var t := Step(s, UserWrite(node, name, data));
    forall k, n | IsExport(n) && n in FilesOf(t, k)
      ensures n in FilesOf(s, k) && FilesOf(t, k)[n] == FilesOf(s, k)[n]
    {
      ExportsAreHidden(n);
    }
    forall k, n | n in FilesOf(t, k) && !Hidden(n)
      ensures (n, FilesOf(t, k)[n]) in t.written
    {
      assert k != node || n != name ==> n in FilesOf(s, k) && FilesOf(t, k)[n] == FilesOf(s, k)[n];
    }
  }

  lemma RemoveKeeps(s: Net, node: nat, name: string)
    requires Inv(s)
    ensures Inv(Step(s, UserRemove(node, name)))
  {
    var t := Step(s, UserRemove(node, name));
    assert forall k, n :: n in FilesOf(t, k) ==> n in FilesOf(s, k) && FilesOf(t, k)[n] == FilesOf(s, k)[n];
    assert FilesOk(t);
  }

  // ----- pushes -----

  lemma SetPushKeeps(s: Net, id: nat, p: Push)
    requires Inv(s) && PushOk(s, p)
    ensures Inv(SetPush(s, id, p))
  {
    var t := SetPush(s, id, p);
    forall k | k in t.pushes
      ensures PushOk(t, t.pushes[k])
    {
      assert PushOk(s, if k == id then p else s.pushes[k]);
    }
    assert forall node :: FilesOf(t, node) == FilesOf(s, node);
    FilesFrame(s, t);
  }

  lemma NewConnKeeps(s: Net, cid: nat, c: Conn)
    requires Inv(s) && cid !in s.conns && Honest(s, c.offer) && c.pull == Received
    ensures Inv(s.(conns := s.conns[cid := c]))
  {
    var t := s.(conns := s.conns[cid := c]);
    assert forall node :: FilesOf(t, node) == FilesOf(s, node);
    FilesFrame(s, t);
    forall k | k in t.conns
      ensures Honest(t, t.conns[k].offer) && PullOk(t, t.conns[k])
    {
      assert k != cid ==> Honest(s, s.conns[k].offer) && PullOk(s, s.conns[k]);
    }
    forall id | id in t.pushes
      ensures PushOk(t, t.pushes[id])
    {
      assert PushOk(s, s.pushes[id]);
    }
    forall a, b | a in t.conns && b in t.conns && SameTemp(t.conns[a], t.conns[b])
      ensures a == b
    {
      assert SameTemp(s.conns[a], s.conns[b]);
    }
  }

  lemma ConnectKeeps(s: Net, id: nat, cid: nat)
    requires Inv(s) && Enabled(s, Connect(id, cid))
    ensures Inv(Step(s, Connect(id, cid)))
  {
    var p := s.pushes[id];
    assert PushOk(s, p);
    var c := Conn(p.peers[|p.results|], p.offer, Received);
    NewConnKeeps(s, cid, c);
    SetPushKeeps(s.(conns := s.conns[cid := c]), id, p.(conn := Some(cid)));
  }

  lemma StepKeeps(s: Net, e: Event)
    requires Inv(s) && Enabled(s, e)
    ensures Inv(Step(s, e))
  {
    match e
    case UserWrite(node, name, data) => WriteKeeps(s, node, name, data);
    case UserRemove(node, name) => RemoveKeeps(s, node, name);
    case StartPush(id, node, name, peers) => SetPushKeeps(s, id, Importing(node, name, peers));
    case Import(id, fail) =>
      assert PushOk(s, s.pushes[id]);
      SetPushKeeps(s, id, ImportStep(s, s.pushes[id], fail));
    case Connect(id, cid) => ConnectKeeps(s, id, cid);
    case ReadReply(id) =>
      assert PushOk(s, s.pushes[id]);
      SetPushKeeps(s, id, ReadStep(s, s.pushes[id]));
    case GiveUp(id) =>
      assert PushOk(s, s.pushes[id]);
      SetPushKeeps(s, id, Answered(s.pushes[id], false));
    case Shutdown(id) =>
      var p := s.pushes[id];
      assert PushOk(s, p);
      SetPushKeeps(s, id, Finished(p.offer, p.peers, p.results));
    case PullStep(cid, tmp, amount, fail) =>
      PullKeepsConns(s, cid, tmp, amount, fail);
      PullKeepsTemps(s, cid, tmp, amount, fail);
      PullKeepsFiles(s, cid, tmp, amount, fail);
  }

  lemma {:induction false} Invariant(dirs: map<nat, Files>, states: seq<Net>, events: seq<Event>, k: nat)
    requires Run(dirs, states, events) && k < |states|
    ensures Inv(states[k])
  {
    if k == 0 {
    } else {
      Invariant(dirs, states, events, k - 1);
      StepKeeps(states[k - 1], events[k - 1]);
    }
  }
}
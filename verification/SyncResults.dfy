/** Synchronisation's promises over all nodes and every run. */
module SyncResults {
  import opened Collections
  import opened Directory
  import opened Sync
  import opened SyncProofs

  // ----- provenance -----

  lemma {:induction false} WrittenByUsers(dirs: map<nat, Files>, states: seq<Net>, events: seq<Event>, k: nat,
      name: string, data: Bytes)
    requires Run(dirs, states, events) && k < |states| && (name, data) in states[k].written
    ensures (name, data) in Originals(dirs) || exists i, node :: 0 <= i < k && events[i] == UserWrite(node, name, data)
  {
    if k == 0 {
    } else {
      if (name, data) in states[k - 1].written {
        WrittenByUsers(dirs, states, events, k - 1, name, data);
      } else {
        assert events[k - 1].UserWrite? && events[k - 1] == UserWrite(events[k - 1].node, name, data);
      }
    }
  }

  /**
   * Whatever a directory shows under a visible name was there at the start or was earlier written,
   * whole, under that name by a user of some node: no partial export, no contents under another name.
   */
  lemma Provenance(dirs: map<nat, Files>, states: seq<Net>, events: seq<Event>, k: nat, node: nat, name: string)
    requires Run(dirs, states, events) && k < |states|
    requires name in FilesOf(states[k], node) && !Hidden(name)
    ensures (name, FilesOf(states[k], node)[name]) in Originals(dirs)
      || exists i, writer :: 0 <= i < k && events[i] == UserWrite(writer, name, FilesOf(states[k], node)[name])
  {
    Invariant(dirs, states, events, k);
    WrittenByUsers(dirs, states, events, k, name, FilesOf(states[k], node)[name]);
  }

  // ----- acknowledgements -----

  /** The directory of a node maps the offered name to exactly the offered bytes. */
  ghost predicate Has(s: Net, node: nat, offer: Offer) {
    offer.fileName in FilesOf(s, node) && Some(FilesOf(s, node)[offer.fileName]) == Download(offer.hash)
  }

  ghost predicate HadBy(states: seq<Net>, k: nat, node: nat, offer: Offer)
    requires k < |states|
  {
    exists j: nat :: j <= k && Has(states[j], node, offer)
  }

  /** The step that replies positively is the rename. */
  lemma ReplyingLands(s: Net, cid: nat, tmp: string, amount: nat, fail: bool)
    requires Inv(s) && Enabled(s, PullStep(cid, tmp, amount, fail))
    requires s.conns[cid].pull != Replied(true) && RunPull(s, cid, tmp, amount, fail).conns[cid].pull == Replied(true)
    ensures Has(RunPull(s, cid, tmp, amount, fail), s.conns[cid].to, s.conns[cid].offer)
  {
    assert PullOk(s, s.conns[cid]);
    FilesAfterPull(s, cid, tmp, amount, fail, s.conns[cid].to);
  }

  /** How a run goes on from its k-th state. */
  lemma StepOf(dirs: map<nat, Files>, states: seq<Net>, events: seq<Event>, k: nat)
    requires Run(dirs, states, events) && k < |events|
    ensures k + 1 < |states| && Enabled(states[k], events[k]) && states[k + 1] == Step(states[k], events[k])
    ensures Inv(states[k])
  {
    Invariant(dirs, states, events, k);
  }

  predicate RepliedOk(s: Net, cid: nat) {
    cid in s.conns && s.conns[cid].pull == Replied(true)
  }

  /** A connection that has replied positively replied before, or in this step its receiver got the file. */
  lemma ReplyStep(s: Net, e: Event, cid: nat)
    requires Inv(s) && Enabled(s, e) && RepliedOk(Step(s, e), cid)
    ensures cid in s.conns && Step(s, e).conns[cid].to == s.conns[cid].to
      && Step(s, e).conns[cid].offer == s.conns[cid].offer
    ensures RepliedOk(s, cid) || Has(Step(s, e), s.conns[cid].to, s.conns[cid].offer)
  {
    if cid !in s.conns {
    } else {
      if !RepliedOk(s, cid) {
        ReplyingLands(s, cid, e.tmp, e.amount, e.fail);
      }
    }
  }

  lemma {:induction false} ReplySound(dirs: map<nat, Files>, states: seq<Net>, events: seq<Event>, k: nat, cid: nat)
    requires Run(dirs, states, events) && k < |states| && RepliedOk(states[k], cid)
    ensures HadBy(states, k, states[k].conns[cid].to, states[k].conns[cid].offer)
  {
    if k == 0 {
      NothingYet(dirs, states, events);
    } else {
      StepOf(dirs, states, events, k - 1);
      hide Run, Inv, Enabled, Step, Has, HadBy;
      ReplyStep(states[k - 1], events[k - 1], cid);
      if RepliedOk(states[k - 1], cid) {
        ReplySound(dirs, states, events, k - 1, cid);
      }
    }
  }

  lemma NothingYet(dirs: map<nat, Files>, states: seq<Net>, events: seq<Event>)
    requires Run(dirs, states, events)
    ensures states[0].conns == map[] && states[0].pushes == map[]
  {
  }

  predicate HasResults(p: Push) {
    p.Notifying? || p.Finished?
  }

  /** This push has a positive answer from its i-th peer. */
  predicate Acked(s: Net, id: nat, i: nat) {
    id in s.pushes && HasResults(s.pushes[id]) && i < |s.pushes[id].results| && s.pushes[id].results[i]
  }

  ghost predicate SamePush(p: Push, q: Push) {
    HasResults(p) && HasResults(q) && p.offer == q.offer && p.peers == q.peers
  }

  /** A positive answer stays with its push, or it has just been read from the connection to that peer. */
  lemma AnswerArrives(s: Net, e: Event, id: nat, i: nat)
    requires Inv(s) && Enabled(s, e) && Acked(Step(s, e), id, i)
    ensures id in s.pushes && SamePush(s.pushes[id], Step(s, e).pushes[id]) && i < |s.pushes[id].peers|
    ensures !Acked(s, id, i) ==> exists cid ::
      Carries(s, cid, s.pushes[id].offer, s.pushes[id].peers[i]) && RepliedOk(s, cid)
  {
    assert id in s.pushes ==> PushOk(s, s.pushes[id]);
    if !Acked(s, id, i) {
      assert e == ReadReply(id) && i == |s.pushes[id].results|;
      assert Carries(s, s.pushes[id].conn.value, s.pushes[id].offer, s.pushes[id].peers[i]);
    }
  }

  lemma {:induction false} PeerHadIt(dirs: map<nat, Files>, states: seq<Net>, events: seq<Event>, k: nat, id: nat,
      i: nat)
    requires Run(dirs, states, events) && k < |states| && Acked(states[k], id, i)
    ensures i < |states[k].pushes[id].peers|
    ensures HadBy(states, k, states[k].pushes[id].peers[i], states[k].pushes[id].offer)
  {
    if k == 0 {
      NothingYet(dirs, states, events);
    } else {
      var s, e := states[k - 1], events[k - 1];
      StepOf(dirs, states, events, k - 1);
      AnswerArrives(s, e, id, i);
      hide Run, Inv, Enabled, Step, Has, HadBy;
      if Acked(s, id, i) {
        PeerHadIt(dirs, states, events, k - 1, id, i);
      } else {
        var cid :| Carries(s, cid, s.pushes[id].offer, s.pushes[id].peers[i]) && RepliedOk(s, cid);
        ReplySound(dirs, states, events, k - 1, cid);
      }
    }
  }

  /** At this step the push read `data` from its own node's directory and made its offer of it. */
  ghost predicate ImportedAt(s: Net, e: Event, id: nat, offer: Offer, peers: seq<nat>, data: Bytes) {
    && e == Import(id, false) && id in s.pushes && s.pushes[id].Importing?
    && s.pushes[id].name == offer.fileName && s.pushes[id].peers == peers
    && offer.fileName in FilesOf(s, s.pushes[id].node) && FilesOf(s, s.pushes[id].node)[offer.fileName] == data
    && offer == Offer(CollectionHash(offer.fileName, data), offer.fileName)
  }

  lemma {:induction false} OfferImported(dirs: map<nat, Files>, states: seq<Net>, events: seq<Event>, k: nat, id: nat)
    requires Run(dirs, states, events) && k < |states|
    requires id in states[k].pushes && HasResults(states[k].pushes[id])
    ensures exists j: nat, data ::
      j < k && ImportedAt(states[j], events[j], id, states[k].pushes[id].offer, states[k].pushes[id].peers, data)
  {
    if k == 0 {
    } else {
      var s, e, p := states[k - 1], events[k - 1], states[k].pushes[id];
      if SamePush(s.pushes[id], p) {
        OfferImported(dirs, states, events, k - 1, id);
      } else {
        assert ImportedAt(s, e, id, p.offer, p.peers, Download(p.offer.hash).value);
      }
    }
  }

  /**
   * A positive answer is sound, end to end: the push imported some bytes from its own node's
   * directory, and at some moment the answering peer's directory had exactly those bytes under that name.
   */
  lemma AckSoundness(dirs: map<nat, Files>, states: seq<Net>, events: seq<Event>, k: nat, id: nat, i: nat)
      returns (imported: nat, had: nat, data: Bytes)
    requires Run(dirs, states, events) && k < |states| && Acked(states[k], id, i)
    ensures var p := states[k].pushes[id];
      && imported < k && had <= k && i < |p.peers|
      && ImportedAt(states[imported], events[imported], id, p.offer, p.peers, data)
      && p.offer.fileName in FilesOf(states[had], p.peers[i])
      && FilesOf(states[had], p.peers[i])[p.offer.fileName] == data
  {
    PeerHadIt(dirs, states, events, k, id, i);
    OfferImported(dirs, states, events, k, id);
    var p := states[k].pushes[id];
    had :| had <= k && Has(states[had], p.peers[i], p.offer);
    imported, data :| imported < k && ImportedAt(states[imported], events[imported], id, p.offer, p.peers, data);
  }

  // ----- every peer gets its turn -----

  /** This step opens the connection that carries the push's offer to its i-th peer. */
  ghost predicate ContactsAt(s: Net, e: Event, id: nat, cid: nat, i: nat, p: Push)
    requires HasResults(p) && i < |p.peers|
  {
    && Enabled(s, e) && e == Connect(id, cid) && cid !in s.conns
    && cid in Step(s, e).conns && Step(s, e).conns[cid] == Conn(p.peers[i], p.offer, Received)
  }

  /** The connection that a push waits on was opened for it, to the peer whose turn it is. */
  ghost predicate Contacted(states: seq<Net>, events: seq<Event>, k: nat, id: nat, cid: nat, i: nat, p: Push)
    requires |states| == |events| + 1 && k <= |events| && HasResults(p) && i < |p.peers|
  {
    exists c: nat :: c < k && ContactsAt(states[c], events[c], id, cid, i, p)
  }

  /** The answer noted for a peer: positive exactly if its own connection has replied positively and is being read. */
  ghost predicate AnswerOf(s: Net, e: Event, id: nat, cid: nat, ok: bool) {
    ok <==> e == ReadReply(id) && cid in s.conns && s.conns[cid].pull == Replied(true)
  }

  /** The step that takes the i-th peer's turn: the results grow by its answer. */
  ghost predicate TurnAt(s: Net, e: Event, t: Net, id: nat, i: nat, p: Push)
    requires HasResults(p) && i < |p.results|
  {
    && id in s.pushes && s.pushes[id].Notifying? && SamePush(s.pushes[id], p) && |s.pushes[id].results| == i
    && id in t.pushes && HasResults(t.pushes[id]) && t.pushes[id].results == s.pushes[id].results + [p.results[i]]
  }

  /** Before its turn ended the peer was contacted, or the contact failed and its result is negative. */
  ghost predicate Treated(states: seq<Net>, events: seq<Event>, j: nat, id: nat, i: nat, p: Push)
    requires |states| == |events| + 1 && j < |events| && HasResults(p) && i < |p.results| && i < |p.peers|
  {
    && TurnAt(states[j], events[j], states[j + 1], id, i, p)
    && match states[j].pushes[id].conn
       case None => events[j] == GiveUp(id) && !p.results[i]
       case Some(cid) =>
         && Contacted(states, events, j, id, cid, i, p)
         && AnswerOf(states[j], events[j], id, cid, p.results[i])
  }

  lemma WaitStep(s: Net, e: Event, id: nat)
    requires Inv(s) && Enabled(s, e)
    requires id in Step(s, e).pushes && Step(s, e).pushes[id].Notifying? && Step(s, e).pushes[id].conn.Some?
    ensures var p := Step(s, e).pushes[id];
      && |p.results| < |p.peers|
      && (ContactsAt(s, e, id, p.conn.value, |p.results|, p) || (id in s.pushes && s.pushes[id] == p))
  {
    StepKeeps(s, e);
    assert PushOk(Step(s, e), Step(s, e).pushes[id]);
    match e
    case ReadReply(k) =>
    case _ =>
  }

  lemma {:induction false} WaitsOnItsPeer(dirs: map<nat, Files>, states: seq<Net>, events: seq<Event>, k: nat, id: nat)
    requires Run(dirs, states, events) && k < |states|
    requires id in states[k].pushes && states[k].pushes[id].Notifying? && states[k].pushes[id].conn.Some?
    ensures var p := states[k].pushes[id];
      |p.results| < |p.peers| && Contacted(states, events, k, id, p.conn.value, |p.results|, p)
  {
    if k == 0 {
    } else {
      Invariant(dirs, states, events, k - 1);
      var s, e, p := states[k - 1], events[k - 1], states[k].pushes[id];
      WaitStep(s, e, id);
      if !ContactsAt(s, e, id, p.conn.value, |p.results|, p) {
        WaitsOnItsPeer(dirs, states, events, k - 1, id);
        var c: nat :| c < k - 1 && ContactsAt(states[c], events[c], id, p.conn.value, |p.results|, p);
      }
    }
  }

  /** Where the i-th result of a push comes from: the step before, or the turn of its peer. */
  lemma ResultArises(s: Net, e: Event, id: nat, i: nat)
    requires Inv(s) && Enabled(s, e) && id in Step(s, e).pushes && HasResults(Step(s, e).pushes[id])
    requires i < |Step(s, e).pushes[id].results|
    ensures var p := Step(s, e).pushes[id];
      || (id in s.pushes && SamePush(s.pushes[id], p) && i < |s.pushes[id].results|
        && s.pushes[id].results[i] == p.results[i])
      || (TurnAt(s, e, Step(s, e), id, i, p)
          && match s.pushes[id].conn
             case None => e == GiveUp(id) && !p.results[i]
             case Some(cid) => AnswerOf(s, e, id, cid, p.results[i]))
  {
    assert id in s.pushes ==> PushOk(s, s.pushes[id]);
    match e
    case _ =>
  }

  ghost predicate TreatedBefore(states: seq<Net>, events: seq<Event>, k: nat, id: nat, i: nat, p: Push)
    requires |states| == |events| + 1 && k <= |events| && HasResults(p) && i < |p.results| && i < |p.peers|
  {
    exists j: nat :: j < k && Treated(states, events, j, id, i, p)
  }

  /** The push has this result at this state. */
  predicate ResultAt(s: Net, id: nat, i: nat) {
    id in s.pushes && HasResults(s.pushes[id]) && i < |s.pushes[id].results| && i < |s.pushes[id].peers|
  }

  /** The push has this result, and its peer was dealt with before. */
  ghost predicate Dealt(states: seq<Net>, events: seq<Event>, k: nat, id: nat, i: nat) {
    && |states| == |events| + 1 && k <= |events| && ResultAt(states[k], id, i)
    && TreatedBefore(states, events, k, id, i, states[k].pushes[id])
  }

  lemma TurnNext(dirs: map<nat, Files>, states: seq<Net>, events: seq<Event>, k: nat, id: nat, i: nat)
    requires Run(dirs, states, events) && k < |events| && ResultAt(states[k + 1], id, i)
    requires ResultAt(states[k], id, i) ==> Dealt(states, events, k, id, i)
    ensures Dealt(states, events, k + 1, id, i)
  {
    Invariant(dirs, states, events, k);
    var s, e, p := states[k], events[k], states[k + 1].pushes[id];
    ResultArises(s, e, id, i);
    hide Run, Inv, Step, Enabled, TurnAt, Treated, AnswerOf;
    if TurnAt(s, e, states[k + 1], id, i, p) {
      TurnTaken(dirs, states, events, k, id, i, p);
    } else {
      var j: nat :| j < k && Treated(states, events, j, id, i, s.pushes[id]);
      SameTurn(states, events, j, id, i, s.pushes[id], p);
    }
  }

  lemma {:induction false} TurnCame(dirs: map<nat, Files>, states: seq<Net>, events: seq<Event>, k: nat, id: nat,
      i: nat)
    requires Run(dirs, states, events) && k < |states| && ResultAt(states[k], id, i)
    ensures Dealt(states, events, k, id, i)
  {
    if k == 0 {
      NothingYet(dirs, states, events);
    } else {
      StepOf(dirs, states, events, k - 1);
      assert |states| == |events| + 1;
      hide Run, Inv, Enabled, Step, Dealt;
      if ResultAt(states[k - 1], id, i) {
        TurnCame(dirs, states, events, k - 1, id, i);
      }
      TurnNext(dirs, states, events, k - 1, id, i);
    }
  }

  lemma TurnTaken(dirs: map<nat, Files>, states: seq<Net>, events: seq<Event>, j: nat, id: nat, i: nat, p: Push)
    requires Run(dirs, states, events) && j < |events| && HasResults(p) && i < |p.results| && i < |p.peers|
    requires TurnAt(states[j], events[j], states[j + 1], id, i, p)
    requires states[j].pushes[id].conn == None ==> events[j] == GiveUp(id) && !p.results[i]
    requires states[j].pushes[id].conn.Some? ==>
      AnswerOf(states[j], events[j], id, states[j].pushes[id].conn.value, p.results[i])
    ensures Treated(states, events, j, id, i, p)
  {
    if states[j].pushes[id].conn.Some? {
      WaitsOnItsPeer(dirs, states, events, j, id);
      var q := states[j].pushes[id];
      var c: nat :| c < j && ContactsAt(states[c], events[c], id, q.conn.value, |q.results|, q);
      assert ContactsAt(states[c], events[c], id, q.conn.value, i, p);
    }
  }

  lemma SameTurn(states: seq<Net>, events: seq<Event>, j: nat, id: nat, i: nat, p: Push, q: Push)
    requires |states| == |events| + 1 && j < |events| && HasResults(p) && i < |p.results| && i < |p.peers|
    requires SamePush(p, q) && i < |q.results| && p.results[i] == q.results[i]
    requires Treated(states, events, j, id, i, p)
    ensures Treated(states, events, j, id, i, q)
  {
    match states[j].pushes[id].conn
    case None =>
    case Some(cid) =>
      var c: nat :| c < j && ContactsAt(states[c], events[c], id, cid, i, p);
      assert ContactsAt(states[c], events[c], id, cid, i, q);
  }

  /**
   * A push that has ended has dealt with every one of its peers, whatever the others answered: each
   * was offered the file over a connection of its own, whose reply is its result, or could not be reached.
   */
  lemma EveryPeerTried(dirs: map<nat, Files>, states: seq<Net>, events: seq<Event>, k: nat, id: nat, i: nat)
    requires Run(dirs, states, events) && k < |states|
    requires id in states[k].pushes && states[k].pushes[id].Finished? && i < |states[k].pushes[id].peers|
    ensures i < |states[k].pushes[id].results|
    ensures TreatedBefore(states, events, k, id, i, states[k].pushes[id])
  {
    Invariant(dirs, states, events, k);
    assert PushOk(states[k], states[k].pushes[id]);
    TurnCame(dirs, states, events, k, id, i);
  }

  // ----- stability -----

  /** Users store only this content under the name, anywhere, up to step k. */
  ghost predicate OnlyContent(dirs: map<nat, Files>, events: seq<Event>, k: nat, name: string, data: Bytes)
    requires k <= |events|
  {
    && (forall d :: (name, d) in Originals(dirs) ==> d == data)
    && (forall i :: 0 <= i < k && events[i].UserWrite? && events[i].name == name ==> events[i].data == data)
  }

  ghost predicate NotRemoved(events: seq<Event>, k: nat, node: nat, name: string)
    requires k <= |events|
  {
    forall i :: 0 <= i < k ==> events[i] != UserRemove(node, name)
  }

  lemma OnlyShows(dirs: map<nat, Files>, states: seq<Net>, events: seq<Event>, k: nat, node: nat, name: string,
      data: Bytes)
    requires Run(dirs, states, events) && k < |states| && OnlyContent(dirs, events, k, name, data)
    requires name in FilesOf(states[k], node) && !Hidden(name)
    ensures FilesOf(states[k], node)[name] == data
  {
    Provenance(dirs, states, events, k, node, name);
  }

  /** Only a user removes a visible name. */
  lemma NameStays(s: Net, e: Event, node: nat, name: string)
    requires Inv(s) && Enabled(s, e) && name in FilesOf(s, node) && !Hidden(name) && e != UserRemove(node, name)
    ensures name in FilesOf(Step(s, e), node)
  {
    match e
    case PullStep(cid, tmp, amount, fail) =>
      FilesAfterPull(s, cid, tmp, amount, fail, node);
      PullLands(s, cid, tmp, amount, fail, name);
    case _ =>
  }

  lemma {:induction false} NameStaysOn(dirs: map<nat, Files>, states: seq<Net>, events: seq<Event>, j: nat, k: nat,
      node: nat, name: string)
    requires Run(dirs, states, events) && j <= k < |states| && NotRemoved(events, k, node, name)
    requires name in FilesOf(states[j], node) && !Hidden(name)
    ensures name in FilesOf(states[k], node)
  {
    if j == k {
    } else {
      NameStaysOn(dirs, states, events, j, k - 1, node, name);
      Invariant(dirs, states, events, k - 1);
      NameStays(states[k - 1], events[k - 1], node, name);
    }
  }

  /**
   * If users store only one content under a name and nobody removes it at the peer, a positive
   * answer stays true for good, whatever pushes, echoes included, run meanwhile.
   */
  lemma AckStability(dirs: map<nat, Files>, states: seq<Net>, events: seq<Event>, j: nat, k: nat, id: nat, i: nat,
      data: Bytes)
    requires Run(dirs, states, events) && j <= k < |states| && Acked(states[j], id, i)
    requires i < |states[j].pushes[id].peers|
    requires var p := states[j].pushes[id];
      OnlyContent(dirs, events, k, p.offer.fileName, data) && NotRemoved(events, k, p.peers[i], p.offer.fileName)
    ensures var p := states[j].pushes[id];
      && p.offer.fileName in FilesOf(states[k], p.peers[i])
      && FilesOf(states[k], p.peers[i])[p.offer.fileName] == data
      && Some(data) == Download(p.offer.hash)
  {
    var p := states[j].pushes[id];
    var imported, had, bytes := AckSoundness(dirs, states, events, j, id, i);
    Invariant(dirs, states, events, imported);
    assert PushOk(states[imported], states[imported].pushes[id]);
    OnlyShows(dirs, states, events, imported, states[imported].pushes[id].node, p.offer.fileName, data);
    NameStaysOn(dirs, states, events, had, k, p.peers[i], p.offer.fileName);
    OnlyShows(dirs, states, events, k, p.peers[i], p.offer.fileName, data);
  }
}

/** The file limit and the bookkeeping of the store under concurrency, with and without incoming pulls. */
module StoreLimit {
  import opened Collections
  import opened Directory
  import opened StoreThreads
  import opened StoreProofs

  // ----- how a step changes the set of visible files -----

  /** Which visible file a change brings or takes. */
  function Brought(c: Change): set<string> {
    if c.Move? then {c.to} else {}
  }

  function Taken(c: Change): set<string> {
    if c.Drop? then {c.name} else {}
  }

  ghost predicate Tame(d: Dir, c: Change) {
    && (c.Write? ==> Hidden(c.name))
    && (c.Move? ==> c.from in d && d[c.from].File? && Hidden(c.from) && !Hidden(c.to))
  }

  lemma VisibleAfter(d: Dir, c: Change)
    requires Tame(d, c)
    ensures Visible(Apply(d, c)) == Visible(d) + Brought(c) - Taken(c)
  {
  }

  /** Temporary files are written and moved only under hidden names, and what is moved is a file. */
  lemma StepsAreTame(root: Dir, s: State, id: nat, c: Choice)
    requires FilesOk(root, s) && id in s.threads
    ensures Tame(s.dir, Decide(s, s.threads[id], c).change)
  {
    var th := s.threads[id];
    DecideSound(s, th, c);
    ChangeSound(s, th, c);
    assert HoldsOk(s.dir, th);
    if TempOf(th).Some? {
      TempsAreHidden(TempOf(th).value);
    }
  }

  lemma WhoMoves(s: State, th: Thread, c: Choice)
    ensures var a := Decide(s, th, c);
      && (a.change.Move? ==> (th.Renaming? || th.Landing?) && a.change.to == th.src.name)
      && (a.change.Drop? && th.Cleaning? ==> a.change.name in th.left)
      && (a.change.Drop? && !th.Cleaning? && !th.Removing? ==> Some(a.change.name) == TempOf(th))
  {
    match th
    case _ =>
  }

  // ----- the mutex -----

  predicate InLock(th: Thread) {
    th.Scanning? || th.Checking? || th.Renaming? || th.Rejecting? || th.AskScanning?
  }

  ghost predicate LockOk(s: State) {
    forall id :: id in s.threads && InLock(s.threads[id]) ==> s.lock == Some(id)
  }

  lemma LockDecision(s: State, th: Thread, c: Choice)
    ensures var a := Decide(s, th, c);
      && (a.lock.Take? ==> s.lock == None)
      && (InLock(a.next) ==> a.lock.Take? || (a.lock.Same? && InLock(th)))
      && (a.lock.Release? ==> InLock(th))
  {
    match th
    case _ =>
  }

  lemma LockKept(s: State, id: nat, c: Choice)
    requires LockOk(s) && id in s.threads
    ensures LockOk(Resumed(s, id, c))
  {
    LockDecision(s, s.threads[id], c);
    ThreadsAfter(s, id, c);
  }

  // ----- what the holder of the mutex knows -----

  /** Every visible file has been seen, is still to be read, or was landed by a pull in the meantime. */
  ghost predicate ScanFact(s: State, th: Thread) {
    match th
    case Scanning(_, _, todo, seen) => Visible(s.dir) <= todo + seen + s.late
    case AskScanning(todo, seen) => Visible(s.dir) <= todo + seen + s.late
    case Checking(_, _, seen) => Visible(s.dir) <= seen + s.late && |seen| < MAX_FILES
    case Renaming(src, _, seen) =>
      && Visible(s.dir) <= seen + s.late && |seen| < MAX_FILES
      && (IsVisible(s.dir, src.name) ==> src.name in s.late)
    case Cleaning(left) => forall n :: n in left ==> IsTemp(n)
    case _ => true
  }

  ghost predicate ScansOk(s: State) {
    forall id :: id in s.threads ==> ScanFact(s, s.threads[id])
  }

  predicate Plain(th: Thread) {
    !InLock(th) && !th.Cleaning?
  }

  lemma OthersArePlain(s: State, th: Thread, c: Choice)
    requires !th.Waiting? && !th.Scanning? && !th.Checking? && !th.Cleaning? && !th.Asking? && !th.AskScanning?
    ensures var next := Decide(s, th, c).next; Plain(next) || next.Rejecting?
  {
    match th
    case _ =>
  }

  lemma AskAtHome(s: State, id: nat, c: Choice)
    requires id in s.threads && (s.threads[id].Asking? || s.threads[id].AskScanning?) && ScanFact(s, s.threads[id])
    ensures ScanFact(Resumed(s, id, c), Decide(s, s.threads[id], c).next)
  {
    hide Counted;
  }

  lemma ListAtHome(s: State, id: nat, c: Choice)
    requires id in s.threads && (s.threads[id].Waiting? || s.threads[id].Scanning?) && ScanFact(s, s.threads[id])
    ensures ScanFact(Resumed(s, id, c), Decide(s, s.threads[id], c).next)
  {
    hide Counted;
  }

  lemma CheckAtHome(s: State, id: nat, c: Choice)
    requires id in s.threads && (s.threads[id].Checking? || s.threads[id].Cleaning?) && ScanFact(s, s.threads[id])
    ensures ScanFact(Resumed(s, id, c), Decide(s, s.threads[id], c).next)
  {
    hide Counted;
  }

  lemma PlainAtHome(s: State, th: Thread)
    requires Plain(th) || th.Rejecting?
    ensures ScanFact(s, th)
  {
  }

  /** The thread that moves: its own next step. */
  lemma ScanAtHome(s: State, id: nat, c: Choice)
    requires id in s.threads && ScanFact(s, s.threads[id])
    ensures ScanFact(Resumed(s, id, c), Decide(s, s.threads[id], c).next)
  {
    hide Counted, ScanFact, Decide, Plain;
    var th := s.threads[id];
    if th.Asking? || th.AskScanning? {
      AskAtHome(s, id, c);
    } else if th.Waiting? || th.Scanning? {
      ListAtHome(s, id, c);
    } else if th.Checking? || th.Cleaning? {
      CheckAtHome(s, id, c);
    } else {
      OthersArePlain(s, th, c);
      PlainAtHome(Resumed(s, id, c), Decide(s, th, c).next);
    }
  }

  lemma ScanElsewhere(s: State, t: State, th: Thread, brought: set<string>)
    requires ScanFact(s, th)
    requires s.late + brought <= t.late && Visible(t.dir) <= Visible(s.dir) + brought
    ensures ScanFact(t, th)
  {
    if th.Renaming? && IsVisible(t.dir, th.src.name) {
      assert th.src.name in Visible(t.dir);
    }
  }

  lemma ScansKept(root: Dir, s: State, id: nat, c: Choice)
    requires FilesOk(root, s) && LockOk(s) && ScansOk(s) && id in s.threads
    ensures ScansOk(Resumed(s, id, c))
  {
    var t := Resumed(s, id, c);
    var a := Decide(s, s.threads[id], c);
    StepsAreTame(root, s, id, c);
    VisibleAfter(s.dir, a.change);
    WhoMoves(s, s.threads[id], c);
    LockDecision(s, s.threads[id], c);
    ThreadsAfter(s, id, c);
    forall j | j in t.threads
      ensures ScanFact(t, t.threads[j])
    {
      if j == id {
        ScanAtHome(s, id, c);
      } else if InLock(s.threads[j]) {
        ScanElsewhere(s, t, s.threads[j], Brought(a.change));
      } else {
        assert ScanFact(s, s.threads[j]);
      }
    }
  }

  // ----- the limit -----

  ghost predicate BoundOk(root: Dir, s: State) {
    && |s.late| <= s.tally.pulls
    && |Visible(s.dir)| <= Max(|Visible(root)|, MAX_FILES) + s.tally.pulls
  }

  lemma BoundKept(root: Dir, s: State, id: nat, c: Choice)
    requires FilesOk(root, s) && ScansOk(s) && BoundOk(root, s) && id in s.threads
    ensures BoundOk(root, Resumed(s, id, c))
  {
    var th, t := s.threads[id], Resumed(s, id, c);
    var a := Decide(s, th, c);
    StepsAreTame(root, s, id, c);
    VisibleAfter(s.dir, a.change);
    WhoMoves(s, th, c);
    if a.change.Move? && th.Renaming? {
      assert ScanFact(s, th);
      UnionSize(Visible(t.dir), th.seen + {th.src.name}, s.late);
      UnionSize(th.seen + {th.src.name}, th.seen, {th.src.name});
    } else if a.change.Move? {
      UnionSize(Visible(t.dir), Visible(s.dir), {th.src.name});
    } else {
      SubsetSize(Visible(t.dir), Visible(s.dir));
    }
  }

  // ----- the ledger -----

  /** Files now, plus those removed, plus those replaced by an add, are those at the start and those brought in. */
  ghost predicate LedgerOk(root: Dir, s: State) {
    && |Visible(s.dir)| + s.tally.removes + s.tally.overwrites == |Visible(root)| + s.tally.adds + s.tally.arrivals
    && (s.tally.pulls == 0 ==> s.tally.overwrites == 0 && s.tally.arrivals == 0)
  }

  lemma MoveLedger(d: Dir, c: Change)
    requires Tame(d, c) && c.Move?
    ensures |Visible(Apply(d, c))| == |Visible(d)| + One(!IsVisible(d, c.to))
  {
    VisibleAfter(d, c);
    assert Visible(d) + Brought(c) - Taken(c) == Visible(d) + {c.to};
    if IsVisible(d, c.to) {
      assert Visible(d) + {c.to} == Visible(d);
    }
  }

  lemma DropLedger(d: Dir, c: Change)
    requires Tame(d, c) && !c.Move?
    ensures |Visible(Apply(d, c))| == |Visible(d)| - One(c.Drop? && IsVisible(d, c.name))
  {
    VisibleAfter(d, c);
    if c.Drop? && IsVisible(d, c.name) {
      assert Visible(d) + {} - {c.name} == Visible(d) - {c.name};
    } else {
      assert Visible(d) + Brought(c) - Taken(c) == Visible(d);
    }
  }

  lemma LedgerKept(root: Dir, s: State, id: nat, c: Choice)
    requires FilesOk(root, s) && ScansOk(s) && BoundOk(root, s) && LedgerOk(root, s) && id in s.threads
    ensures LedgerOk(root, Resumed(s, id, c))
  {
    var th := s.threads[id];
    var a := Decide(s, th, c);
    StepsAreTame(root, s, id, c);
    WhoMoves(s, th, c);
    assert ScanFact(s, th);
    if a.change.Move? {
      MoveLedger(s.dir, a.change);
      assert th.Renaming? && IsVisible(s.dir, a.change.to) ==> s.late != {} && |s.late| > 0;
    } else {
      DropLedger(s.dir, a.change);
    }
  }

  // ----- whole runs -----

  ghost predicate Inv(root: Dir, s: State) {
    FilesOk(root, s) && LockOk(s) && ScansOk(s) && BoundOk(root, s) && LedgerOk(root, s)
  }

  lemma OpenKeeps(root: Dir, s: State, id: nat, src: Source, tmp: string, th: Thread)
    requires LockOk(s) && ScansOk(s) && BoundOk(root, s) && LedgerOk(root, s)
    requires tmp !in s.dir && Hidden(tmp) && (th.Copying? || th.Exporting?)
    ensures var t := Opened(s, id, src, tmp, th); LockOk(t) && ScansOk(t) && BoundOk(root, t) && LedgerOk(root, t)
  {
    var t := Opened(s, id, src, tmp, th);
    assert Visible(t.dir) == Visible(s.dir);
    forall j | j in t.threads
      ensures ScanFact(t, t.threads[j])
    {
      if j != id {
        ScanElsewhere(s, t, s.threads[j], {});
      }
    }
  }

  lemma SpawnKeeps(root: Dir, s: State, id: nat, th: Thread)
    requires LockOk(s) && ScansOk(s) && BoundOk(root, s) && LedgerOk(root, s)
    requires !InLock(th) && ScanFact(s, th)
    ensures var t := Spawned(s, id, th); LockOk(t) && ScansOk(t) && BoundOk(root, t) && LedgerOk(root, t)
  {
    var t := Spawned(s, id, th);
    forall j | j in t.threads
      ensures ScanFact(t, t.threads[j])
    {
      ScanElsewhere(s, t, if j == id then th else s.threads[j], {});
    }
  }

  lemma StepKeeps(root: Dir, s: State, e: Event)
    requires Inv(root, s) && Enabled(s, e)
    ensures Inv(root, Step(s, e))
  {
    StepKeepsFiles(root, s, e);
    match e
    case StartAdd(id, src, tmp) =>
      TempsAreHidden(tmp);
      OpenKeeps(root, s, id, src, tmp, Copying(src, tmp, 0));
    case StartPull(id, src, tmp) =>
      if SafeName(src.name) {
        TempsAreHidden(tmp);
        OpenKeeps(root, s, id, src, tmp, Exporting(src, tmp, 0));
      } else {
        SpawnKeeps(root, s, id, Finished(None, Failed));
      }
    case StartAsk(id, size) => SpawnKeeps(root, s, id, Asking(size));
    case StartRemove(id, name) => SpawnKeeps(root, s, id, if name in s.dir then Removing(name)
      else Finished(None, NotFound));
    case StartClean(id, listed) => SpawnKeeps(root, s, id, Cleaning(listed));
    case Resume(id, c) =>
      LockKept(s, id, c);
      ScansKept(root, s, id, c);
      BoundKept(root, s, id, c);
      LedgerKept(root, s, id, c);
    case Crash =>
  }

  lemma {:induction false} Invariant(root: Dir, states: seq<State>, events: seq<Event>, k: nat)
    requires Run(root, states, events) && k < |states|
    ensures Inv(root, states[k])
  {
    if k == 0 {
    } else {
      Invariant(root, states, events, k - 1);
      StepKeeps(root, states[k - 1], events[k - 1]);
    }
  }
}

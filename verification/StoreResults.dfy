/** The store's promises, for every run of any threads with pulls and crashes at any point. */
module StoreResults {
  import opened Collections
  import opened Directory
  import opened StoreThreads
  import opened StoreProofs
  import opened StoreLimit

  // ----- how many files -----

  /** Adds never lead past the limit; every excess is a pull's. */
  lemma FileLimit(root: Dir, states: seq<State>, events: seq<Event>, k: nat)
    requires Run(root, states, events) && k < |states|
    ensures |Visible(states[k].dir)| <= Max(|Visible(root)|, MAX_FILES) + states[k].tally.pulls
  {
    Invariant(root, states, events, k);
  }

  /**
   * The number of files changes by exactly the successful adds and removes and by the pulls that
   * brought a new name, less the adds that replaced a file, which takes a pull in the same moment.
   */
  lemma Ledger(root: Dir, states: seq<State>, events: seq<Event>, k: nat)
    requires Run(root, states, events) && k < |states|
    ensures var t := states[k].tally;
      && |Visible(states[k].dir)| == |Visible(root)| + t.adds - t.removes + t.arrivals - t.overwrites
      && (t.pulls == 0 ==> t.arrivals == 0 && t.overwrites == 0)
  {
    Invariant(root, states, events, k);
  }

  predicate Lands(s: State, e: Event) {
    e.Resume? && e.id in s.threads && s.threads[e.id].Landing?
  }

  /** The last step of an add that is about to create a file of a new name. */
  ghost predicate Creates(s: State, e: Event) {
    && e.Resume? && e.id in s.threads && s.threads[e.id].Renaming?
    && Decide(s, s.threads[e.id], e.choice).change.Move?
    && !IsVisible(s.dir, s.threads[e.id].src.name)
  }

  lemma OnlyCreatesAdds(root: Dir, s: State, e: Event)
    requires Inv(root, s) && Enabled(s, e) && !Lands(s, e) && !Creates(s, e)
    ensures Visible(Step(s, e).dir) <= Visible(s.dir)
  {
    match e
    case Resume(id, c) =>
      StepsAreTame(root, s, id, c);
      VisibleAfter(s.dir, Decide(s, s.threads[id], c).change);
      WhoMoves(s, s.threads[id], c);
    case StartAdd(id, src, tmp) =>
      TempsAreHidden(tmp);
    case StartPull(id, src, tmp) =>
      TempsAreHidden(tmp);
    case _ =>
  }

  lemma CreationCounts(root: Dir, s: State, e: Event)
    requires Inv(root, s) && Enabled(s, e) && Creates(s, e)
    ensures |Visible(Step(s, e).dir)| == |Visible(s.dir)| + 1
    ensures |Visible(s.dir)| <= 2 + |s.late|
  {
    var th := s.threads[e.id];
    StepsAreTame(root, s, e.id, e.choice);
    MoveLedger(s.dir, Decide(s, th, e.choice).change);
    WhoMoves(s, th, e.choice);
    assert ScanFact(s, th);
    UnionSize(Visible(s.dir), th.seen, s.late);
  }

  /**
   * A step that is not a pull raises the count above max(before, 3) exactly when it creates a file
   * in a directory that is full by then, and that needs a pull to have landed while the mutex was held.
   */
  lemma PastTheLimit(root: Dir, states: seq<State>, events: seq<Event>, k: nat)
    requires Run(root, states, events) && k < |events|
    requires !Lands(states[k], events[k])
    ensures var before, after := |Visible(states[k].dir)|, |Visible(states[k + 1].dir)|;
      && (after > Max(before, MAX_FILES) <==> Creates(states[k], events[k]) && before >= MAX_FILES)
      && (after > Max(before, MAX_FILES) ==> states[k].late != {})
      && after <= Max(before, MAX_FILES + |states[k].late|)
  {
    Invariant(root, states, events, k);
    if Creates(states[k], events[k]) {
      CreationCounts(root, states[k], events[k]);
    } else {
      OnlyCreatesAdds(root, states[k], events[k]);
      SubsetSize(Visible(states[k + 1].dir), Visible(states[k].dir));
    }
  }

  // ----- what is in the files -----

  /** Sources are what adds and pulls were started with. */
  lemma {:induction false} SourcesStarted(root: Dir, states: seq<State>, events: seq<Event>, k: nat, src: Source)
    requires Run(root, states, events) && k < |states| && src in states[k].sources
    ensures exists i :: 0 <= i < k && (events[i].StartAdd? || events[i].StartPull?) && events[i].src == src
  {
    if k == 0 {
    } else {
      var e := events[k - 1];
      if src in states[k - 1].sources {
        SourcesStarted(root, states, events, k - 1, src);
      } else {
        match e
        case Resume(id, c) => ThreadsAfter(states[k - 1], id, c);
        case _ =>
      }
    }
  }

  /** At every moment, crashes included, a visible file is an original or a complete copy made under its own name. */
  lemma CompleteFiles(root: Dir, states: seq<State>, events: seq<Event>, k: nat, n: string)
    requires Run(root, states, events) && k < |states|
    requires n in states[k].dir && !Hidden(n)
    ensures (n in root && states[k].dir[n] == root[n])
      || exists i :: 0 <= i < k && (events[i].StartAdd? || events[i].StartPull?)
           && events[i].src.name == n && states[k].dir[n] == File(events[i].src.content)
  {
    Invariant(root, states, events, k);
    var s := states[k];
    assert EntryOk(root, s, n);
    if n in s.used {
      TempsAreHidden(n);
    } else if !(n in root && s.dir[n] == root[n]) {
      SourcesStarted(root, states, events, k, Source(n, s.dir[n].content));
    }
  }

  /** Hidden entries are originals or temporary files. */
  lemma OnlyTempsLeftOver(root: Dir, states: seq<State>, events: seq<Event>, k: nat, n: string)
    requires Run(root, states, events) && k < |states|
    requires n in states[k].dir && Hidden(n)
    ensures (n in root && states[k].dir[n] == root[n]) || TempName(n)
  {
    Invariant(root, states, events, k);
    assert EntryOk(root, states[k], n);
  }

  // ----- temporary files do not come back -----

  lemma WritesNeedTheFile(s: State, th: Thread, c: Choice)
    ensures var a := Decide(s, th, c); a.change.Write? ==> a.change.name in s.dir
  {
    match th
    case _ =>
  }

  lemma GoneStaysGone(root: Dir, s: State, e: Event, tmp: string)
    requires Inv(root, s) && Enabled(s, e)
    requires tmp in s.used && tmp !in s.dir
    ensures tmp in Step(s, e).used && tmp !in Step(s, e).dir
  {
    TempsAreHidden(tmp);
    match e
    case Resume(id, c) =>
      WritesNeedTheFile(s, s.threads[id], c);
      StepsAreTame(root, s, id, c);
    case _ =>
  }

  lemma {:induction false} GoneForever(root: Dir, states: seq<State>, events: seq<Event>, i: nat, j: nat, tmp: string)
    requires Run(root, states, events) && i <= j < |states|
    requires tmp in states[i].used && tmp !in states[i].dir
    ensures tmp !in states[j].dir && tmp in states[j].used
  {
    if i == j {
    } else {
      GoneForever(root, states, events, i, j - 1, tmp);
      Invariant(root, states, events, j - 1);
      GoneStaysGone(root, states[j - 1], events[j - 1], tmp);
    }
  }

  /** An add that is stored or rejected leaves no temporary file, then or later; only a failed rename can leave one. */
  lemma AddLeavesNoTemp(root: Dir, states: seq<State>, events: seq<Event>, i: nat, j: nat, id: nat)
    requires Run(root, states, events) && i < j < |states|
    requires events[i].Resume? && events[i].id == id
    requires var th := states[i].threads[id]; th.Renaming? || th.Rejecting?
    requires states[i + 1].threads[id].Finished? && states[i + 1].threads[id].outcome != Failed
    ensures states[i].threads[id].tmp !in states[j].dir
  {
    Invariant(root, states, events, i);
    Invariant(root, states, events, i + 1);
    var th, t := states[i].threads[id], states[i + 1];
    ThreadsAfter(states[i], id, events[i].choice);
    assert Ended(t.threads[id]) && t.threads[id].temp == Some(th.tmp);
    assert HoldsOk(t.dir, t.threads[id]);
    GoneForever(root, states, events, i + 1, j, th.tmp);
  }

  // ----- pulls and hidden names -----

  /** A step of a pull: it opens its export file, writes to it, or renames it. */
  predicate Pulls(s: State, e: Event) {
    e.StartPull? || (e.Resume? && e.id in s.threads && (s.threads[e.id].Exporting? || s.threads[e.id].Landing?))
  }

  function ExportOf(s: State, e: Event): string
    requires Pulls(s, e)
  {
    if e.StartPull? then e.tmp else s.threads[e.id].tmp
  }

  /** No step of a pull touches a hidden name but its own export file. */
  lemma PullsSpareHiddenNames(root: Dir, states: seq<State>, events: seq<Event>, k: nat, n: string)
    requires Run(root, states, events) && k < |events| && Pulls(states[k], events[k])
    requires Hidden(n) && n != ExportOf(states[k], events[k])
    ensures n in states[k + 1].dir <==> n in states[k].dir
    ensures n in states[k].dir ==> states[k + 1].dir[n] == states[k].dir[n]
  {
    Invariant(root, states, events, k);
    match events[k]
    case Resume(id, c) =>
      StepsAreTame(root, states[k], id, c);
      DecideSound(states[k], states[k].threads[id], c);
      ChangeSound(states[k], states[k].threads[id], c);
    case _ =>
  }

  // ----- cleaning among other threads -----

  /** How a run goes on from its i-th state. */
  lemma StepOf(root: Dir, states: seq<State>, events: seq<Event>, i: nat)
    requires Run(root, states, events) && i < |events|
    ensures i + 1 < |states| && Enabled(states[i], events[i]) && states[i + 1] == Step(states[i], events[i])
  {
  }

  predicate Cleans(s: State, e: Event, id: nat) {
    e.Resume? && e.id == id && id in s.threads && s.threads[id].Cleaning?
  }

  /** This clean unlinks this name. */
  predicate Unlinks(s: State, e: Event, id: nat, n: string) {
    Cleans(s, e, id) && Decide(s, s.threads[id], e.choice).change == Drop(n)
  }

  /** No step of a clean touches an entry that is not a temporary file, whatever runs beside it. */
  lemma CleanSparesFiles(root: Dir, states: seq<State>, events: seq<Event>, k: nat, n: string)
    requires Run(root, states, events) && k < |events| && events[k].Resume?
      && Cleans(states[k], events[k], events[k].id)
    requires !IsTemp(n)
    ensures n in states[k + 1].dir <==> n in states[k].dir
    ensures n in states[k].dir ==> states[k + 1].dir[n] == states[k].dir[n]
  {
    Invariant(root, states, events, k);
    assert ScanFact(states[k], states[k].threads[events[k].id]);
  }

  /** How many names this clean has unlinked between two states. */
  ghost function Unlinkings(states: seq<State>, events: seq<Event>, i: nat, k: nat, id: nat): nat
    requires i <= k <= |events| && k <= |states|
  {
    if i == k then 0
    else
      Unlinkings(states, events, i, k - 1, id)
      + if Cleans(states[k - 1], events[k - 1], id)
        && Decide(states[k - 1], states[k - 1].threads[id], events[k - 1].choice).change.Drop?
        then 1 else 0
  }

  ghost predicate UnlinkedBetween(states: seq<State>, events: seq<Event>, i: nat, k: nat, id: nat, n: string) {
    exists j: nat :: i < j < k && j < |events| && j < |states| && Unlinks(states[j], events[j], id, n)
  }

  lemma UnlinkedNext(states: seq<State>, events: seq<Event>, i: nat, k: nat, id: nat, n: string)
    requires i < k < |events| && k < |states|
    ensures UnlinkedBetween(states, events, i, k + 1, id, n)
      <==> UnlinkedBetween(states, events, i, k, id, n) || Unlinks(states[k], events[k], id, n)
  {
    hide Unlinks;
  }

  /** Of the listed names, exactly those in `done` have been unlinked by this clean. */
  ghost predicate DoneSoFar(states: seq<State>, events: seq<Event>, i: nat, k: nat, id: nat, done: set<string>)
    requires i <= k <= |events| && k <= |states|
  {
    && Unlinkings(states, events, i, k, id) == |done|
    && forall n :: n in done <==> UnlinkedBetween(states, events, i, k, id, n)
  }

  /** Where a clean is with its list. */
  ghost predicate CleanStage(states: seq<State>, events: seq<Event>, i: nat, k: nat, id: nat, th: Thread,
      listed: set<string>)
    requires i <= k <= |events| && k <= |states|
  {
    match th
    case Cleaning(left) => left <= listed && DoneSoFar(states, events, i, k, id, listed - left)
    case Finished(_, outcome) => outcome == Cleaned ==> DoneSoFar(states, events, i, k, id, listed)
    case _ => false
  }

  ghost predicate CleanFact(states: seq<State>, events: seq<Event>, i: nat, k: nat, id: nat, listed: set<string>)
    requires i <= k <= |events| && k < |states|
  {
    id in states[k].threads && CleanStage(states, events, i, k, id, states[k].threads[id], listed)
  }

  lemma DoneNext(states: seq<State>, events: seq<Event>, i: nat, k: nat, id: nat, done: set<string>, more: set<string>)
    requires i < k < |events| && k < |states| && DoneSoFar(states, events, i, k, id, done)
    requires forall n :: n in more <==> Unlinks(states[k], events[k], id, n)
    requires more !! done && |more| == Unlinkings(states, events, i, k + 1, id) - Unlinkings(states, events, i, k, id)
    ensures DoneSoFar(states, events, i, k + 1, id, done + more)
  {
    forall n
      ensures n in done + more <==> UnlinkedBetween(states, events, i, k + 1, id, n)
    {
      UnlinkedNext(states, events, i, k, id, n);
    }
  }

  lemma NotUnlinking(states: seq<State>, events: seq<Event>, i: nat, k: nat, id: nat, done: set<string>)
    requires i < k < |events| && k < |states| && DoneSoFar(states, events, i, k, id, done)
    requires Cleans(states[k], events[k], id)
      ==> !Decide(states[k], states[k].threads[id], events[k].choice).change.Drop?
    ensures DoneSoFar(states, events, i, k + 1, id, done)
  {
    DoneNext(states, events, i, k, id, done, {});
    assert done + {} == done;
  }

  lemma CleanUnlinks(states: seq<State>, events: seq<Event>, i: nat, k: nat, id: nat, listed: set<string>)
    requires i < k < |events| && |states| == |events| + 1
    requires Cleans(states[k], events[k], id) && states[k].threads[id].left <= listed
    requires DoneSoFar(states, events, i, k, id, listed - states[k].threads[id].left)
    requires Decide(states[k], states[k].threads[id], events[k].choice).change.Drop?
    ensures DoneSoFar(states, events, i, k + 1, id, listed - (states[k].threads[id].left - {events[k].choice.pick}))
  {
    var left, pick := states[k].threads[id].left, events[k].choice.pick;
    DoneNext(states, events, i, k, id, listed - left, {pick});
    assert listed - left + {pick} == listed - (left - {pick});
    hide *;
  }

  lemma CleanIdles(states: seq<State>, events: seq<Event>, i: nat, k: nat, id: nat, listed: set<string>)
    requires i < k < |events| && |states| == |events| + 1
    requires Cleans(states[k], events[k], id) && states[k].threads[id].left <= listed
    requires DoneSoFar(states, events, i, k, id, listed - states[k].threads[id].left)
    requires !Decide(states[k], states[k].threads[id], events[k].choice).change.Drop?
    ensures CleanStage(states, events, i, k + 1, id, Decide(states[k], states[k].threads[id], events[k].choice).next,
      listed)
  {
    var th := states[k].threads[id];
    var next := Decide(states[k], th, events[k].choice).next;
    NotUnlinking(states, events, i, k, id, listed - th.left);
    assert next == th || (next.Finished? && (th.left == {} || next.outcome != Cleaned));
    hide *;
  }

  lemma CleanGoesOn(states: seq<State>, events: seq<Event>, i: nat, k: nat, id: nat, listed: set<string>)
    requires i < k < |events| && |states| == |events| + 1
    requires Cleans(states[k], events[k], id)
    requires CleanStage(states, events, i, k, id, states[k].threads[id], listed)
    ensures CleanStage(states, events, i, k + 1, id, Decide(states[k], states[k].threads[id], events[k].choice).next,
      listed)
  {
    hide DoneSoFar;
    if Decide(states[k], states[k].threads[id], events[k].choice).change.Drop? {
      CleanUnlinks(states, events, i, k, id, listed);
    } else {
      CleanIdles(states, events, i, k, id, listed);
    }
  }

  lemma CleanNext(states: seq<State>, events: seq<Event>, i: nat, k: nat, id: nat, listed: set<string>)
    requires i < k < |events| && |states| == |events| + 1
    requires Enabled(states[k], events[k]) && states[k + 1] == Step(states[k], events[k]) && events[k] != Crash
    requires CleanFact(states, events, i, k, id, listed)
    ensures CleanFact(states, events, i, k + 1, id, listed)
  {
    if Cleans(states[k], events[k], id) {
      ThreadsAfter(states[k], id, events[k].choice);
      hide CleanStage, Decide;
      CleanGoesOn(states, events, i, k, id, listed);
    } else {
      hide CleanStage, Decide, Step;
    }
  }

  lemma CleanStarts(root: Dir, states: seq<State>, events: seq<Event>, i: nat, id: nat, listed: set<string>)
    requires Run(root, states, events) && i < |events| && events[i] == StartClean(id, listed)
    ensures CleanFact(states, events, i, i + 1, id, listed)
  {
    StepOf(root, states, events, i);
    assert states[i + 1].threads == states[i].threads[id := Cleaning(listed)];
    assert Unlinkings(states, events, i, i, id) == 0;
    assert Unlinkings(states, events, i, i + 1, id) == 0;
    assert DoneSoFar(states, events, i, i + 1, id, {});
    assert listed - listed == {};
  }

  lemma {:induction false} CleanKeepsCount(root: Dir, states: seq<State>, events: seq<Event>, i: nat, k: nat, id: nat,
                                           listed: set<string>)
    requires Run(root, states, events) && i < k < |states| && events[i] == StartClean(id, listed)
    requires forall m :: i < m < k ==> events[m] != Crash
    ensures CleanFact(states, events, i, k, id, listed)
  {
    hide CleanFact, Step, Enabled;
    if k == i + 1 {
      CleanStarts(root, states, events, i, id, listed);
    } else {
      StepOf(root, states, events, k - 1);
      CleanKeepsCount(root, states, events, i, k - 1, id, listed);
      CleanNext(states, events, i, k - 1, id, listed);
    }
  }

  /**
   * A clean that succeeds has unlinked exactly the names it had listed, each once, so the number it
   * reports is the number of files it removed, whatever other threads did meanwhile.
   */
  lemma CleanRemovesListed(root: Dir, states: seq<State>, events: seq<Event>, i: nat, k: nat, id: nat,
      listed: set<string>)
    requires Run(root, states, events) && i < k < |states| && events[i] == StartClean(id, listed)
    requires forall m :: i < m < k ==> events[m] != Crash
    requires id in states[k].threads && states[k].threads[id] == Finished(None, Cleaned)
    ensures Unlinkings(states, events, i, k, id) == |listed|
    ensures forall n :: n in listed <==> UnlinkedBetween(states, events, i, k, id, n)
  {
    CleanKeepsCount(root, states, events, i, k, id, listed);
  }

  // ----- a run past the limit -----

  /** One more event of a run. */
  lemma Advance(root: Dir, states: seq<State>, events: seq<Event>, e: Event, t: State)
    requires Run(root, states, events) && Enabled(states[|states| - 1], e) && Step(states[|states| - 1], e) == t
    ensures Run(root, states + [t], events + [e])
  {
    var more, longer := states + [t], events + [e];
    forall i | 0 <= i < |longer|
      ensures Enabled(more[i], longer[i]) && more[i + 1] == Step(more[i], longer[i])
    {
      if i < |events| {
        assert more[i] == states[i] && more[i + 1] == states[i + 1] && longer[i] == events[i];
      }
    }
  }

  /** There is a run that ends here. */
  ghost predicate Reachable(root: Dir, s: State) {
    exists states, events :: Run(root, states, events) && states[|states| - 1] == s
  }

  lemma ReachNext(root: Dir, s: State, e: Event, t: State)
    requires Reachable(root, s) && Enabled(s, e) && Step(s, e) == t
    ensures Reachable(root, t)
  {
    var states, events :| Run(root, states, events) && states[|states| - 1] == s;
    Advance(root, states, events, e, t);
    assert (states + [t])[|states + [t]| - 1] == t;
  }

  lemma ReachStart(root: Dir)
    ensures Reachable(root, Begun(root))
  {
    assert Run(root, [Begun(root)], []);
  }

  const TWO: Dir := map["a" := File([]), "b" := File([])]
  const SOURCE_X := Source("x", [])
  const SOURCE_Y := Source("y", [])
  const TEMP := ".tmp-1"
  const EXPORT := ".dddatasync-export-1"

  /** The add of SOURCE_X in a directory of two files, at this point of its program. */
  function Adding(th: Thread, lock: Option<nat>): State {
    State(TWO[TEMP := File([])], lock, map[0 := th], {TEMP}, {SOURCE_X}, {}, Tally(0, 0, 0, 0, 0))
  }

  function Looking(todo: set<string>, seen: set<string>): State {
    Adding(Scanning(SOURCE_X, TEMP, todo, seen), Some(0))
  }

  const ANY := Choice("", 0, false)

  lemma StartCopying()
    ensures Reachable(TWO, Adding(Copying(SOURCE_X, TEMP, 0), None))
  {
    ReachStart(TWO);
    assert IsTemp(TEMP) && !Hidden("x");
    ReachNext(TWO, Begun(TWO), StartAdd(0, SOURCE_X, TEMP), Adding(Copying(SOURCE_X, TEMP, 0), None));
  }

  lemma StartLooking()
    ensures Reachable(TWO, Looking({"a", "b", TEMP}, {}))
  {
    StartCopying();
    ReachNext(TWO, Adding(Copying(SOURCE_X, TEMP, 0), None), Resume(0, ANY), Adding(Waiting(SOURCE_X, TEMP), None));
    assert TWO[TEMP := File([])].Keys == {"a", "b", TEMP};
    ReachNext(TWO, Adding(Waiting(SOURCE_X, TEMP), None), Resume(0, ANY), Looking({"a", "b", TEMP}, {}));
  }

  lemma LookAt(todo: set<string>, seen: set<string>, pick: string)
    requires Reachable(TWO, Looking(todo, seen)) && pick in todo && pick in TWO[TEMP := File([])]
    ensures Reachable(TWO, Looking(todo - {pick}, Noticed(TWO[TEMP := File([])], seen, pick)))
  {
    ReachNext(TWO, Looking(todo, seen), Resume(0, Choice(pick, 0, false)),
              Looking(todo - {pick}, Noticed(TWO[TEMP := File([])], seen, pick)));
  }

  lemma LookAtTwo()
    ensures Reachable(TWO, Looking({}, {"a", "b"}))
  {
    StartLooking();
    assert Hidden(TEMP) && !Hidden("a") && !Hidden("b");
    LookAt({"a", "b", TEMP}, {}, "a");
    assert {"a", "b", TEMP} - {"a"} == {"b", TEMP} && {} + {"a"} == {"a"};
    LookAt({"b", TEMP}, {"a"}, "b");
    assert {"b", TEMP} - {"b"} == {TEMP} && {"a"} + {"b"} == {"a", "b"};
    LookAt({TEMP}, {"a", "b"}, TEMP);
    assert {TEMP} - {TEMP} == {};
  }

  /** While the add holds the mutex, having counted two files, a pull of SOURCE_Y runs. */
  function Pulling(th: Thread): State {
    Opened(Adding(Checking(SOURCE_X, TEMP, {"a", "b"}), Some(0)), 1, SOURCE_Y, EXPORT, th)
  }

  function PulledIn(adder: Thread): State {
    State(TWO[TEMP := File([])]["y" := File([])], Some(0), map[0 := adder, 1 := Finished(None, Pulled)],
          {TEMP, EXPORT}, {SOURCE_X, SOURCE_Y}, {"y"}, Tally(0, 0, 1, 1, 0))
  }

  lemma Land()
    ensures Step(Pulling(Landing(SOURCE_Y, EXPORT)), Resume(1, ANY)) == PulledIn(Checking(SOURCE_X, TEMP, {"a", "b"}))
  {
    var s, t := Pulling(Landing(SOURCE_Y, EXPORT)), PulledIn(Checking(SOURCE_X, TEMP, {"a", "b"}));
    var after := Step(s, Resume(1, ANY));
    assert !IsVisible(s.dir, "y") && EXPORT in s.dir && "y" !in s.dir;
    assert after.dir == t.dir;
    assert after.threads == t.threads;
    assert after.used == t.used && after.sources == t.sources && after.late == t.late;
  }

  lemma StopLooking()
    ensures Reachable(TWO, Adding(Checking(SOURCE_X, TEMP, {"a", "b"}), Some(0)))
  {
    LookAtTwo();
    assert |{"a", "b"}| == 2;
    ReachNext(TWO, Looking({}, {"a", "b"}), Resume(0, ANY), Adding(Checking(SOURCE_X, TEMP, {"a", "b"}), Some(0)));
  }

  lemma StartPulling()
    ensures Reachable(TWO, Pulling(Exporting(SOURCE_Y, EXPORT, 0)))
  {
    StopLooking();
    assert IsExport(EXPORT) && SafeName("y") && EXPORT != TEMP;
    ReachNext(TWO, Adding(Checking(SOURCE_X, TEMP, {"a", "b"}), Some(0)), StartPull(1, SOURCE_Y, EXPORT),
      Pulling(Exporting(SOURCE_Y, EXPORT, 0)));
  }

  lemma PullMeanwhile()
    ensures Reachable(TWO, PulledIn(Checking(SOURCE_X, TEMP, {"a", "b"})))
  {
    StartPulling();
    ReachNext(TWO, Pulling(Exporting(SOURCE_Y, EXPORT, 0)), Resume(1, ANY), Pulling(Landing(SOURCE_Y, EXPORT)));
    Land();
    ReachNext(TWO, Pulling(Landing(SOURCE_Y, EXPORT)), Resume(1, ANY), PulledIn(Checking(SOURCE_X, TEMP, {"a", "b"})));
  }

  lemma ThreeFiles(th: Thread)
    ensures Visible(PulledIn(th).dir) == {"a", "b", "y"} && |Visible(PulledIn(th).dir)| == 3
  {
    assert Hidden(TEMP) && !Hidden("y") && !Hidden("a") && !Hidden("b");
    assert Visible(PulledIn(th).dir) == {"a", "b", "y"};
  }

  lemma ReachedKeeps(root: Dir, s: State)
    requires Reachable(root, s)
    ensures Inv(root, s)
  {
    var states, events :| Run(root, states, events) && states[|states| - 1] == s;
    Invariant(root, states, events, |states| - 1);
  }

  /** The add then makes four files out of three: a step that is not a pull passes the limit of three. */
  lemma PullDuringAdd()
    ensures var s, e := PulledIn(Renaming(SOURCE_X, TEMP, {"a", "b"})), Resume(0, ANY);
      Reachable(TWO, s) && !Lands(s, e) && |Visible(s.dir)| == 3 && |Visible(Step(s, e).dir)| == 4
  {
    var s, e := PulledIn(Renaming(SOURCE_X, TEMP, {"a", "b"})), Resume(0, ANY);
    PullMeanwhile();
    ReachNext(TWO, PulledIn(Checking(SOURCE_X, TEMP, {"a", "b"})), e, s);
    ThreeFiles(Renaming(SOURCE_X, TEMP, {"a", "b"}));
    ReachedKeeps(TWO, s);
    CreationCounts(TWO, s, e);
  }

  // ----- a run in which an add replaces a file -----

  const PULLED_X := Source("x", [1])

  /** The add of SOURCE_X has found its name free and is about to rename; a pull of another "x" is at this stage. */
  function Meeting(puller: Thread, exported: Bytes): State {
    State(TWO[TEMP := File([])][EXPORT := File(exported)], Some(0),
      map[0 := Renaming(SOURCE_X, TEMP, {"a", "b"}), 1 := puller],
          {TEMP, EXPORT}, {SOURCE_X, PULLED_X}, {}, Tally(0, 0, 0, 0, 0))
  }

  const MET := State(TWO[TEMP := File([])]["x" := File([1])], Some(0),
                     map[0 := Renaming(SOURCE_X, TEMP, {"a", "b"}), 1 := Finished(None, Pulled)],
                     {TEMP, EXPORT}, {SOURCE_X, PULLED_X}, {"x"}, Tally(0, 0, 1, 1, 0))

  lemma PullOpens()
    ensures Reachable(TWO, Meeting(Exporting(PULLED_X, EXPORT, 0), []))
  {
    StopLooking();
    var s := Adding(Renaming(SOURCE_X, TEMP, {"a", "b"}), Some(0));
    ReachNext(TWO, Adding(Checking(SOURCE_X, TEMP, {"a", "b"}), Some(0)), Resume(0, ANY), s);
    assert IsExport(EXPORT) && SafeName("x") && EXPORT != TEMP;
    ReachNext(TWO, s, StartPull(1, PULLED_X, EXPORT), Meeting(Exporting(PULLED_X, EXPORT, 0), []));
  }

  lemma PullWrites()
    ensures Reachable(TWO, Meeting(Landing(PULLED_X, EXPORT), [1]))
  {
    PullOpens();
    var s, t := Meeting(Exporting(PULLED_X, EXPORT, 0), []), Meeting(Exporting(PULLED_X, EXPORT, 1), [1]);
    assert PULLED_X.content[..1] == [1];
    assert Step(s, Resume(1, Choice("", 1, false))).dir == t.dir;
    ReachNext(TWO, s, Resume(1, Choice("", 1, false)), t);
    ReachNext(TWO, t, Resume(1, ANY), Meeting(Landing(PULLED_X, EXPORT), [1]));
  }

  lemma PullLandsBetween()
    ensures Reachable(TWO, MET)
  {
    PullWrites();
    var s := Meeting(Landing(PULLED_X, EXPORT), [1]);
    var after := Step(s, Resume(1, ANY));
    assert !IsVisible(s.dir, "x") && EXPORT in s.dir && "x" !in s.dir;
    assert after.dir == MET.dir;
    ReachNext(TWO, s, Resume(1, ANY), MET);
  }

  /** The add then reports success, and the file that was pulled in is lost. */
  lemma AddReplacesPulled()
    ensures Reachable(TWO, MET) && MET.dir["x"] == File([1])
    ensures var t := Step(MET, Resume(0, ANY));
      && t.threads[0] == Finished(Some(TEMP), Added)
      && "x" in t.dir && t.dir["x"] == File([]) && t.tally.overwrites == 1
  {
    PullLandsBetween();
    assert !Hidden("x") && TEMP in MET.dir;
  }
}

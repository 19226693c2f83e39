/**
 * What the outcome of an operation on the store means when any other operations run beside it: the
 * size it had, what its listing returned, which names it met and what it left in the directory.
 */
module StoreOutcomes {
  import opened Collections
  import opened Directory
  import opened StoreThreads
  import opened StoreProofs
  import opened StoreLimit
  import opened StoreResults
  import opened StoreAdds

  predicate Resumes(e: Event, id: nat) {
    e.Resume? && e.id == id
  }

  // ----- the verdict of a listing -----

  /** In this step the thread comes to the end of its listing. */
  predicate ListingEnds(s: State, e: Event, id: nat) {
    Resumes(e, id) && id in s.threads && Lists(s.threads[id]) && s.threads[id].todo == {}
  }

  /**
   * From step t to step c the thread held the mutex, and its listing, which ends there, returned
   * exactly these names: among them every visible file that no pull has landed in the meantime.
   */
  ghost predicate Returns(states: seq<State>, events: seq<Event>, t: nat, c: nat, id: nat, names: set<string>) {
    && LockedAt(states, events, t, c, id) && c < |events| && ListingEnds(states[c], events[c], id)
    && (forall n :: n in names <==> NoticedDuring(states, events, t, c, id, n))
    && Visible(states[c].dir) <= names + Landed(states, events, t, c)
  }

  /** Between steps i and k the thread has listed the directory; the listing returned at least three names, or not. */
  ghost predicate Judged(states: seq<State>, events: seq<Event>, i: nat, k: nat, id: nat, full: bool) {
    exists t: nat, c: nat, names :: i < t && c < k && Returns(states, events, t, c, id, names)
      && (full <==> |names| >= MAX_FILES)
  }

  lemma ListingReturns(root: Dir, states: seq<State>, events: seq<Event>, c: nat, id: nat) returns (t: nat)
    requires Run(root, states, events) && c < |events| && ListingEnds(states[c], events[c], id)
    ensures Returns(states, events, t, c, id, SeenBy(states[c].threads[id]))
  {
    var th := states[c].threads[id];
    t := WasLocked(root, states, events, c, id);
    Invariant(root, states, events, c);
    assert ScanFact(states[c], th);
    forall n
      ensures n in SeenBy(th) <==> NoticedDuring(states, events, t, c, id, n)
      ensures n in states[c].late <==> LandedDuring(states, events, t, c, n)
    {
      AccountKept(root, states, events, t, c, id, n);
    }
  }

  /** The thread was started in this step. */
  predicate Starts(s: State, e: Event, id: nat) {
    !e.Resume? && !e.Crash? && e.id == id && id !in s.threads
  }

  lemma JudgedNow(root: Dir, states: seq<State>, events: seq<Event>, i: nat, k: nat, id: nat)
    requires Run(root, states, events) && i < k < |events| && Starts(states[i], events[i], id)
    requires ListingEnds(states[k], events[k], id)
    ensures Judged(states, events, i, k + 1, id, |SeenBy(states[k].threads[id])| >= MAX_FILES)
  {
    var t := ListingReturns(root, states, events, k, id);
    hide Run;
    assert !HasLock(states[i], id);
  }

  // ----- what the steps of an operation meet and leave -----

  /** In this step of the thread the name is there. */
  ghost predicate MeetsAt(states: seq<State>, events: seq<Event>, c: nat, id: nat, n: string) {
    c < |events| && c < |states| && Resumes(events[c], id) && n in states[c].dir
  }

  ghost predicate Meets(states: seq<State>, events: seq<Event>, i: nat, k: nat, id: nat, n: string) {
    exists c: nat :: i < c < k && MeetsAt(states, events, c, id, n)
  }

  /** After this step of the thread the file is stored, whole, and its temporary name is gone. */
  ghost predicate StoresAt(states: seq<State>, events: seq<Event>, c: nat, id: nat, src: Source, tmp: string) {
    && c < |events| && c + 1 < |states| && Resumes(events[c], id)
    && src.name in states[c + 1].dir && states[c + 1].dir[src.name] == File(src.content)
    && tmp !in states[c + 1].dir
  }

  ghost predicate Stores(states: seq<State>, events: seq<Event>, i: nat, k: nat, id: nat, src: Source, tmp: string) {
    exists c: nat :: i < c < k && StoresAt(states, events, c, id, src, tmp)
  }

  /** This step of the thread takes the file of this name away, and nothing else. */
  ghost predicate UnlinksAt(states: seq<State>, events: seq<Event>, c: nat, id: nat, n: string) {
    && c < |events| && c + 1 < |states| && Resumes(events[c], id)
    && n in states[c].dir && states[c].dir[n].File? && states[c + 1].dir == states[c].dir - {n}
  }

  ghost predicate UnlinksOne(states: seq<State>, events: seq<Event>, i: nat, k: nat, id: nat, n: string) {
    exists c: nat :: i < c < k && UnlinksAt(states, events, c, id, n)
  }

  /** In this step of the thread there is no file of this name. */
  ghost predicate MissesAt(states: seq<State>, events: seq<Event>, c: nat, id: nat, n: string) {
    && c < |events| && c < |states| && Resumes(events[c], id)
    && (n in states[c].dir ==> states[c].dir[n].Folder?)
  }

  ghost predicate Misses(states: seq<State>, events: seq<Event>, i: nat, k: nat, id: nat, n: string) {
    exists c: nat :: i < c < k && MissesAt(states, events, c, id, n)
  }

  /** This step of the thread met an I/O error. */
  predicate ErrsAt(events: seq<Event>, c: nat, id: nat) {
    c < |events| && Resumes(events[c], id) && events[c].choice.fail
  }

  ghost predicate Errs(events: seq<Event>, i: nat, k: nat, id: nat) {
    exists c: nat :: i < c < k && ErrsAt(events, c, id)
  }

  // ----- the outcomes -----

  predicate Fits(size: nat) {
    size <= MAX_FILE_BYTES
  }

  ghost predicate AddMeans(states: seq<State>, events: seq<Event>, i: nat, k: nat, id: nat, src: Source, tmp: string,
      o: Outcome) {
    match o
    case TooBig => !Fits(|src.content|)
    case Full => Fits(|src.content|) && Judged(states, events, i, k, id, true)
    case Exists =>
      Fits(|src.content|) && Judged(states, events, i, k, id, false) && Meets(states, events, i, k, id, src.name)
    case Added =>
      Fits(|src.content|) && Judged(states, events, i, k, id, false) && Stores(states, events, i, k, id, src, tmp)
    case Unreadable => Fits(|src.content|) && Errs(events, i, k, id)
    case Failed =>
      Errs(events, i, k, id) || Misses(states, events, i, k, id, tmp) || Meets(states, events, i, k, id, src.name)
    case _ => false
  }

  ghost predicate AskMeans(states: seq<State>, events: seq<Event>, i: nat, k: nat, id: nat, size: nat, o: Outcome) {
    match o
    case TooBig => !Fits(size)
    case Full => Fits(size) && Judged(states, events, i, k, id, true)
    case Allowed => Fits(size) && Judged(states, events, i, k, id, false)
    case Failed => Fits(size) && Errs(events, i, k, id)
    case _ => false
  }

  ghost predicate RemoveMeans(states: seq<State>, events: seq<Event>, i: nat, k: nat, id: nat, n: string, o: Outcome)
    requires i < |states|
  {
    match o
    case NotFound => n !in states[i].dir
    case Removed => n in states[i].dir && UnlinksOne(states, events, i, k, id, n)
    case Failed => n in states[i].dir && Misses(states, events, i, k, id, n)
    case _ => false
  }

  ghost predicate PullMeans(states: seq<State>, events: seq<Event>, i: nat, k: nat, id: nat, src: Source, tmp: string,
      o: Outcome) {
    match o
    case Pulled => SafeName(src.name) && src.name != "" && Stores(states, events, i, k, id, src, tmp)
    case Failed =>
      || !SafeName(src.name) || src.name == "" || Errs(events, i, k, id)
      || Misses(states, events, i, k, id, tmp) || Meets(states, events, i, k, id, src.name)
    case _ => false
  }

  ghost predicate CleanMeans(states: seq<State>, events: seq<Event>, i: nat, k: nat, id: nat, listed: set<string>,
      o: Outcome) {
    match o
    case Cleaned => true
    case Failed => exists n :: n in listed && Misses(states, events, i, k, id, n)
    case _ => false
  }

  /** What a thread is about and what has become of it, by the event that started it. */
  ghost predicate Means(states: seq<State>, events: seq<Event>, i: nat, k: nat, id: nat, o: Outcome)
    requires i < |events| && i < |states|
  {
    match events[i]
    case StartAdd(_, src, tmp) => AddMeans(states, events, i, k, id, src, tmp, o)
    case StartPull(_, src, tmp) => PullMeans(states, events, i, k, id, src, tmp, o)
    case StartAsk(_, size) => AskMeans(states, events, i, k, id, size, o)
    case StartRemove(_, n) => RemoveMeans(states, events, i, k, id, n, o)
    case StartClean(_, listed) => CleanMeans(states, events, i, k, id, listed, o)
    case _ => false
  }

  predicate Refusal(o: Outcome) {
    o.TooBig? || o.Full? || o.Exists? || o.Unreadable?
  }

  /** Where the thread is on its way, and what is known by then. */
  ghost predicate Underway(states: seq<State>, events: seq<Event>, i: nat, k: nat, id: nat, th: Thread)
    requires i < |events| && i < |states|
  {
    match th
    case Copying(src, tmp, _) => events[i] == StartAdd(id, src, tmp)
    case Waiting(src, tmp) => events[i] == StartAdd(id, src, tmp)
    case Scanning(src, tmp, _, _) => events[i] == StartAdd(id, src, tmp) && Fits(|src.content|)
    case Checking(src, tmp, _) =>
      events[i] == StartAdd(id, src, tmp) && Fits(|src.content|) && Judged(states, events, i, k, id, false)
    case Renaming(src, tmp, _) =>
      events[i] == StartAdd(id, src, tmp) && Fits(|src.content|) && Judged(states, events, i, k, id, false)
    case Rejecting(tmp, o) =>
      events[i].StartAdd? && events[i].tmp == tmp && Refusal(o) && Means(states, events, i, k, id, o)
    case Asking(size) => events[i] == StartAsk(id, size)
    case AskScanning(_, _) => events[i].StartAsk? && Fits(events[i].size)
    case Removing(n) => events[i] == StartRemove(id, n) && n in states[i].dir
    case Cleaning(left) => events[i].StartClean? && left <= events[i].listed
    case Exporting(src, tmp, _) => events[i] == StartPull(id, src, tmp) && SafeName(src.name)
    case Landing(src, tmp) => events[i] == StartPull(id, src, tmp) && SafeName(src.name)
    case Finished(_, o) => Means(states, events, i, k, id, o)
  }

  lemma StaysJudged(states: seq<State>, events: seq<Event>, i: nat, k: nat, id: nat, full: bool)
    requires Judged(states, events, i, k, id, full)
    ensures Judged(states, events, i, k + 1, id, full)
  {
    hide Returns;
  }

  lemma StaysTrue(states: seq<State>, events: seq<Event>, i: nat, k: nat, id: nat, n: string, src: Source, tmp: string)
    ensures Meets(states, events, i, k, id, n) ==> Meets(states, events, i, k + 1, id, n)
    ensures Stores(states, events, i, k, id, src, tmp) ==> Stores(states, events, i, k + 1, id, src, tmp)
    ensures UnlinksOne(states, events, i, k, id, n) ==> UnlinksOne(states, events, i, k + 1, id, n)
  {
    hide MeetsAt, StoresAt, UnlinksAt;
  }

  lemma StaysMissed(states: seq<State>, events: seq<Event>, i: nat, k: nat, id: nat, n: string)
    ensures Misses(states, events, i, k, id, n) ==> Misses(states, events, i, k + 1, id, n)
    ensures Errs(events, i, k, id) ==> Errs(events, i, k + 1, id)
  {
    hide MissesAt, ErrsAt;
  }

  lemma MeaningStays(states: seq<State>, events: seq<Event>, i: nat, k: nat, id: nat, o: Outcome)
    requires i < |events| && i < |states| && Means(states, events, i, k, id, o)
    ensures Means(states, events, i, k + 1, id, o)
  {
    hide Judged, Meets, Stores, UnlinksOne, Misses, Errs;
    forall full | Judged(states, events, i, k, id, full)
      ensures Judged(states, events, i, k + 1, id, full)
    {
      StaysJudged(states, events, i, k, id, full);
    }
    match events[i]
    case StartAdd(_, src, tmp) =>
      StaysTrue(states, events, i, k, id, src.name, src, tmp);
      StaysMissed(states, events, i, k, id, tmp);
    case StartPull(_, src, tmp) =>
      StaysTrue(states, events, i, k, id, src.name, src, tmp);
      StaysMissed(states, events, i, k, id, tmp);
    case StartAsk(_, _) => StaysMissed(states, events, i, k, id, "");
    case StartRemove(_, n) =>
      StaysTrue(states, events, i, k, id, n, Source("", []), "");
      StaysMissed(states, events, i, k, id, n);
    case StartClean(_, listed) =>
      forall n | n in listed
        ensures Misses(states, events, i, k, id, n) ==> Misses(states, events, i, k + 1, id, n)
      {
        StaysMissed(states, events, i, k, id, n);
      }
  }

  lemma UnderwayStays(states: seq<State>, events: seq<Event>, i: nat, k: nat, id: nat, th: Thread)
    requires i < |events| && i < |states| && Underway(states, events, i, k, id, th)
    ensures Underway(states, events, i, k + 1, id, th)
  {
    hide Judged, Means;
    match th
    case Checking(_, _, _) => StaysJudged(states, events, i, k, id, false);
    case Renaming(_, _, _) => StaysJudged(states, events, i, k, id, false);
    case Rejecting(_, o) => MeaningStays(states, events, i, k, id, o);
    case Finished(_, o) => MeaningStays(states, events, i, k, id, o);
    case _ =>
  }

  ghost predicate UnderwayAt(states: seq<State>, events: seq<Event>, i: nat, k: nat, id: nat)
    requires i < |events| && i < |states|
  {
    k < |states| && id in states[k].threads && Underway(states, events, i, k, id, states[k].threads[id])
  }

  lemma SetsOff(root: Dir, states: seq<State>, events: seq<Event>, i: nat, id: nat)
    requires Run(root, states, events) && i < |events| && Starts(states[i], events[i], id)
    ensures UnderwayAt(states, events, i, i + 1, id)
  {
    StepOf(root, states, events, i);
  }

  // ----- the thread's own steps -----

  /** The thread is underway and takes a step. */
  ghost predicate Going(root: Dir, states: seq<State>, events: seq<Event>, i: nat, k: nat, id: nat) {
    && Run(root, states, events) && i < k < |events| && k < |states| && Starts(states[i], events[i], id)
    && Resumes(events[k], id) && id in states[k].threads
    && Underway(states, events, i, k, id, states[k].threads[id])
  }

  ghost predicate GoesOn(states: seq<State>, events: seq<Event>, i: nat, k: nat, id: nat)
    requires i < |events| && i < |states| && k < |events| && k < |states| && events[k].Resume?
    requires id in states[k].threads
  {
    Underway(states, events, i, k + 1, id, Decide(states[k], states[k].threads[id], events[k].choice).next)
  }

  /** An I/O error in this step. */
  lemma ErrsNow(states: seq<State>, events: seq<Event>, i: nat, k: nat, id: nat)
    requires i < k < |events| && Resumes(events[k], id) && events[k].choice.fail
    ensures Errs(events, i, k + 1, id)
  {
    assert ErrsAt(events, k, id);
  }

  lemma MissesNow(states: seq<State>, events: seq<Event>, i: nat, k: nat, id: nat, n: string)
    requires i < k && k < |states| && k < |events| && Resumes(events[k], id)
    requires n in states[k].dir ==> states[k].dir[n].Folder?
    ensures Misses(states, events, i, k + 1, id, n)
  {
    assert MissesAt(states, events, k, id, n);
  }

  lemma MeetsNow(states: seq<State>, events: seq<Event>, i: nat, k: nat, id: nat, n: string)
    requires i < k && k < |states| && k < |events| && Resumes(events[k], id) && n in states[k].dir
    ensures Meets(states, events, i, k + 1, id, n)
  {
    assert MeetsAt(states, events, k, id, n);
  }

  /** Copying and exporting end only with an error or with the whole file. */
  lemma CopyStep(root: Dir, states: seq<State>, events: seq<Event>, i: nat, k: nat, id: nat)
    requires Going(root, states, events, i, k, id)
    requires states[k].threads[id].Copying? || states[k].threads[id].Exporting?
    ensures GoesOn(states, events, i, k, id)
  {
    hide Run, Misses, Meets, Errs;
    if events[k].choice.fail {
      ErrsNow(states, events, i, k, id);
    }
  }

  lemma CleanStep(root: Dir, states: seq<State>, events: seq<Event>, i: nat, k: nat, id: nat)
    requires Going(root, states, events, i, k, id) && states[k].threads[id].Cleaning?
    ensures GoesOn(states, events, i, k, id)
  {
    hide Run, Misses;
    var n := events[k].choice.pick;
    if n in states[k].dir && states[k].dir[n].File? {
    } else {
      MissesNow(states, events, i, k, id, n);
    }
  }

  lemma ListingStep(root: Dir, states: seq<State>, events: seq<Event>, i: nat, k: nat, id: nat)
    requires Going(root, states, events, i, k, id) && states[k].threads[id].Scanning?
    ensures GoesOn(states, events, i, k, id)
  {
    hide Run, Judged, Errs;
    if events[k].choice.fail {
      ErrsNow(states, events, i, k, id);
    }
    if states[k].threads[id].todo == {} {
      JudgedNow(root, states, events, i, k, id);
    }
  }

  lemma AskListingStep(root: Dir, states: seq<State>, events: seq<Event>, i: nat, k: nat, id: nat)
    requires Going(root, states, events, i, k, id) && states[k].threads[id].AskScanning?
    ensures GoesOn(states, events, i, k, id)
  {
    hide Run, Judged, Errs;
    if events[k].choice.fail {
      ErrsNow(states, events, i, k, id);
    }
    if states[k].threads[id].todo == {} {
      JudgedNow(root, states, events, i, k, id);
    }
  }

  lemma MoveStores(root: Dir, states: seq<State>, events: seq<Event>, i: nat, k: nat, id: nat)
    requires Going(root, states, events, i, k, id)
    requires states[k].threads[id].Renaming? || states[k].threads[id].Landing?
    requires Decide(states[k], states[k].threads[id], events[k].choice).change.Move?
    ensures var th := states[k].threads[id]; Stores(states, events, i, k + 1, id, th.src, th.tmp)
  {
    var s, th := states[k], states[k].threads[id];
    StepOf(root, states, events, k);
    Invariant(root, states, events, k);
    StepsAreTame(root, s, id, events[k].choice);
    assert HoldsOk(s.dir, th);
    hide Run, Inv, Underway;
    assert StoresAt(states, events, k, id, th.src, th.tmp);
  }

  lemma MoveRefused(states: seq<State>, events: seq<Event>, i: nat, k: nat, id: nat)
    requires i < k && k < |states| && k < |events| && Resumes(events[k], id) && id in states[k].threads
    requires var th := states[k].threads[id];
      (th.Renaming? || th.Landing?) && !Decide(states[k], th, events[k].choice).change.Move?
    ensures var th := states[k].threads[id];
      || Misses(states, events, i, k + 1, id, th.tmp) || Meets(states, events, i, k + 1, id, th.src.name)
      || (th.Landing? && th.src.name == "")
  {
    var th := states[k].threads[id];
    hide Misses, Meets;
    if th.tmp !in states[k].dir {
      MissesNow(states, events, i, k, id, th.tmp);
    } else if th.src.name in states[k].dir {
      MeetsNow(states, events, i, k, id, th.src.name);
    }
  }

  lemma CheckStep(root: Dir, states: seq<State>, events: seq<Event>, i: nat, k: nat, id: nat)
    requires Going(root, states, events, i, k, id) && states[k].threads[id].Checking?
    ensures GoesOn(states, events, i, k, id)
  {
    hide Run, Judged, Meets;
    StaysJudged(states, events, i, k, id, false);
    if states[k].threads[id].src.name in states[k].dir {
      MeetsNow(states, events, i, k, id, states[k].threads[id].src.name);
    }
  }

  lemma RenameStep(root: Dir, states: seq<State>, events: seq<Event>, i: nat, k: nat, id: nat)
    requires Going(root, states, events, i, k, id) && states[k].threads[id].Renaming?
    ensures GoesOn(states, events, i, k, id)
  {
    hide Run, Judged, Stores, Misses, Meets;
    StaysJudged(states, events, i, k, id, false);
    if Decide(states[k], states[k].threads[id], events[k].choice).change.Move? {
      MoveStores(root, states, events, i, k, id);
    } else {
      MoveRefused(states, events, i, k, id);
    }
  }

  lemma LandStep(root: Dir, states: seq<State>, events: seq<Event>, i: nat, k: nat, id: nat)
    requires Going(root, states, events, i, k, id) && states[k].threads[id].Landing?
    ensures GoesOn(states, events, i, k, id)
  {
    hide Run, Stores, Misses, Meets;
    if Decide(states[k], states[k].threads[id], events[k].choice).change.Move? {
      MoveStores(root, states, events, i, k, id);
    } else {
      MoveRefused(states, events, i, k, id);
    }
  }

  lemma RemoveStep(root: Dir, states: seq<State>, events: seq<Event>, i: nat, k: nat, id: nat)
    requires Going(root, states, events, i, k, id) && states[k].threads[id].Removing?
    ensures GoesOn(states, events, i, k, id)
  {
    var n := states[k].threads[id].name;
    StepOf(root, states, events, k);
    hide Run;
    if n in states[k].dir && states[k].dir[n].File? {
      assert UnlinksAt(states, events, k, id, n);
    } else {
      MissesNow(states, events, i, k, id, n);
    }
  }

  lemma OwnStep(root: Dir, states: seq<State>, events: seq<Event>, i: nat, k: nat, id: nat)
    requires Going(root, states, events, i, k, id)
    ensures GoesOn(states, events, i, k, id)
  {
    match states[k].threads[id]
    case Scanning(_, _, _, _) => ListingStep(root, states, events, i, k, id);
    case AskScanning(_, _) => AskListingStep(root, states, events, i, k, id);
    case Checking(_, _, _) => CheckStep(root, states, events, i, k, id);
    case Renaming(_, _, _) => RenameStep(root, states, events, i, k, id);
    case Landing(_, _) => LandStep(root, states, events, i, k, id);
    case Copying(_, _, _) => CopyStep(root, states, events, i, k, id);
    case Exporting(_, _, _) => CopyStep(root, states, events, i, k, id);
    case Cleaning(_) => CleanStep(root, states, events, i, k, id);
    case Removing(_) => RemoveStep(root, states, events, i, k, id);
    case Rejecting(_, o) => MeaningStays(states, events, i, k, id, o);
    case Finished(_, o) => MeaningStays(states, events, i, k, id, o);
    case _ =>
  }

  // ----- whole runs -----

  lemma ElsewhereStays(s: State, e: Event, id: nat)
    requires Enabled(s, e) && id in s.threads && !Resumes(e, id) && !e.Crash?
    ensures id in Step(s, e).threads && Step(s, e).threads[id] == s.threads[id]
  {
    match e
    case Resume(who, c) => ThreadsAfter(s, who, c);
    case _ =>
  }

  lemma UnderwayNext(root: Dir, states: seq<State>, events: seq<Event>, i: nat, k: nat, id: nat)
    requires Run(root, states, events) && i < k < |events| && Starts(states[i], events[i], id)
    requires UnderwayAt(states, events, i, k, id) && !events[k].Crash?
    ensures UnderwayAt(states, events, i, k + 1, id)
  {
    StepOf(root, states, events, k);
    if Resumes(events[k], id) {
      OwnStep(root, states, events, i, k, id);
      ThreadsAfter(states[k], id, events[k].choice);
    } else {
      ElsewhereStays(states[k], events[k], id);
      UnderwayStays(states, events, i, k, id, states[k].threads[id]);
    }
    hide Run, Underway, Decide;
  }

  lemma BoundsOf(root: Dir, states: seq<State>, events: seq<Event>)
    requires Run(root, states, events)
    ensures |states| == |events| + 1
  {
  }

  lemma {:induction false} AlwaysUnderway(root: Dir, states: seq<State>, events: seq<Event>, i: nat, k: nat, id: nat)
    requires Run(root, states, events) && i < k < |states| && i < |events| && Starts(states[i], events[i], id)
    requires forall m :: i < m < k ==> !events[m].Crash?
    ensures UnderwayAt(states, events, i, k, id)
  {
    hide *;
    BoundsOf(root, states, events);
    if k == i + 1 {
      SetsOff(root, states, events, i, id);
    } else {
      AlwaysUnderway(root, states, events, i, k - 1, id);
      UnderwayNext(root, states, events, i, k - 1, id);
    }
  }

  /**
   * Whatever runs beside it: an operation that has ended has done so for a reason. See AddMeans,
   * AskMeans, RemoveMeans and PullMeans for what each outcome says.
   */
  lemma OutcomeMeans(root: Dir, states: seq<State>, events: seq<Event>, i: nat, k: nat, id: nat)
    requires Run(root, states, events) && i < k < |states| && i < |events| && Starts(states[i], events[i], id)
    requires forall m :: i < m < k ==> !events[m].Crash?
    requires id in states[k].threads && states[k].threads[id].Finished?
    ensures Means(states, events, i, k, id, states[k].threads[id].outcome)
  {
    AlwaysUnderway(root, states, events, i, k, id);
  }

  /** The thread was started by this event at step i and has ended, without a crash, with this outcome at state k. */
  ghost predicate Ends(root: Dir, states: seq<State>, events: seq<Event>, i: nat, k: nat, start: Event, o: Outcome) {
    && Run(root, states, events) && i < k < |states| && i < |events| && events[i] == start
    && !start.Resume? && !start.Crash? && (forall m :: i < m < k ==> !events[m].Crash?)
    && start.id in states[k].threads && states[k].threads[start.id].Finished?
    && states[k].threads[start.id].outcome == o
  }

  lemma EndsForAReason(root: Dir, states: seq<State>, events: seq<Event>, i: nat, k: nat, start: Event, o: Outcome)
    requires Ends(root, states, events, i, k, start, o)
    ensures Means(states, events, i, k, start.id, o)
  {
    StepOf(root, states, events, i);
    hide Run, Means;
    OutcomeMeans(root, states, events, i, k, start.id);
  }

  /** A limit check: too big exactly above the limit; else full or allowed by what its listing returned. */
  lemma CanAddAnswers(root: Dir, states: seq<State>, events: seq<Event>, i: nat, k: nat, id: nat, size: nat, o: Outcome)
    requires Ends(root, states, events, i, k, StartAsk(id, size), o)
    ensures o == TooBig <==> size > MAX_FILE_BYTES
    ensures o == Allowed ==> Judged(states, events, i, k, id, false)
    ensures o == Full ==> Judged(states, events, i, k, id, true)
    ensures o == TooBig || o == Allowed || o == Full || (o == Failed && Errs(events, i, k, id))
  {
    hide Ends, Judged, Errs;
    EndsForAReason(root, states, events, i, k, StartAsk(id, size), o);
    StartedBy(root, states, events, i, k, StartAsk(id, size), o);
  }

  /** A remove: not found exactly if the name was not there when it looked; removed only by unlinking that file. */
  lemma RemoveAnswers(root: Dir, states: seq<State>, events: seq<Event>, i: nat, k: nat, id: nat, n: string, o: Outcome)
    requires Ends(root, states, events, i, k, StartRemove(id, n), o)
    ensures i < |states| && (o == NotFound <==> n !in states[i].dir)
    ensures o == Removed ==> UnlinksOne(states, events, i, k, id, n)
    ensures o == NotFound || o == Removed || (o == Failed && Misses(states, events, i, k, id, n))
  {
    hide Ends, UnlinksOne, Misses;
    EndsForAReason(root, states, events, i, k, StartRemove(id, n), o);
    StartedBy(root, states, events, i, k, StartRemove(id, n), o);
  }

  /** An add: stored, whole, after a listing of at most two; or refused for the reason it gives. */
  lemma AddAnswers(root: Dir, states: seq<State>, events: seq<Event>, i: nat, k: nat, id: nat, src: Source, tmp: string,
      o: Outcome)
    requires Ends(root, states, events, i, k, StartAdd(id, src, tmp), o)
    ensures o == TooBig ==> |src.content| > MAX_FILE_BYTES
    ensures o == Full ==> Judged(states, events, i, k, id, true)
    ensures o == Exists ==> Judged(states, events, i, k, id, false) && Meets(states, events, i, k, id, src.name)
    ensures o == Added ==> Judged(states, events, i, k, id, false) && Stores(states, events, i, k, id, src, tmp)
    ensures |src.content| > MAX_FILE_BYTES ==> o == TooBig || o == Failed
  {
    hide Ends, Judged, Meets, Stores, Misses, Errs;
    EndsForAReason(root, states, events, i, k, StartAdd(id, src, tmp), o);
    StartedBy(root, states, events, i, k, StartAdd(id, src, tmp), o);
  }

  lemma StartedBy(root: Dir, states: seq<State>, events: seq<Event>, i: nat, k: nat, start: Event, o: Outcome)
    requires Ends(root, states, events, i, k, start, o)
    ensures i < |events| && i < |states| && events[i] == start
  {
  }
}

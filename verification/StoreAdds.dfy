/** What can happen to an add between its steps: which files land meanwhile, and what its rename then does. */
module StoreAdds {
  import opened Collections
  import opened Directory
  import opened StoreThreads
  import opened StoreProofs
  import opened StoreLimit
  import opened StoreResults

  // ----- events that concern one name -----

  /** A pull renames its export to this name. */
  predicate LandsName(s: State, e: Event, n: string) {
    && e.Resume? && e.id in s.threads && s.threads[e.id].Landing? && s.threads[e.id].src.name == n
    && Decide(s, s.threads[e.id], e.choice).change.Move?
  }

  /** A remove unlinks this name. */
  predicate RemovesName(s: State, e: Event, n: string) {
    && e.Resume? && e.id in s.threads && s.threads[e.id].Removing?
    && Decide(s, s.threads[e.id], e.choice).change == Drop(n)
  }

  /** The thread holds the mutex before and after the step. */
  ghost predicate HoldsOn(s: State, e: Event, id: nat)
    requires Enabled(s, e)
  {
    id in s.threads && InLock(s.threads[id]) && id in Step(s, e).threads && InLock(Step(s, e).threads[id])
  }

  lemma ChangesWhileHeld(root: Dir, s: State, e: Event, id: nat)
    requires Inv(root, s) && Enabled(s, e) && HoldsOn(s, e, id) && e.Resume?
    ensures var th := s.threads[e.id];
      match Decide(s, th, e.choice).change
      case Keep => true
      case Write(n, _) => Hidden(n)
      case Drop(n) => th.Removing? || Hidden(n)
      case Move(from, to) => th.Landing? && to == th.src.name && Hidden(from)
  {
    var th := s.threads[e.id];
    StepsAreTame(root, s, e.id, e.choice);
    WhoMoves(s, th, e.choice);
    LockDecision(s, th, e.choice);
    ThreadsAfter(s, e.id, e.choice);
    assert ScanFact(s, th);
    assert FilesOk(root, s);
    var a := Decide(s, th, e.choice);
    if a.change.Drop? && !th.Removing? {
      TempsAreHidden(a.change.name);
    }
  }

  lemma NameAfterResume(root: Dir, s: State, id: nat, c: Choice, holder: nat, n: string)
    requires Inv(root, s) && id in s.threads && HoldsOn(s, Resume(id, c), holder) && !Hidden(n)
    ensures n in Resumed(s, id, c).dir
      <==> LandsName(s, Resume(id, c), n) || (n in s.dir && !RemovesName(s, Resume(id, c), n))
  {
    ChangesWhileHeld(root, s, Resume(id, c), holder);
    hide Inv, HoldsOn, Decide, Hidden;
    var a := Decide(s, s.threads[id], c);
    assert Resumed(s, id, c).dir == Apply(s.dir, a.change);
    match a.change
    case _ =>
  }

  /** While a thread holds the mutex, only landings bring a visible name and only removes take one. */
  lemma NameWhileHeld(root: Dir, s: State, e: Event, id: nat, n: string)
    requires Inv(root, s) && Enabled(s, e) && HoldsOn(s, e, id) && !Hidden(n)
    ensures n in Step(s, e).dir <==> LandsName(s, e, n) || (n in s.dir && !RemovesName(s, e, n))
  {
    match e
    case Resume(who, c) => NameAfterResume(root, s, who, c, id, n);
    case StartAdd(_, _, tmp) => TempsAreHidden(tmp);
    case StartPull(_, _, tmp) => TempsAreHidden(tmp);
    case _ =>
  }

  // ----- from the check of the name to the rename -----

  /** At step c the add found its target name free, and up to state k it has done nothing since. */
  ghost predicate CheckedAt(states: seq<State>, events: seq<Event>, c: nat, k: nat, id: nat) {
    && c < k < |states| && k <= |events|
    && events[c].Resume? && events[c].id == id && id in states[c].threads && states[c].threads[id].Checking?
    && forall m :: c < m <= k ==> StillRenaming(states[m], states[k], id)
  }

  ghost predicate StillRenaming(s: State, t: State, id: nat) {
    id in s.threads && s.threads[id].Renaming? && id in t.threads && t.threads[id] == s.threads[id]
  }

  /** A pull landed this name at step j, and up to state k nobody removed it. */
  ghost predicate LandedToStay(states: seq<State>, events: seq<Event>, j: nat, k: nat, n: string) {
    && j < k < |states| && k <= |events| && LandsName(states[j], events[j], n)
    && forall m :: j < m < k ==> !RemovesName(states[m], events[m], n)
  }

  ghost predicate LandedSince(states: seq<State>, events: seq<Event>, c: nat, k: nat, n: string) {
    exists j: nat :: c < j && LandedToStay(states, events, j, k, n)
  }

  /** One more step in which the add still waits for its rename. */
  lemma LandedOneMore(states: seq<State>, events: seq<Event>, c: nat, k: nat, n: string)
    requires c < k < |events| && |states| == |events| + 1
    ensures LandedSince(states, events, c, k + 1, n) <==>
      LandsName(states[k], events[k], n) || (LandedSince(states, events, c, k, n)
        && !RemovesName(states[k], events[k], n))
  {
    var next := k + 1;
    if LandsName(states[k], events[k], n) {
      assert LandedToStay(states, events, k, next, n);
    } else if LandedSince(states, events, c, next, n) {
      var j: nat :| c < j && LandedToStay(states, events, j, next, n);
      assert LandedToStay(states, events, j, k, n);
    } else if LandedSince(states, events, c, k, n) {
      var j: nat :| c < j && LandedToStay(states, events, j, k, n);
      assert !RemovesName(states[k], events[k], n) ==> LandedToStay(states, events, j, next, n);
    }
  }

  lemma TargetNext(root: Dir, states: seq<State>, events: seq<Event>, c: nat, k: nat, id: nat, n: string)
    requires Run(root, states, events) && c < k < |events| && !Hidden(n)
    requires HoldsOn(states[k], events[k], id)
    requires n in states[k].dir <==> LandedSince(states, events, c, k, n)
    ensures n in states[k + 1].dir <==> LandedSince(states, events, c, k + 1, n)
  {
    StepOf(root, states, events, k);
    Invariant(root, states, events, k);
    NameWhileHeld(root, states[k], events[k], id, n);
    hide *;
    LandedOneMore(states, events, c, k, n);
  }

  lemma {:induction false} TargetSince(root: Dir, states: seq<State>, events: seq<Event>, c: nat, k: nat, id: nat,
      n: string)
    requires Run(root, states, events) && CheckedAt(states, events, c, k, id) && !Hidden(n)
    requires NamedBy(states[k], id, n)
    ensures n in states[k].dir <==> LandedSince(states, events, c, k, n)
  {
    if k == c + 1 {
    } else {
      TargetSince(root, states, events, c, k - 1, id, n);
      TargetNext(root, states, events, c, k - 1, id, n);
    }
  }

  /** The name that an add in its last step will give its file. */
  predicate NamedBy(s: State, id: nat, n: string) {
    id in s.threads && s.threads[id].Renaming? && s.threads[id].src.name == n
  }

  lemma RenamingArises(s: State, e: Event, id: nat)
    requires Enabled(s, e) && id in Step(s, e).threads && Step(s, e).threads[id].Renaming?
    ensures id in s.threads
    ensures s.threads[id] == Step(s, e).threads[id] || (s.threads[id].Checking? && e.Resume? && e.id == id)
  {
    match e
    case Resume(who, c) => ThreadsAfter(s, who, c);
    case _ =>
  }

  lemma {:induction false} WasChecked(root: Dir, states: seq<State>, events: seq<Event>, k: nat, id: nat)
      returns (c: nat)
    requires Run(root, states, events) && k < |states| && id in states[k].threads && states[k].threads[id].Renaming?
    ensures CheckedAt(states, events, c, k, id)
  {
    if k == 0 {
      assert false;
    } else {
      StepOf(root, states, events, k - 1);
      RenamingArises(states[k - 1], events[k - 1], id);
      assert StillRenaming(states[k], states[k], id);
      if states[k - 1].threads[id] == states[k].threads[id] {
        c := WasChecked(root, states, events, k - 1, id);
        forall m | c < m <= k
          ensures StillRenaming(states[m], states[k], id)
        {
          assert m < k ==> StillRenaming(states[m], states[k - 1], id);
        }
      } else {
        c := k - 1;
      }
    }
  }

  /**
   * Just before an add renames, its target name exists if and only if a pull has landed that name
   * since the add checked it and nobody has removed it again.
   */
  lemma TargetTaken(root: Dir, states: seq<State>, events: seq<Event>, k: nat, id: nat) returns (c: nat)
    requires Run(root, states, events) && k < |states| && id in states[k].threads && states[k].threads[id].Renaming?
    ensures CheckedAt(states, events, c, k, id)
    ensures var n := states[k].threads[id].src.name;
      n in states[k].dir <==> LandedSince(states, events, c, k, n)
  {
    c := WasChecked(root, states, events, k, id);
    Invariant(root, states, events, k);
    TargetSince(root, states, events, c, k, id, states[k].threads[id].src.name);
  }

  /**
   * The add that replaces a file: it reports success, and the replaced file is one that a pull landed
   * after the check.
   */
  ghost predicate Replaces(root: Dir, states: seq<State>, events: seq<Event>, k: nat, c: nat, j: nat)
    requires |states| == |events| + 1 && k < |events|
  {
    && events[k].Resume? && CheckedAt(states, events, c, k, events[k].id)
    && var th := states[k].threads[events[k].id];
      && c < j && LandedToStay(states, events, j, k, th.src.name)
      && events[k].id in states[k + 1].threads
      && states[k + 1].threads[events[k].id] == Finished(Some(th.tmp), Added)
      && th.src.name in states[k + 1].dir && states[k + 1].dir[th.src.name] == File(th.src.content)
  }

  /** Every file that an add replaces had been landed by a pull between the add's check and its rename. */
  lemma ReplacedWasLanded(root: Dir, states: seq<State>, events: seq<Event>, k: nat) returns (c: nat, j: nat)
    requires Run(root, states, events) && k < |events|
    requires states[k + 1].tally.overwrites != states[k].tally.overwrites
    ensures Replaces(root, states, events, k, c, j)
  {
    StepOf(root, states, events, k);
    Invariant(root, states, events, k);
    var id := events[k].id;
    c := TargetTaken(root, states, events, k, id);
    j :| c < j && LandedToStay(states, events, j, k, states[k].threads[id].src.name);
    ThreadsAfter(states[k], id, events[k].choice);
  }

  // ----- from taking the mutex to the rename -----

  predicate Lists(th: Thread) {
    th.Scanning? || th.AskScanning?
  }

  predicate HasLock(s: State, id: nat) {
    id in s.threads && (Lists(s.threads[id]) || s.threads[id].Checking? || s.threads[id].Renaming?)
  }

  /** At step t the thread, an add or a limit check, took the mutex, and it has not given it back up to state k. */
  ghost predicate LockedAt(states: seq<State>, events: seq<Event>, t: nat, k: nat, id: nat) {
    && t < k < |states| && k <= |events|
    && events[t].Resume? && events[t].id == id && id in states[t].threads
    && (states[t].threads[id].Waiting? || states[t].threads[id].Asking?)
    && forall m :: t < m <= k ==> HasLock(states[m], id)
  }

  /** The listing of this thread returns this name. */
  predicate Notices(s: State, e: Event, id: nat, n: string) {
    && e.Resume? && e.id == id && id in s.threads && Lists(s.threads[id]) && s.threads[id].todo != {}
    && e.choice.pick == n && IsVisible(s.dir, n)
  }

  ghost predicate LandedDuring(states: seq<State>, events: seq<Event>, t: nat, k: nat, n: string) {
    exists j: nat :: t < j < k && j < |events| && j < |states| && LandsName(states[j], events[j], n)
  }

  ghost predicate NoticedDuring(states: seq<State>, events: seq<Event>, t: nat, k: nat, id: nat, n: string) {
    exists j: nat :: t < j < k && j < |events| && j < |states| && Notices(states[j], events[j], id, n)
  }

  /** The files there now that the add's listing returned. */
  ghost function Returned(states: seq<State>, events: seq<Event>, t: nat, k: nat, id: nat): set<string>
    requires k < |states|
  {
    set n | n in Visible(states[k].dir) && NoticedDuring(states, events, t, k, id, n)
  }

  /** The files there now that pulls landed since the add took the mutex. */
  ghost function Landed(states: seq<State>, events: seq<Event>, t: nat, k: nat): set<string>
    requires k < |states|
  {
    set n | n in Visible(states[k].dir) && LandedDuring(states, events, t, k, n)
  }

  function SeenBy(th: Thread): set<string> {
    match th
    case Scanning(_, _, _, seen) => seen
    case Checking(_, _, seen) => seen
    case Renaming(_, _, seen) => seen
    case AskScanning(_, seen) => seen
    case _ => {}
  }

  lemma LateNext(root: Dir, s: State, e: Event, id: nat, n: string)
    requires Inv(root, s) && Enabled(s, e) && HasLock(s, id) && HasLock(Step(s, e), id)
    ensures n in Step(s, e).late <==> n in s.late || LandsName(s, e, n)
  {
    match e
    case Resume(who, c) =>
      LockDecision(s, s.threads[who], c);
      WhoMoves(s, s.threads[who], c);
    case _ =>
  }

  lemma LandedNext(states: seq<State>, events: seq<Event>, t: nat, k: nat, n: string)
    requires t < k < |events| && k < |states|
    ensures LandedDuring(states, events, t, k + 1, n)
      <==> LandedDuring(states, events, t, k, n) || LandsName(states[k], events[k], n)
  {
    hide LandsName;
  }

  lemma NoticedNext(states: seq<State>, events: seq<Event>, t: nat, k: nat, id: nat, n: string)
    requires t < k < |events| && k < |states|
    ensures NoticedDuring(states, events, t, k + 1, id, n)
      <==> NoticedDuring(states, events, t, k, id, n) || Notices(states[k], events[k], id, n)
  {
    hide Notices;
  }

  /** The names noted as late are those landed since the mutex was taken. */
  ghost predicate LateIsLanded(states: seq<State>, events: seq<Event>, t: nat, k: nat, n: string)
    requires k < |states|
  {
    n in states[k].late <==> LandedDuring(states, events, t, k, n)
  }

  /** The names the add has counted are those its listing returned. */
  ghost predicate SeenIsNoticed(states: seq<State>, events: seq<Event>, t: nat, k: nat, id: nat, n: string)
    requires k < |states|
  {
    HasLock(states[k], id) && (n in SeenBy(states[k].threads[id]) <==> NoticedDuring(states, events, t, k, id, n))
  }

  lemma AccountStarts(root: Dir, states: seq<State>, events: seq<Event>, t: nat, id: nat, n: string)
    requires Run(root, states, events) && LockedAt(states, events, t, t + 1, id)
    ensures Accounted(states, events, t, t + 1, id, n)
  {
    assert HasLock(states[t + 1], id);
  }

  lemma LateOneMore(root: Dir, states: seq<State>, events: seq<Event>, t: nat, k: nat, id: nat, n: string)
    requires t < k < |events| && |states| == |events| + 1
    requires Inv(root, states[k]) && Enabled(states[k], events[k]) && states[k + 1] == Step(states[k], events[k])
    requires HasLock(states[k], id) && HasLock(states[k + 1], id)
    requires LateIsLanded(states, events, t, k, n)
    ensures LateIsLanded(states, events, t, k + 1, n)
  {
    LateNext(root, states[k], events[k], id, n);
    LandedNext(states, events, t, k, n);
    hide Inv, Enabled, Step, HasLock, LandedDuring, LandsName;
  }

  lemma SeenOneMore(states: seq<State>, events: seq<Event>, t: nat, k: nat, id: nat, n: string)
    requires t < k < |events| && |states| == |events| + 1
    requires Enabled(states[k], events[k]) && states[k + 1] == Step(states[k], events[k])
    requires HasLock(states[k], id) && HasLock(states[k + 1], id)
    requires SeenIsNoticed(states, events, t, k, id, n)
    ensures SeenIsNoticed(states, events, t, k + 1, id, n)
  {
    NoticedNext(states, events, t, k, id, n);
    hide Enabled, Step, NoticedDuring, Notices;
  }

  ghost predicate Accounted(states: seq<State>, events: seq<Event>, t: nat, k: nat, id: nat, n: string) {
    k < |states| && LateIsLanded(states, events, t, k, n) && SeenIsNoticed(states, events, t, k, id, n)
  }

  lemma AccountNext(root: Dir, states: seq<State>, events: seq<Event>, t: nat, k: nat, id: nat, n: string)
    requires Run(root, states, events) && LockedAt(states, events, t, k + 1, id) && t < k
    requires Accounted(states, events, t, k, id, n)
    ensures Accounted(states, events, t, k + 1, id, n)
  {
    assert |states| == |events| + 1 && k < |events|;
    Invariant(root, states, events, k);
    hide Run, LockedAt, Inv, HasLock, Enabled, Step, LateIsLanded, SeenIsNoticed;
    LateOneMore(root, states, events, t, k, id, n);
    SeenOneMore(states, events, t, k, id, n);
  }

  lemma {:induction false} AccountKept(root: Dir, states: seq<State>, events: seq<Event>, t: nat, k: nat, id: nat,
      n: string)
    requires Run(root, states, events) && LockedAt(states, events, t, k, id)
    ensures Accounted(states, events, t, k, id, n)
  {
    hide Accounted, Run, HasLock;
    if k == t + 1 {
      AccountStarts(root, states, events, t, id, n);
    } else {
      AccountKept(root, states, events, t, k - 1, id, n);
      AccountNext(root, states, events, t, k - 1, id, n);
    }
  }

  lemma LockArises(s: State, e: Event, id: nat)
    requires Enabled(s, e) && HasLock(Step(s, e), id)
    ensures HasLock(s, id) ||
      (id in s.threads && (s.threads[id].Waiting? || s.threads[id].Asking?) && e.Resume? && e.id == id)
  {
    match e
    case Resume(who, c) => ThreadsAfter(s, who, c);
    case _ =>
  }

  lemma {:induction false} WasLocked(root: Dir, states: seq<State>, events: seq<Event>, k: nat, id: nat)
      returns (t: nat)
    requires Run(root, states, events) && k < |states| && HasLock(states[k], id)
    ensures LockedAt(states, events, t, k, id)
  {
    if k == 0 {
      assert false;
    } else {
      StepOf(root, states, events, k - 1);
      LockArises(states[k - 1], events[k - 1], id);
      if HasLock(states[k - 1], id) {
        t := WasLocked(root, states, events, k - 1, id);
      } else {
        t := k - 1;
      }
    }
  }

  /** All files there are ones the listing returned or ones landed since, and the former are at most two. */
  lemma AllAccounted(root: Dir, states: seq<State>, events: seq<Event>, t: nat, k: nat, id: nat)
    requires Run(root, states, events) && LockedAt(states, events, t, k, id) && states[k].threads[id].Renaming?
    ensures Visible(states[k].dir) == Returned(states, events, t, k, id) + Landed(states, events, t, k)
    ensures |Returned(states, events, t, k, id)| < MAX_FILES
  {
    Invariant(root, states, events, k);
    var th, returned := states[k].threads[id], Returned(states, events, t, k, id);
    assert ScanFact(states[k], th);
    forall n
      ensures n in th.seen <==> NoticedDuring(states, events, t, k, id, n)
      ensures n in states[k].late <==> LandedDuring(states, events, t, k, n)
    {
      AccountKept(root, states, events, t, k, id, n);
    }
    SubsetSize(returned, th.seen);
  }

  /**
   * The rename of an add takes the count above max(before, 3) if and only if it brings a new name
   * while the files its listing returned that are still there and those landed by pulls since it
   * took the mutex that are still there number at least three.
   */
  lemma PassesLimit(root: Dir, states: seq<State>, events: seq<Event>, k: nat, id: nat) returns (t: nat)
    requires Run(root, states, events) && k < |events|
    requires events[k].Resume? && events[k].id == id && id in states[k].threads && states[k].threads[id].Renaming?
    ensures LockedAt(states, events, t, k, id)
    ensures var before, after := |Visible(states[k].dir)|, |Visible(states[k + 1].dir)|;
      var returned, landed := Returned(states, events, t, k, id), Landed(states, events, t, k);
      && (after > Max(before, MAX_FILES) <==> Creates(states[k], events[k]) && |returned + landed| >= MAX_FILES)
      && |returned| < MAX_FILES
  {
    t := WasLocked(root, states, events, k, id);
    AllAccounted(root, states, events, t, k, id);
    PastTheLimit(root, states, events, k);
  }

  /** An add during which no pull lands never takes the count above max(before, 3). */
  lemma UndisturbedAddKeepsLimit(root: Dir, states: seq<State>, events: seq<Event>, t: nat, k: nat, id: nat)
    requires Run(root, states, events) && k < |events| && LockedAt(states, events, t, k, id)
    requires events[k].Resume? && events[k].id == id && states[k].threads[id].Renaming?
    requires forall j :: t < j < k ==> !Lands(states[j], events[j])
    ensures |Visible(states[k + 1].dir)| <= Max(|Visible(states[k].dir)|, MAX_FILES)
  {
    AllAccounted(root, states, events, t, k, id);
    assert Landed(states, events, t, k) == {};
    assert Returned(states, events, t, k, id) + {} == Returned(states, events, t, k, id);
    PastTheLimit(root, states, events, k);
  }
}

/** What every interleaving of store operations keeps, crashes included. */
module StoreProofs {
  import opened Collections
  import opened Directory
  import opened StoreThreads

  // ----- what a thread is responsible for -----

  function TempOf(th: Thread): Option<string> {
    match th
    case Copying(_, tmp, _) => Some(tmp)
    case Waiting(_, tmp) => Some(tmp)
    case Scanning(_, tmp, _, _) => Some(tmp)
    case Checking(_, tmp, _) => Some(tmp)
    case Renaming(_, tmp, _) => Some(tmp)
    case Rejecting(tmp, _) => Some(tmp)
    case Exporting(_, tmp, _) => Some(tmp)
    case Landing(_, tmp) => Some(tmp)
    case Finished(temp, _) => temp
    case _ => None
  }

  function SourceOf(th: Thread): Option<Source> {
    match th
    case Copying(src, _, _) => Some(src)
    case Waiting(src, _) => Some(src)
    case Scanning(src, _, _, _) => Some(src)
    case Checking(src, _, _) => Some(src)
    case Renaming(src, _, _) => Some(src)
    case Exporting(src, _, _) => Some(src)
    case Landing(src, _) => Some(src)
    case _ => None
  }

  /** What the temporary file contains, as long as nobody unlinks it. */
  function Holding(th: Thread): Option<Bytes> {
    match th
    case Copying(src, _, done) => Some(Prefix(src.content, done))
    case Exporting(src, _, done) => Some(Prefix(src.content, done))
    case _ => if SourceOf(th).Some? then Some(SourceOf(th).value.content) else None
  }

  /** An `add` that has ended: renamed or rejected. */
  predicate Ended(th: Thread) {
    th.Finished? && th.temp.Some?
  }

  ghost predicate SameTemp(a: Thread, b: Thread) {
    TempOf(a).Some? && TempOf(a) == TempOf(b)
  }

  // ----- the file invariant -----

  ghost predicate TempsOk(s: State) {
    && (forall id :: id in s.threads && TempOf(s.threads[id]).Some? ==> TempOf(s.threads[id]).value in s.used)
    && (forall n :: n in s.used ==> TempName(n))
    && (forall i, j :: i in s.threads && j in s.threads && SameTemp(s.threads[i], s.threads[j]) ==> i == j)
  }

  ghost predicate HoldsOk(d: Dir, th: Thread) {
    && (TempOf(th).Some? && Holding(th).Some? && TempOf(th).value in d
      ==> d[TempOf(th).value] == File(Holding(th).value))
    && (Ended(th) ==> th.temp.value !in d)
  }

  ghost predicate ContentsOk(s: State) {
    forall id :: id in s.threads ==> HoldsOk(s.dir, s.threads[id])
  }

  ghost predicate SourcesOk(s: State) {
    && (forall id :: id in s.threads && SourceOf(s.threads[id]).Some? ==> SourceOf(s.threads[id]).value in s.sources)
    && (forall src :: src in s.sources ==> !Hidden(src.name))
  }

  /** An entry is as it was at the start, or a complete copy of a source of that name, or a temporary file. */
  ghost predicate EntryOk(root: Dir, s: State, n: string) {
    || (n in root && n in s.dir && s.dir[n] == root[n])
    || n in s.used
    || (n in s.dir && s.dir[n].File? && Source(n, s.dir[n].content) in s.sources)
  }

  ghost predicate EntriesOk(root: Dir, s: State) {
    forall n :: n in s.dir ==> EntryOk(root, s, n)
  }

  ghost predicate FilesOk(root: Dir, s: State) {
    TempsOk(s) && ContentsOk(s) && SourcesOk(s) && EntriesOk(root, s)
  }

  lemma TempsAreHidden(n: string)
    requires TempName(n)
    ensures Hidden(n)
  {
    assert IsTemp(n) ==> n[0] == ".tmp-"[0];
    assert IsExport(n) ==> n[0] == ".dddatasync-export-"[0];
  }

  // ----- what a single step may do -----

  ghost predicate SoundNext(d: Dir, th: Thread, a: Action) {
    && (TempOf(a.next) == TempOf(th) || TempOf(a.next) == None)
    && (SourceOf(a.next) == SourceOf(th) || SourceOf(a.next) == None)
    && (Ended(a.next) ==>
          a.change == Drop(a.next.temp.value) || (a.change.Move? && a.change.from == a.next.temp.value) || a.next == th)
  }

  ghost predicate SoundChange(d: Dir, th: Thread, a: Action) {
    match a.change
    case Keep => Holding(a.next) == None || Holding(a.next) == Holding(th)
      || (TempOf(th).Some? && TempOf(th).value !in d)
    case Write(n, content) => TempOf(a.next) == Some(n) && Holding(a.next) == Some(content)
    case Drop(n) => Holding(a.next) == None
    case Move(from, to) =>
      && TempOf(th) == Some(from) && from in d && Holding(a.next) == None
      && SourceOf(th).Some? && to == SourceOf(th).value.name && Holding(th) == Some(SourceOf(th).value.content)
  }

  lemma DecideSound(s: State, th: Thread, c: Choice)
    ensures SoundNext(s.dir, th, Decide(s, th, c))
  {
    match th
    case _ =>
  }

  lemma CopySound(s: State, src: Source, tmp: string, done: nat, c: Choice)
    ensures SoundChange(s.dir, Copying(src, tmp, done), Decide(s, Copying(src, tmp, done), c))
    ensures SoundChange(s.dir, Exporting(src, tmp, done), Decide(s, Exporting(src, tmp, done), c))
  {
    assert src.content[..|src.content|] == src.content;
  }

  lemma ChangeSound(s: State, th: Thread, c: Choice)
    ensures SoundChange(s.dir, th, Decide(s, th, c))
  {
    match th
    case Copying(src, tmp, done) => CopySound(s, src, tmp, done, c);
    case Exporting(src, tmp, done) => CopySound(s, src, tmp, done, c);
    case _ =>
  }

  // ----- the file invariant is kept -----

  lemma ThreadsAfter(s: State, id: nat, c: Choice)
    requires id in s.threads
    ensures Resumed(s, id, c).threads == s.threads[id := Decide(s, s.threads[id], c).next]
    ensures Resumed(s, id, c).used == s.used && Resumed(s, id, c).sources == s.sources
  {
  }

  lemma TempsKept(s: State, id: nat, c: Choice)
    requires TempsOk(s) && id in s.threads
    ensures TempsOk(Resumed(s, id, c))
  {
    DecideSound(s, s.threads[id], c);
    ThreadsAfter(s, id, c);
    var t := Resumed(s, id, c);
    forall i, j | i in t.threads && j in t.threads && SameTemp(t.threads[i], t.threads[j])
      ensures i == j
    {
      assert SameTemp(s.threads[i], s.threads[j]);
    }
  }

  lemma SourcesKept(s: State, id: nat, c: Choice)
    requires SourcesOk(s) && id in s.threads
    ensures SourcesOk(Resumed(s, id, c))
  {
    DecideSound(s, s.threads[id], c);
    ThreadsAfter(s, id, c);
  }

  lemma ContentsKept(s: State, id: nat, c: Choice)
    requires TempsOk(s) && SourcesOk(s) && ContentsOk(s) && id in s.threads
    ensures ContentsOk(Resumed(s, id, c))
  {
    var th := s.threads[id];
    var a := Decide(s, th, c);
    DecideSound(s, th, c);
    ChangeSound(s, th, c);
    ThreadsAfter(s, id, c);
    assert HoldsOk(s.dir, th);
    forall j | j in s.threads
      ensures HoldsOk(Apply(s.dir, a.change), if j == id then a.next else s.threads[j])
    {
      if j == id {
      } else if TempOf(s.threads[j]).Some? {
        assert !SameTemp(th, s.threads[j]);
        assert HoldsOk(s.dir, s.threads[j]);
      }
    }
  }

  lemma EntriesKept(root: Dir, s: State, id: nat, c: Choice)
    requires FilesOk(root, s) && id in s.threads
    ensures EntriesOk(root, Resumed(s, id, c))
  {
    var t := Resumed(s, id, c);
    var th := s.threads[id];
    var a := Decide(s, th, c);
    DecideSound(s, th, c);
    ChangeSound(s, th, c);
    ThreadsAfter(s, id, c);
    assert HoldsOk(s.dir, th);
    forall n | n in t.dir
      ensures EntryOk(root, t, n)
    {
    }
  }

  lemma ResumeKeepsFiles(root: Dir, s: State, id: nat, c: Choice)
    requires FilesOk(root, s) && id in s.threads
    ensures FilesOk(root, Resumed(s, id, c))
  {
    TempsKept(s, id, c);
    SourcesKept(s, id, c);
    ContentsKept(s, id, c);
    EntriesKept(root, s, id, c);
  }

  lemma OpenKeepsFiles(root: Dir, s: State, id: nat, src: Source, tmp: string, th: Thread)
    requires FilesOk(root, s) && id !in s.threads && tmp !in s.used && tmp !in s.dir && TempName(tmp)
      && !Hidden(src.name)
    requires th == Copying(src, tmp, 0) || th == Exporting(src, tmp, 0)
    ensures FilesOk(root, Opened(s, id, src, tmp, th))
  {
    var t := Opened(s, id, src, tmp, th);
    assert src.content[..0] == [];
    forall j | j in t.threads
      ensures HoldsOk(t.dir, t.threads[j])
    {
      assert j != id ==> HoldsOk(s.dir, s.threads[j]);
    }
    forall n | n in t.dir
      ensures EntryOk(root, t, n)
    {
      assert n != tmp ==> EntryOk(root, s, n);
    }
  }

  lemma SpawnKeepsFiles(root: Dir, s: State, id: nat, th: Thread)
    requires FilesOk(root, s) && id !in s.threads
    requires TempOf(th) == None && SourceOf(th) == None && !Ended(th)
    ensures FilesOk(root, Spawned(s, id, th))
  {
    var t := Spawned(s, id, th);
    assert forall i, j :: i in t.threads && j in t.threads && SameTemp(t.threads[i], t.threads[j]) ==>
      i in s.threads && j in s.threads && SameTemp(s.threads[i], s.threads[j]);
    assert forall n :: n in t.dir ==> EntryOk(root, s, n);
    assert EntriesOk(root, t);
  }

  lemma StepKeepsFiles(root: Dir, s: State, e: Event)
    requires FilesOk(root, s) && Enabled(s, e)
    ensures FilesOk(root, Step(s, e))
  {
    match e
    case StartAdd(id, src, tmp) => OpenKeepsFiles(root, s, id, src, tmp, Copying(src, tmp, 0));
    case StartPull(id, src, tmp) =>
      if SafeName(src.name) {
        OpenKeepsFiles(root, s, id, src, tmp, Exporting(src, tmp, 0));
      } else {
        SpawnKeepsFiles(root, s, id, Finished(None, Failed));
      }
    case StartAsk(id, size) => SpawnKeepsFiles(root, s, id, Asking(size));
    case StartRemove(id, name) => SpawnKeepsFiles(root, s, id, if name in s.dir then Removing(name)
      else Finished(None, NotFound));
    case StartClean(id, listed) => SpawnKeepsFiles(root, s, id, Cleaning(listed));
    case Resume(id, c) => ResumeKeepsFiles(root, s, id, c);
    case Crash =>
  }

  lemma {:induction false} FileInvariant(root: Dir, states: seq<State>, events: seq<Event>, k: nat)
    requires Run(root, states, events) && k < |states|
    ensures FilesOk(root, states[k])
  {
    if k == 0 {
    } else {
      FileInvariant(root, states, events, k - 1);
      StepKeepsFiles(root, states[k - 1], events[k - 1]);
    }
  }
}

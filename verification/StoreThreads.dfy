/**
 * The store under concurrency: any number of threads adding, removing, asking, cleaning and
 * pulling in one directory, with a crash possible between any two steps.
 *
 * `add` copies to a temporary name outside the mutex; the listing, the existence check and the
 * rename are separate steps inside it. `remove`, `clean` and an incoming pull take no lock.
 */
module StoreThreads {
  import opened Collections
  import opened Directory

  /** A file to be copied in; sources do not change while they are copied. */
  datatype Source = Source(name: string, content: Bytes)

  datatype Outcome =
    | Added | TooBig | Full | Exists | Unreadable   // the ways `add` ends with its temporary file gone
    | Failed | Allowed | Removed | NotFound | Cleaned | Pulled

  datatype Thread =
    // add
    | Copying(src: Source, tmp: string, done: nat)
    | Waiting(src: Source, tmp: string)
    | Scanning(src: Source, tmp: string, todo: set<string>, seen: set<string>)
    | Checking(src: Source, tmp: string, seen: set<string>)
    | Renaming(src: Source, tmp: string, seen: set<string>)
    | Rejecting(tmp: string, outcome: Outcome)
    // can_add
    | Asking(size: nat)
    | AskScanning(todo: set<string>, seen: set<string>)
    // remove and clean
    | Removing(name: string)
    | Cleaning(left: set<string>)
    // pull: export to a temporary name, then rename
    | Exporting(src: Source, tmp: string, done: nat)
    | Landing(src: Source, tmp: string)
    | Finished(temp: Option<string>, outcome: Outcome)

  /** What a step does to the directory. */
  datatype Change = Keep | Write(name: string, content: Bytes) | Drop(name: string) | Move(from: string, to: string)

  datatype LockMove = Same | Take | Release

  datatype Action = Action(next: Thread, change: Change, lock: LockMove)

  /** Counters: successful adds and removes of visible files, pulls that landed, and what they hit. */
  datatype Tally = Tally(adds: nat, removes: nat, pulls: nat, arrivals: nat, overwrites: nat)

  datatype State = State(
    dir: Dir,
    lock: Option<nat>,
    threads: map<nat, Thread>,
    used: set<string>,       // temporary names handed out so far
    sources: set<Source>,    // everything that was ever to be copied in
    late: set<string>,       // names landed by pulls since the mutex was last taken
    tally: Tally)

  /** How a step resolves what the code leaves open: a directory entry, a chunk size, an I/O error. */
  datatype Choice = Choice(pick: string, amount: nat, fail: bool)

  datatype Event =
    | StartAdd(id: nat, src: Source, tmp: string)
    | StartPull(id: nat, src: Source, tmp: string)
    | StartAsk(id: nat, size: nat)
    | StartRemove(id: nat, name: string)
    | StartClean(id: nat, listed: set<string>)
    | Resume(id: nat, choice: Choice)
    | Crash

  predicate TempName(name: string) {
    IsTemp(name) || IsExport(name)
  }

  /** Temporary names are never given out twice; names to be added are not hidden. */
  predicate Enabled(s: State, e: Event) {
    match e
    case StartAdd(id, src, tmp) => id !in s.threads && !Hidden(src.name) && IsTemp(tmp) && tmp !in s.used
      && tmp !in s.dir
    case StartPull(id, src, tmp) => id !in s.threads && IsExport(tmp) && tmp !in s.used && tmp !in s.dir
    case StartAsk(id, _) => id !in s.threads
    case StartRemove(id, _) => id !in s.threads
    case StartClean(id, listed) => id !in s.threads && forall n :: n in listed ==> IsTemp(n)
    case Resume(id, _) => id in s.threads
    case Crash => true
  }

  function Apply(d: Dir, c: Change): Dir {
    match c
    case Keep => d
    case Write(n, content) => d[n := File(content)]
    case Drop(n) => d - {n}
    case Move(from, to) => if from in d then (d - {from})[to := d[from]] else d
  }

  /** A chunk of the copy; the bytes go nowhere once the temporary file has been unlinked. */
  function CopyChunk(d: Dir, src: Source, tmp: string, upto: nat): Change
    requires upto <= |src.content|
  {
    if tmp in d then Write(tmp, src.content[..upto]) else Keep
  }

  /** One entry of the listing: entries that vanish may be skipped or fail, new ones may or may not be returned. */
  function Noticed(d: Dir, seen: set<string>, pick: string): set<string> {
    if IsVisible(d, pick) then seen + {pick} else seen
  }

  predicate Vanished(d: Dir, todo: set<string>, c: Choice) {
    c.pick in todo && c.pick !in d && !Hidden(c.pick) && c.fail
  }

  function Decide(s: State, th: Thread, c: Choice): Action {
    match th
    case Copying(src, tmp, done) =>
      if c.fail then Action(Finished(None, Failed), Keep, Same)
      else if done >= |src.content| then Action(Waiting(src, tmp), Keep, Same)
      else Action(Copying(src, tmp, Upto(src.content, done + c.amount)),
        CopyChunk(s.dir, src, tmp, Upto(src.content, done + c.amount)), Same)
    case Waiting(src, tmp) =>
      if s.lock.Some? then Action(th, Keep, Same)
      else if |src.content| > MAX_FILE_BYTES then Action(Rejecting(tmp, TooBig), Keep, Take)
      else Action(Scanning(src, tmp, s.dir.Keys, {}), Keep, Take)
    case Scanning(src, tmp, todo, seen) =>
      if Vanished(s.dir, todo, c) then Action(Rejecting(tmp, Unreadable), Keep, Same)
      else if todo != {} then Action(Scanning(src, tmp, todo - {c.pick}, Noticed(s.dir, seen, c.pick)), Keep, Same)
      else if |seen| >= MAX_FILES then Action(Rejecting(tmp, Full), Keep, Same)
      else Action(Checking(src, tmp, seen), Keep, Same)
    case Checking(src, tmp, seen) =>
      if src.name in s.dir then Action(Rejecting(tmp, Exists), Keep, Same)
      else Action(Renaming(src, tmp, seen), Keep, Same)
    case Renaming(src, tmp, seen) =>
      if tmp !in s.dir || (src.name in s.dir && s.dir[src.name].Folder?)
        then Action(Finished(None, Failed), Keep, Release)
      else Action(Finished(Some(tmp), Added), Move(tmp, src.name), Release)
    case Rejecting(tmp, outcome) => Action(Finished(Some(tmp), outcome), Drop(tmp), Release)
    case Asking(size) =>
      if s.lock.Some? then Action(th, Keep, Same)
      else if size > MAX_FILE_BYTES then Action(Finished(None, TooBig), Keep, Same)
      else Action(AskScanning(s.dir.Keys, {}), Keep, Take)
    case AskScanning(todo, seen) =>
      if Vanished(s.dir, todo, c) then Action(Finished(None, Failed), Keep, Release)
      else if todo != {} then Action(AskScanning(todo - {c.pick}, Noticed(s.dir, seen, c.pick)), Keep, Same)
      else Action(Finished(None, if |seen| >= MAX_FILES then Full else Allowed), Keep, Release)
    case Removing(name) =>
      if name in s.dir && s.dir[name].File? then Action(Finished(None, Removed), Drop(name), Same)
      else Action(Finished(None, Failed), Keep, Same)
    case Cleaning(left) =>
      if left == {} then Action(Finished(None, Cleaned), Keep, Same)
      else if c.pick !in left then Action(th, Keep, Same)
      else if c.pick in s.dir && s.dir[c.pick].File? then Action(Cleaning(left - {c.pick}), Drop(c.pick), Same)
      else Action(Finished(None, Failed), Keep, Same)
    case Exporting(src, tmp, done) =>
      if c.fail then Action(Finished(None, Failed), Keep, Same)
      else if done >= |src.content| then Action(Landing(src, tmp), Keep, Same)
      else Action(Exporting(src, tmp, Upto(src.content, done + c.amount)),
        CopyChunk(s.dir, src, tmp, Upto(src.content, done + c.amount)), Same)
    case Landing(src, tmp) =>
      if tmp !in s.dir || src.name == "" || (src.name in s.dir && s.dir[src.name].Folder?)
        then Action(Finished(None, Failed), Keep, Same)
      else Action(Finished(None, Pulled), Move(tmp, src.name), Same)
    case Finished(_, _) => Action(th, Keep, Same)
  }

  function One(b: bool): nat {
    if b then 1 else 0
  }

  /** The counters after a step of this thread. */
  function Counted(s: State, th: Thread, a: Action): Tally {
    Tally(
      s.tally.adds + One(th.Renaming? && a.change.Move?),
      s.tally.removes + One(th.Removing? && a.change.Drop? && IsVisible(s.dir, a.change.name)),
      s.tally.pulls + One(th.Landing? && a.change.Move?),
      s.tally.arrivals + One(th.Landing? && a.change.Move? && !IsVisible(s.dir, a.change.to)),
      s.tally.overwrites + One(th.Renaming? && a.change.Move? && IsVisible(s.dir, a.change.to)))
  }

  function Locked(s: State, id: nat, m: LockMove): Option<nat> {
    match m
    case Same => s.lock
    case Take => Some(id)
    case Release => None
  }

  function LateNames(s: State, th: Thread, a: Action): set<string> {
    if a.lock.Take? then {} else if th.Landing? && a.change.Move? then s.late + {a.change.to} else s.late
  }

  function Resumed(s: State, id: nat, c: Choice): State
    requires id in s.threads
  {
    var th := s.threads[id];
    var a := Decide(s, th, c);
    s.(dir := Apply(s.dir, a.change),
       lock := Locked(s, id, a.lock),
       threads := s.threads[id := a.next],
       late := LateNames(s, th, a),
       tally := Counted(s, th, a))
  }

  /** Opening the temporary file creates it empty. */
  function Opened(s: State, id: nat, src: Source, tmp: string, th: Thread): State {
    s.(dir := s.dir[tmp := File([])], threads := s.threads[id := th], used := s.used + {tmp},
      sources := s.sources + {src})
  }

  function Spawned(s: State, id: nat, th: Thread): State {
    s.(threads := s.threads[id := th])
  }

  function Step(s: State, e: Event): State
    requires Enabled(s, e)
  {
    match e
    case StartAdd(id, src, tmp) => Opened(s, id, src, tmp, Copying(src, tmp, 0))
    case StartPull(id, src, tmp) =>
      if SafeName(src.name) then Opened(s, id, src, tmp, Exporting(src, tmp, 0))
        else Spawned(s, id, Finished(None, Failed))
    case StartAsk(id, size) => Spawned(s, id, Asking(size))
    case StartRemove(id, name) => Spawned(s, id, if name in s.dir then Removing(name) else Finished(None, NotFound))
    case StartClean(id, listed) => Spawned(s, id, Cleaning(listed))
    case Resume(id, c) => Resumed(s, id, c)
    case Crash => s.(lock := None, threads := map[])
  }

  function Begun(d: Dir): State {
    State(d, None, map[], {}, {}, {}, Tally(0, 0, 0, 0, 0))
  }

  /** A run from a given directory. */
  ghost predicate Run(d: Dir, states: seq<State>, events: seq<Event>) {
    && |states| == |events| + 1
    && states[0] == Begun(d)
    && forall i :: 0 <= i < |events| ==> Enabled(states[i], events[i]) && states[i + 1] == Step(states[i], events[i])
  }
}

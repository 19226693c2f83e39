/** The step-by-step operations of the concurrent model, run without interference, are those of the sequential one. */
module StoreAlone {
  import opened Collections
  import opened Directory
  import Store
  import opened StoreThreads

  /** How an add in this directory ends, by the sequential contract. */
  function Promised(d: Dir, src: Source): Outcome {
    match Store.Limit(d, |src.content|)
    case TooBig => TooBig
    case Full => Full
    case _ => if src.name in d then Exists else Added
  }

  function Resulting(d: Dir, src: Source): Dir {
    if Promised(d, src) == Added then d[src.name := File(src.content)] else d
  }

  /** A run of one add and nothing else, without I/O errors. */
  ghost predicate Alone(d: Dir, src: Source, tmp: string, states: seq<State>, events: seq<Event>) {
    && Run(d, states, events) && |events| > 0 && events[0] == StartAdd(0, src, tmp)
    && forall i :: 0 < i < |events| ==> events[i].Resume? && events[i].id == 0 && !events[i].choice.fail
  }

  /** Where the add is, and what the directory looks like meanwhile. */
  ghost predicate Stage(d: Dir, src: Source, tmp: string, dir: Dir, lock: Option<nat>, th: Thread) {
    match th
    case Copying(src', tmp', done) =>
      src' == src && tmp' == tmp && lock == None && done <= |src.content| && dir == d[tmp := File(src.content[..done])]
    case Waiting(src', tmp') => src' == src && tmp' == tmp && lock == None && dir == d[tmp := File(src.content)]
    case Scanning(src', tmp', todo, seen) =>
      && src' == src && tmp' == tmp && dir == d[tmp := File(src.content)]
      && |src.content| <= MAX_FILE_BYTES && todo <= dir.Keys && seen == Visible(d) - todo
    case Checking(src', tmp', _) =>
      src' == src && tmp' == tmp && dir == d[tmp := File(src.content)] && Store.Limit(d, |src.content|) == Store.Allowed
    case Renaming(src', tmp', _) =>
      src' == src && tmp' == tmp && dir == d[tmp := File(src.content)] && Promised(d, src) == Added
    case Rejecting(tmp', outcome) =>
      tmp' == tmp && dir == d[tmp := File(src.content)] && Promised(d, src) == outcome && outcome != Added
    case Finished(temp, outcome) => temp == Some(tmp) && outcome == Promised(d, src) && dir == Resulting(d, src)
    case _ => false
  }

  ghost predicate StageOf(d: Dir, src: Source, tmp: string, s: State) {
    0 in s.threads && Stage(d, src, tmp, s.dir, s.lock, s.threads[0])
  }

  lemma ScanNext(d: Dir, src: Source, tmp: string, s: State, c: Choice)
    requires StageOf(d, src, tmp, s) && IsTemp(tmp) && tmp !in d && !c.fail && s.threads[0].Scanning?
    ensures StageOf(d, src, tmp, Resumed(s, 0, c))
  {
    var th := s.threads[0];
    assert Hidden(tmp);
    assert IsVisible(s.dir, c.pick) <==> IsVisible(d, c.pick);
    assert th.todo == {} ==> th.seen == Visible(d);
  }

  lemma CopyNext(d: Dir, src: Source, tmp: string, s: State, c: Choice)
    requires StageOf(d, src, tmp, s) && IsTemp(tmp) && tmp !in d && !c.fail
    requires s.threads[0].Copying? || s.threads[0].Waiting?
    ensures StageOf(d, src, tmp, Resumed(s, 0, c))
  {
    assert Hidden(tmp);
    assert src.content[..|src.content|] == src.content;
    assert Visible(d) - s.dir.Keys == {};
  }

  lemma StageNext(d: Dir, src: Source, tmp: string, s: State, c: Choice)
    requires StageOf(d, src, tmp, s) && IsTemp(tmp) && tmp !in d && !Hidden(src.name) && !c.fail
    ensures StageOf(d, src, tmp, Resumed(s, 0, c))
  {
    match s.threads[0]
    case Copying(_, _, _) => CopyNext(d, src, tmp, s, c);
    case Waiting(_, _) => CopyNext(d, src, tmp, s, c);
    case Scanning(_, _, _, _) => ScanNext(d, src, tmp, s, c);
    case Finished(_, _) =>
    case _ =>
  }

  lemma {:induction false} AlwaysAtAStage(d: Dir, src: Source, tmp: string, states: seq<State>, events: seq<Event>,
      k: nat)
    requires Alone(d, src, tmp, states, events) && 0 < k < |states|
    ensures StageOf(d, src, tmp, states[k])
  {
    assert Enabled(states[0], events[0]);
    if k == 1 {
      assert src.content[..0] == [];
    } else {
      AlwaysAtAStage(d, src, tmp, states, events, k - 1);
      StageNext(d, src, tmp, states[k - 1], events[k - 1].choice);
    }
  }

  /** However the copy is cut into chunks and the listing ordered, the add ends as the sequential contract says. */
  lemma AddAlone(d: Dir, src: Source, tmp: string, states: seq<State>, events: seq<Event>, k: nat)
    requires Alone(d, src, tmp, states, events) && 0 < k < |states|
    requires 0 in states[k].threads && states[k].threads[0].Finished?
    ensures states[k].threads[0] == Finished(Some(tmp), Promised(d, src)) && states[k].dir == Resulting(d, src)
  {
    AlwaysAtAStage(d, src, tmp, states, events, k);
  }

  // ----- a limit check -----

  /** How a limit check in this directory ends, by the sequential contract. */
  function Verdict(d: Dir, size: nat): Outcome {
    match Store.Limit(d, size)
    case TooBig => TooBig
    case Full => Full
    case _ => Allowed
  }

  /** A run of one limit check and nothing else, without I/O errors. */
  ghost predicate AskedAlone(d: Dir, size: nat, states: seq<State>, events: seq<Event>) {
    && Run(d, states, events) && |events| > 0 && events[0] == StartAsk(0, size)
    && forall i :: 0 < i < |events| ==> events[i].Resume? && events[i].id == 0 && !events[i].choice.fail
  }

  ghost predicate AskStage(d: Dir, size: nat, s: State) {
    && 0 in s.threads && s.dir == d
    && match s.threads[0]
       case Asking(asked) => asked == size && s.lock == None
       case AskScanning(todo, seen) => size <= MAX_FILE_BYTES && todo <= d.Keys && seen == Visible(d) - todo
       case Finished(temp, outcome) => temp == None && outcome == Verdict(d, size)
       case _ => false
  }

  lemma AskScanNext(d: Dir, size: nat, s: State, c: Choice)
    requires AskStage(d, size, s) && !c.fail && s.threads[0].AskScanning?
    ensures AskStage(d, size, Resumed(s, 0, c))
  {
    hide Counted, LateNames, Visible;
    var th := s.threads[0];
    SeenSoFar(d, th.todo, th.seen, c.pick);
    assert th.todo == {} ==> th.seen == Visible(d);
  }

  lemma SeenSoFar(d: Dir, todo: set<string>, seen: set<string>, pick: string)
    requires seen == Visible(d) - todo
    ensures Noticed(d, seen, pick) == Visible(d) - (todo - {pick})
  {
    assert pick in Visible(d) <==> IsVisible(d, pick);
  }

  lemma AskNext(d: Dir, size: nat, s: State, c: Choice)
    requires AskStage(d, size, s) && !c.fail
    ensures AskStage(d, size, Resumed(s, 0, c))
  {
    hide Counted, LateNames;
    match s.threads[0]
    case AskScanning(_, _) => AskScanNext(d, size, s, c);
    case Asking(_) => assert Visible(d) - d.Keys == {};
    case Finished(_, _) =>
  }

  lemma {:induction false} AlwaysAsking(d: Dir, size: nat, states: seq<State>, events: seq<Event>, k: nat)
    requires AskedAlone(d, size, states, events) && 0 < k < |states|
    ensures AskStage(d, size, states[k])
  {
    assert Enabled(states[k - 1], events[k - 1]);
    if k == 1 {
    } else {
      AlwaysAsking(d, size, states, events, k - 1);
      AskNext(d, size, states[k - 1], events[k - 1].choice);
    }
  }

  /** However the listing is ordered, the check ends with the sequential verdict and the directory is as before. */
  lemma AskAlone(d: Dir, size: nat, states: seq<State>, events: seq<Event>, k: nat)
    requires AskedAlone(d, size, states, events) && 0 < k < |states|
    requires 0 in states[k].threads && states[k].threads[0].Finished?
    ensures states[k].threads[0] == Finished(None, Verdict(d, size)) && states[k].dir == d
  {
    AlwaysAsking(d, size, states, events, k);
  }
}

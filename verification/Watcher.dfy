/** The watcher's reaction to file events, and what the store limit does to it. */
module Watcher {
  import opened Collections
  import opened Directory
  import Store

  datatype Kind = Create | Modify | Other

  /** A path of an event: its file name, if it has one that is valid text. */
  datatype Path = Path(name: Option<string>)

  /** What the push of one path meets: the directory at that moment and the peers the server listed. */
  datatype Moment = Moment(dir: Dir, peers: Option<seq<nat>>)

  predicate IsDotFile(p: Path) {
    match p.name
    case None => true
    case Some(name) => Hidden(name)
  }

  /** The push goes out: the file passes the store's limit check and there are peers to offer it to. */
  predicate PushesFile(m: Moment, name: string)
    requires name in m.dir && m.dir[name].File?
  {
    Store.Limit(m.dir, |m.dir[name].content|) == Store.Allowed && m.peers.Some? && m.peers.value != []
  }

  method PushFile(m: Moment, name: string) returns (pushed: bool)
    requires name in m.dir && m.dir[name].File?
    ensures pushed <==> PushesFile(m, name)
  {
    var store := new Store.DddSync(m.dir);
    var verdict := store.CanAdd(|m.dir[name].content|);
    if verdict != Store.Allowed {
      return false;
    }
    if m.peers.None? {
      return false;
    }
    if m.peers.value == [] {
      return false;
    }
    pushed := true;
  }

  /** Whether this path of an event is pushed, stated without the code's order of checks. */
  ghost predicate Wanted(kind: Kind, p: Path, m: Moment) {
    && (kind == Create || kind == Modify)
    && p.name.Some? && IsVisible(m.dir, p.name.value)
    && |m.dir[p.name.value].content| <= MAX_FILE_BYTES
    && |Visible(m.dir) - {p.name.value}| <= 1
    && m.peers.Some? && m.peers.value != []
  }

  /** The limit check runs on a directory that has the file already: it needs two free places, not one. */
  lemma PushedMeansWanted(kind: Kind, p: Path, m: Moment)
    requires kind == Create || kind == Modify
    requires p.name.Some? && IsVisible(m.dir, p.name.value)
    ensures PushesFile(m, p.name.value) <==> Wanted(kind, p, m)
  {
  }

  /** One path of a create or modify event. */
  method HandlePath(kind: Kind, p: Path, m: Moment) returns (pushed: bool)
    requires kind == Create || kind == Modify
    ensures pushed <==> Wanted(kind, p, m)
  {
    if IsDotFile(p) {
      return false;
    }
    var name := p.name.value;
    if name !in m.dir || m.dir[name].Folder? {
      return false;
    }
    PushedMeansWanted(kind, p, m);
    pushed := PushFile(m, name);
  }

  /** One event: its paths are taken in order, each at its own moment, and no path stops the others. */
  method HandleEvent(kind: Kind, paths: seq<Path>, moments: seq<Moment>) returns (pushed: seq<bool>)
    requires |moments| == |paths|
    ensures |pushed| == |paths|
    ensures forall i :: 0 <= i < |paths| ==> (pushed[i] <==> Wanted(kind, paths[i], moments[i]))
  {
    if kind == Other {
      return seq(|paths|, _ => false);
    }
    pushed := [];
    for k := 0 to |paths|
      invariant |pushed| == k
      invariant forall i :: 0 <= i < k ==> (pushed[i] <==> Wanted(kind, paths[i], moments[i]))
    {
      var sent := HandlePath(kind, paths[k], moments[k]);
      pushed := pushed + [sent];
    }
  }

  lemma VisibleWithNew(d: Dir, name: string, content: Bytes)
    requires name !in d && !Hidden(name)
    ensures Visible(d[name := File(content)]) - {name} == Visible(d)
  {
  }

  /** A file that has just been added as the third is not pushed: the store takes it, the watcher skips it. */
  lemma ThirdFileIsNotPushed(d: Dir, name: string, content: Bytes, peers: Option<seq<nat>>, kind: Kind)
    requires Store.Limit(d, |content|) == Store.Allowed && name !in d && !Hidden(name)
    ensures var after := Moment(d[name := File(content)], peers);
      Wanted(kind, Path(Some(name)), after)
      <==> |Visible(d)| <= 1 && (kind == Create || kind == Modify) && peers.Some? && peers.value != []
  {
    VisibleWithNew(d, name, content);
    hide Visible;
  }

  /** In a full store no event leads to a push, not even of a file that was changed. */
  lemma FullStoreIsSilent(kind: Kind, p: Path, m: Moment)
    requires |Visible(m.dir)| >= MAX_FILES
    ensures !Wanted(kind, p, m)
  {
  }
}

/**
 * Offers, pulls and acknowledgements between nodes.
 *
 * A push imports one file as a blob, then notifies its peers one after another. Every offer is
 * handled by its own task at the receiver, which downloads, exports to a hidden name and renames.
 * Any number of pushes and pulls run at once, users write and remove files at any time, and any
 * connection can fail at any point.
 */
module Sync {
  import opened Collections
  import opened Directory

  /** Content addressing without collisions: a hash determines its blob. */
  datatype Blob = Raw(data: Bytes) | Collection(entries: seq<(string, Hash)>)
  datatype Hash = Digest(blob: Blob)

  /** A file is offered as the hash of a collection with that one file. */
  function CollectionHash(name: string, data: Bytes): Hash {
    Digest(Collection([(name, Digest(Raw(data)))]))
  }

  /** What a verified download of this hash exports: the first entry of the collection. */
  function Download(h: Hash): Option<Bytes> {
    if h.blob.Collection? && |h.blob.entries| > 0 && h.blob.entries[0].1.blob.Raw?
      then Some(h.blob.entries[0].1.blob.data)
    else None
  }

  datatype Offer = Offer(hash: Hash, fileName: string)

  /** The receiver's task for one offer. */
  datatype Pull =
    | Received
    | Downloading
    | Exporting(tmp: string, data: Bytes, done: nat)
    | Landing(tmp: string, data: Bytes)
    | Replied(ok: bool)

  datatype Conn = Conn(to: nat, offer: Offer, pull: Pull)

  /** The sender's task: `results` has one entry for each peer already dealt with. */
  datatype Push =
    | Importing(node: nat, name: string, peers: seq<nat>)
    | Notifying(offer: Offer, peers: seq<nat>, conn: Option<nat>, results: seq<bool>)
    | Finished(offer: Offer, peers: seq<nat>, results: seq<bool>)
    | Aborted

  type Files = map<string, Bytes>

  datatype Net = Net(
    dirs: map<nat, Files>,
    pushes: map<nat, Push>,
    conns: map<nat, Conn>,
    written: set<(string, Bytes)>)     // what users stored under which name

  datatype Event =
    | UserWrite(node: nat, name: string, data: Bytes)
    | UserRemove(node: nat, name: string)
    | StartPush(id: nat, node: nat, name: string, peers: seq<nat>)
    | Import(id: nat, fail: bool)
    | Connect(id: nat, cid: nat)
    | ReadReply(id: nat)
    | GiveUp(id: nat)                  // no connection, no reply in time, or an unreadable one
    | Shutdown(id: nat)
    | PullStep(cid: nat, tmp: string, amount: nat, fail: bool)

  function FilesOf(s: Net, node: nat): Files {
    if node in s.dirs then s.dirs[node] else map[]
  }

  predicate InLoop(s: Net, id: nat) {
    id in s.pushes && s.pushes[id].Notifying?
  }

  predicate PeersLeft(p: Push) {
    p.Notifying? && |p.results| < |p.peers|
  }

  /** The export file a pull is writing or about to rename. */
  function TempOf(pull: Pull): Option<string> {
    match pull
    case Exporting(tmp, _, _) => Some(tmp)
    case Landing(tmp, _) => Some(tmp)
    case _ => None
  }

  /** No other pull in progress at the same node uses this export name. */
  predicate Apart(s: Net, cid: nat, tmp: string)
    requires cid in s.conns
  {
    forall k :: k in s.conns && k != cid && s.conns[k].to == s.conns[cid].to ==> TempOf(s.conns[k].pull) != Some(tmp)
  }

  /** The step opens an export file. */
  predicate Opens(s: Net, e: Event) {
    e.PullStep? && e.cid in s.conns && s.conns[e.cid].pull.Downloading?
  }

  /** What the programs can do: task ids are not reused, and the watcher offers no hidden file. */
  predicate Possible(s: Net, e: Event) {
    match e
    case UserWrite(_, name, _) => !Hidden(name)
    case UserRemove(_, _) => true
    case StartPush(id, _, name, _) => id !in s.pushes && !Hidden(name)
    case Import(id, _) => id in s.pushes && s.pushes[id].Importing?
    case Connect(id, cid) => InLoop(s, id) && PeersLeft(s.pushes[id]) && s.pushes[id].conn == None && cid !in s.conns
    case ReadReply(id) => InLoop(s, id) && PeersLeft(s.pushes[id]) && s.pushes[id].conn.Some?
    case GiveUp(id) => InLoop(s, id) && PeersLeft(s.pushes[id])
    case Shutdown(id) => InLoop(s, id) && !PeersLeft(s.pushes[id])
    case PullStep(cid, tmp, _, _) => cid in s.conns && IsExport(tmp)
  }

  /** What they do as long as overlapping pulls at a node choose different export names. */
  predicate Enabled(s: Net, e: Event) {
    Possible(s, e) && (Opens(s, e) ==> Apart(s, e.cid, e.tmp))
  }

  function WithFiles(s: Net, node: nat, files: Files): Net {
    s.(dirs := s.dirs[node := files])
  }

  function ImportStep(s: Net, p: Push, fail: bool): Push
    requires p.Importing?
  {
    var files := FilesOf(s, p.node);
    if p.peers == [] || fail || p.name !in files then Aborted
    else Notifying(Offer(CollectionHash(p.name, files[p.name]), p.name), p.peers, None, [])
  }

  function Answered(p: Push, ok: bool): Push
    requires p.Notifying?
  {
    p.(conn := None, results := p.results + [ok])
  }

  function ReadStep(s: Net, p: Push): Push
    requires p.Notifying? && p.conn.Some?
  {
    if p.conn.value in s.conns && s.conns[p.conn.value].pull.Replied? then Answered(p, s.conns[p.conn.value].pull.ok)
      else p
  }

  /** The receiver's next step: its new stage and the directory it leaves. */
  function PullNext(files: Files, offer: Offer, pull: Pull, tmp: string, amount: nat, fail: bool): (Pull, Files) {
    match pull
    case Received => (if fail || !SafeName(offer.fileName) then Replied(false) else Downloading, files)
    case Downloading =>
      if fail || Download(offer.hash).None? then (Replied(false), files)
      else (Exporting(tmp, Download(offer.hash).value, 0), files[tmp := []])
    case Exporting(own, data, done) =>
      if fail then (Replied(false), files)
      else if done >= |data| then (Landing(own, data), files)
      else
        (Exporting(own, data, Upto(data, done + amount)),
         if own in files then files[own := data[..Upto(data, done + amount)]] else files)
    case Landing(own, data) =>
      if fail || own !in files || offer.fileName == "" then (Replied(false), files)
      else (Replied(true), (files - {own})[offer.fileName := files[own]])
    case Replied(_) => (pull, files)
  }

  function RunPull(s: Net, cid: nat, tmp: string, amount: nat, fail: bool): Net
    requires cid in s.conns
  {
    var c := s.conns[cid];
    var next := PullNext(FilesOf(s, c.to), c.offer, c.pull, tmp, amount, fail);
    s.(dirs := s.dirs[c.to := next.1],
       conns := s.conns[cid := c.(pull := next.0)])
  }

  function SetPush(s: Net, id: nat, p: Push): Net {
    s.(pushes := s.pushes[id := p])
  }

  function Step(s: Net, e: Event): Net
    requires Possible(s, e)
  {
    match e
    case UserWrite(node, name, data) =>
      WithFiles(s, node, FilesOf(s, node)[name := data]).(written := s.written + {(name, data)})
    case UserRemove(node, name) => WithFiles(s, node, FilesOf(s, node) - {name})
    case StartPush(id, node, name, peers) => SetPush(s, id, Importing(node, name, peers))
    case Import(id, fail) => SetPush(s, id, ImportStep(s, s.pushes[id], fail))
    case Connect(id, cid) =>
      var p := s.pushes[id];
      SetPush(s, id, p.(conn := Some(cid))).(conns := s.conns[cid := Conn(p.peers[|p.results|], p.offer, Received)])
    case ReadReply(id) => SetPush(s, id, ReadStep(s, s.pushes[id]))
    case GiveUp(id) => SetPush(s, id, Answered(s.pushes[id], false))
    case Shutdown(id) => var p := s.pushes[id]; SetPush(s, id, Finished(p.offer, p.peers, p.results))
    case PullStep(cid, tmp, amount, fail) => RunPull(s, cid, tmp, amount, fail)
  }

  function Originals(dirs: map<nat, Files>): set<(string, Bytes)> {
    set node, name | node in dirs && name in dirs[node] :: (name, dirs[node][name])
  }

  function Begun(dirs: map<nat, Files>): Net {
    Net(dirs, map[], map[], Originals(dirs))
  }

  /** A run from given directories. */
  ghost predicate Run(dirs: map<nat, Files>, states: seq<Net>, events: seq<Event>) {
    && |states| == |events| + 1
    && states[0] == Begun(dirs)
    && forall i :: 0 <= i < |events| ==> Enabled(states[i], events[i]) && states[i + 1] == Step(states[i], events[i])
  }
}

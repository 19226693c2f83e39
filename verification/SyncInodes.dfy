/**
 * Why export names must differ: the same network over directories of inodes.
 *
 * An export writes through the file it has open, whatever has become of its name. As long as
 * overlapping pulls at a node use different export names this makes no difference, and provenance
 * holds; when two of them share a name, a file can show contents that nobody stored under its name.
 */
module SyncInodes {
  import opened Collections
  import opened Directory
  import opened Sync
  import opened SyncProofs
  import SyncResults

  /** Directories map names to inodes; `handles` is the inode each export writes to. */
  datatype Disk = Disk(links: map<nat, map<string, nat>>, inodes: seq<Bytes>, handles: map<nat, nat>)

  /** Tasks and connections as in Sync, with no directories of their own, and the disks. */
  datatype RawNet = RawNet(net: Net, disk: Disk)

  function LinksOf(d: Disk, node: nat): map<string, nat> {
    if node in d.links then d.links[node] else map[]
  }

  function LinkAt(d: Disk, node: nat, name: string): Option<nat> {
    if name in LinksOf(d, node) then Some(LinksOf(d, node)[name]) else None
  }

  function Content(d: Disk, inode: nat): Bytes {
    if inode < |d.inodes| then d.inodes[inode] else []
  }

  function Listed(d: Disk, links: map<string, nat>): Files {
    map name | name in links :: Content(d, links[name])
  }

  function Shown(d: Disk): map<nat, Files> {
    map node | node in d.links :: Listed(d, d.links[node])
  }

  /** What the programs see. */
  function View(r: RawNet): Net {
    r.net.(dirs := Shown(r.disk))
  }

  function Relinked(d: Disk, node: nat, links: map<string, nat>): Disk {
    d.(links := d.links[node := links])
  }

  function Zeros(n: nat): Bytes {
    seq(n, _ => 0)
  }

  /** A write at an offset: the file grows if it is too short, and keeps what lies beyond. */
  function WriteAt(content: Bytes, offset: nat, chunk: Bytes): Bytes {
    var long := if |content| < offset then content + Zeros(offset - |content|) else content;
    long[..offset] + chunk + if offset + |chunk| < |long| then long[offset + |chunk|..] else []
  }

  /** Opening the export file truncates what has its name, or creates it. */
  function Create(d: Disk, node: nat, cid: nat, tmp: string): Disk {
    match LinkAt(d, node, tmp)
    case Some(inode) =>
      Relinked(d, node, LinksOf(d, node)).(
        inodes := if inode < |d.inodes| then d.inodes[inode := []] else d.inodes,
        handles := d.handles[cid := inode])
    case None =>
      Relinked(d, node, LinksOf(d, node)[tmp := |d.inodes|]).(
        inodes := d.inodes + [[]],
        handles := d.handles[cid := |d.inodes|])
  }

  function Written(d: Disk, cid: nat, offset: nat, chunk: Bytes): Disk {
    if cid in d.handles && d.handles[cid] < |d.inodes| then
      d.(inodes := d.inodes[d.handles[cid] := WriteAt(d.inodes[d.handles[cid]], offset, chunk)])
    else d
  }

  /** The rename, if there is something to rename. */
  function Moved(d: Disk, node: nat, own: string, name: string): Disk {
    var links := LinksOf(d, node);
    Relinked(d, node, if own in links then (links - {own})[name := links[own]] else links)
  }

  /** What a step of a pull does to the disks. */
  function DiskPull(d: Disk, cid: nat, c: Conn, tmp: string, amount: nat, fail: bool): Disk {
    var links := LinksOf(d, c.to);
    match c.pull
    case Downloading =>
      if fail || Download(c.offer.hash).None? then Relinked(d, c.to, links) else Create(d, c.to, cid, tmp)
    case Exporting(_, data, done) =>
      if fail || done >= |data| then Relinked(d, c.to, links)
      else Written(Relinked(d, c.to, links), cid, done, data[done..Upto(data, done + amount)])
    case Landing(own, _) =>
      if fail || c.offer.fileName == "" then Relinked(d, c.to, links) else Moved(d, c.to, own, c.offer.fileName)
    case _ => Relinked(d, c.to, links)
  }

  /** A user puts a new file in place. */
  function DiskStep(d: Disk, s: Net, e: Event): Disk
    requires Possible(s, e)
  {
    match e
    case UserWrite(node, name, data) =>
      Relinked(d, node, LinksOf(d, node)[name := |d.inodes|]).(inodes := d.inodes + [data])
    case UserRemove(node, name) => Relinked(d, node, LinksOf(d, node) - {name})
    case PullStep(cid, tmp, amount, fail) => DiskPull(d, cid, s.conns[cid], tmp, amount, fail)
    case _ => d
  }

  function RawStep(r: RawNet, e: Event): RawNet
    requires Possible(View(r), e)
  {
    RawNet(Step(View(r), e).(dirs := map[]), DiskStep(r.disk, View(r), e))
  }

  /** Disks at rest: every name has an inode of its own. */
  ghost predicate AtRest(d: Disk) {
    && (forall node, name :: LinkAt(d, node, name).Some? ==> LinkAt(d, node, name).value < |d.inodes|)
    && (forall m, a, n, b :: LinkAt(d, m, a).Some? && LinkAt(d, m, a) == LinkAt(d, n, b) ==> m == n && a == b)
  }

  function RawBegun(d: Disk): RawNet {
    RawNet(Begun(Shown(d)).(dirs := map[]), d)
  }

  /** A run in which export names may coincide. */
  ghost predicate RawRun(d: Disk, raws: seq<RawNet>, events: seq<Event>) {
    && AtRest(d)
    && |raws| == |events| + 1
    && raws[0] == RawBegun(d)
    && forall i :: 0 <= i < |events| ==>
        Possible(View(raws[i]), events[i]) && raws[i + 1] == RawStep(raws[i], events[i])
  }

  /** Whenever an export file is opened, no overlapping pull at the node uses its name. */
  ghost predicate NamesApart(raws: seq<RawNet>, events: seq<Event>)
    requires |raws| == |events| + 1
  {
    forall i :: 0 <= i < |events| ==> Enabled(View(raws[i]), events[i])
  }

  // ----- distinct names: inodes make no difference -----

  /** An export writes to a file that has its name, or no name any more, and holds what was written so far. */
  ghost predicate ExportOk(d: Disk, cid: nat, c: Conn) {
    c.pull.Exporting? ==>
      && cid in d.handles && d.handles[cid] < |d.inodes|
      && d.inodes[d.handles[cid]] == c.pull.data[..Upto(c.pull.data, c.pull.done)]
      && (LinkAt(d, c.to, c.pull.tmp).Some? ==> LinkAt(d, c.to, c.pull.tmp).value == d.handles[cid])
      && forall node, name :: LinkAt(d, node, name) == Some(d.handles[cid]) ==> node == c.to && name == c.pull.tmp
  }

  predicate SameHandle(d: Disk, conns: map<nat, Conn>, a: nat, b: nat) {
    && a in conns && b in conns && conns[a].pull.Exporting? && conns[b].pull.Exporting?
    && a in d.handles && b in d.handles && d.handles[a] == d.handles[b]
  }

  ghost predicate OpenApart(d: Disk, conns: map<nat, Conn>) {
    forall a, b :: SameHandle(d, conns, a, b) ==> a == b
  }

  ghost predicate DiskOk(d: Disk, conns: map<nat, Conn>) {
    && AtRest(d)
    && (forall cid :: cid in conns ==> ExportOk(d, cid, conns[cid]))
    && OpenApart(d, conns)
  }

  /** Only one node's directory changes: the others list the same files. */
  lemma ShownRelinked(d: Disk, t: Disk, node: nat, files: Files)
    requires t.links.Keys == d.links.Keys + {node}
    requires forall m :: m in d.links && m != node ==> t.links[m] == d.links[m]
    requires forall m, name ::
      m != node && LinkAt(d, m, name).Some?
      ==> Content(t, LinkAt(d, m, name).value) == Content(d, LinkAt(d, m, name).value)
    requires Listed(t, t.links[node]) == files
    ensures Shown(t) == Shown(d)[node := files]
  {
    forall m | m in Shown(t)
      ensures Shown(t)[m] == Shown(d)[node := files][m]
    {
      if m != node {
        forall name | name in d.links[m]
          ensures Content(t, d.links[m][name]) == Content(d, d.links[m][name])
        {
          assert LinkAt(d, m, name) == Some(d.links[m][name]);
        }
        assert Listed(t, t.links[m]) == Listed(d, d.links[m]);
      }
    }
  }

  lemma HandlesDoNotShow(d: Disk, t: Disk)
    requires d.links == t.links && d.inodes == t.inodes
    ensures Shown(d) == Shown(t)
  {
    forall m | m in Shown(d)
      ensures Shown(d)[m] == Shown(t)[m]
    {
      assert Listed(d, d.links[m]) == Listed(t, d.links[m]);
    }
  }

  lemma FilesAre(d: Disk, s: Net, node: nat)
    requires s.dirs == Shown(d)
    ensures FilesOf(s, node) == Listed(d, LinksOf(d, node))
  {
  }

  lemma Resumes(data: Bytes, done: nat, upto: nat)
    requires done <= upto <= |data|
    ensures WriteAt(data[..done], done, data[done..upto]) == data[..upto]
  {
  }

  // ----- each effect on the disks keeps them in order -----

  lemma UnlinkKeeps(d: Disk, conns: map<nat, Conn>, node: nat, links: map<string, nat>)
    requires DiskOk(d, conns)
    requires forall name :: name in links ==> LinkAt(d, node, name) == Some(links[name])
    ensures DiskOk(Relinked(d, node, links), conns)
  {
    var t := Relinked(d, node, links);
    assert forall m, name :: LinkAt(t, m, name).Some? ==> LinkAt(t, m, name) == LinkAt(d, m, name);
    forall cid | cid in conns
      ensures ExportOk(t, cid, conns[cid])
    {
      assert ExportOk(d, cid, conns[cid]);
    }
    assert forall a, b :: SameHandle(t, conns, a, b) ==> SameHandle(d, conns, a, b);
  }

  /** No export in progress uses this name at this node. */
  ghost predicate Unclaimed(conns: map<nat, Conn>, node: nat, name: string) {
    forall k :: k in conns && conns[k].pull.Exporting? && conns[k].to == node ==> conns[k].pull.tmp != name
  }

  function NewFile(d: Disk, node: nat, name: string, data: Bytes): Disk {
    Relinked(d, node, LinksOf(d, node)[name := |d.inodes|]).(inodes := d.inodes + [data])
  }

  lemma NewFileRests(d: Disk, node: nat, name: string, data: Bytes)
    requires AtRest(d)
    ensures AtRest(NewFile(d, node, name, data))
  {
    var t := NewFile(d, node, name, data);
    forall m, a, n, b | LinkAt(t, m, a).Some? && LinkAt(t, m, a) == LinkAt(t, n, b)
      ensures m == n && a == b
    {
      assert (m != node || a != name) ==> LinkAt(t, m, a) == LinkAt(d, m, a);
      assert (n != node || b != name) ==> LinkAt(t, n, b) == LinkAt(d, n, b);
    }
    assert forall m, a :: LinkAt(t, m, a).Some? && (m != node || a != name) ==> LinkAt(t, m, a) == LinkAt(d, m, a);
  }

  lemma NewFileSpares(d: Disk, node: nat, name: string, data: Bytes, cid: nat, c: Conn)
    requires ExportOk(d, cid, c) && c.pull.Exporting? && (c.to != node || c.pull.tmp != name)
    ensures ExportOk(NewFile(d, node, name, data), cid, c)
  {
    var t := NewFile(d, node, name, data);
    forall m, n | LinkAt(t, m, n) == Some(t.handles[cid])
      ensures m == c.to && n == c.pull.tmp
    {
      assert LinkAt(d, m, n) == Some(d.handles[cid]);
    }
  }

  lemma NewFileKeeps(d: Disk, conns: map<nat, Conn>, node: nat, name: string, data: Bytes)
    requires DiskOk(d, conns) && Unclaimed(conns, node, name)
    ensures DiskOk(NewFile(d, node, name, data), conns)
  {
    var t := NewFile(d, node, name, data);
    NewFileRests(d, node, name, data);
    forall cid | cid in conns
      ensures ExportOk(t, cid, conns[cid])
    {
      assert ExportOk(d, cid, conns[cid]);
      if conns[cid].pull.Exporting? {
        NewFileSpares(d, node, name, data, cid, conns[cid]);
      }
    }
    assert forall a, b :: SameHandle(t, conns, a, b) ==> SameHandle(d, conns, a, b);
  }

  lemma NewFileShows(d: Disk, node: nat, name: string, data: Bytes)
    requires AtRest(d)
    ensures Shown(NewFile(d, node, name, data)) == Shown(d)[node := Listed(d, LinksOf(d, node))[name := data]]
  {
    var t := NewFile(d, node, name, data);
    assert forall n :: n in LinksOf(d, node) ==> LinkAt(d, node, n) == Some(LinksOf(d, node)[n]);
    assert Listed(t, t.links[node]) == Listed(d, LinksOf(d, node))[name := data];
    ShownRelinked(d, t, node, Listed(d, LinksOf(d, node))[name := data]);
  }

  /** The contents of one inode change; who is linked where does not. */
  lemma ContentShows(d: Disk, node: nat, name: string, data: Bytes)
    requires AtRest(d) && LinkAt(d, node, name).Some? && node in d.links
    ensures Shown(d.(inodes := d.inodes[LinkAt(d, node, name).value := data]))
      == Shown(d)[node := Listed(d, LinksOf(d, node))[name := data]]
  {
    var t := d.(inodes := d.inodes[LinkAt(d, node, name).value := data]);
    assert forall n :: n in LinksOf(d, node) ==> LinkAt(d, node, n) == Some(LinksOf(d, node)[n]);
    assert Listed(t, t.links[node]) == Listed(d, LinksOf(d, node))[name := data];
    ShownRelinked(d, t, node, Listed(d, LinksOf(d, node))[name := data]);
  }

  lemma SettleKeeps(d: Disk, conns: map<nat, Conn>, cid: nat, c: Conn)
    requires DiskOk(d, conns) && !c.pull.Exporting?
    ensures DiskOk(d, conns[cid := c])
  {
    var more := conns[cid := c];
    forall k | k in more
      ensures ExportOk(d, k, more[k])
    {
      assert k != cid ==> ExportOk(d, k, conns[k]);
    }
    assert forall a, b :: SameHandle(d, more, a, b) ==> SameHandle(d, conns, a, b);
  }

  lemma TouchShows(d: Disk, node: nat)
    ensures Shown(Relinked(d, node, LinksOf(d, node))) == Shown(d)[node := Listed(d, LinksOf(d, node))]
  {
    var t := Relinked(d, node, LinksOf(d, node));
    assert Listed(t, LinksOf(d, node)) == Listed(d, LinksOf(d, node));
    ShownRelinked(d, t, node, Listed(d, LinksOf(d, node)));
  }

  lemma TouchKeeps(d: Disk, conns: map<nat, Conn>, node: nat)
    requires DiskOk(d, conns)
    ensures DiskOk(Relinked(d, node, LinksOf(d, node)), conns)
  {
    UnlinkKeeps(d, conns, node, LinksOf(d, node));
  }

  // ----- the steps of a pull -----

  lemma OthersUnclaim(s: Net, cid: nat, tmp: string)
    requires cid in s.conns && s.conns[cid].pull.Downloading? && Apart(s, cid, tmp)
    ensures Unclaimed(s.conns, s.conns[cid].to, tmp)
  {
    forall k | k in s.conns && s.conns[k].pull.Exporting? && s.conns[k].to == s.conns[cid].to
      ensures s.conns[k].pull.tmp != tmp
    {
      assert TempOf(s.conns[k].pull) == Some(s.conns[k].pull.tmp);
    }
  }

  /** The export file is open: from now on this connection writes to it. */
  lemma BeginsExport(d: Disk, conns: map<nat, Conn>, cid: nat, c: Conn, inode: nat)
    requires DiskOk(d, conns) && cid in conns && !conns[cid].pull.Exporting?
    requires c.pull.Exporting? && c.pull.done == 0
    requires inode < |d.inodes| && d.inodes[inode] == [] && LinkAt(d, c.to, c.pull.tmp) == Some(inode)
    requires Unclaimed(conns, c.to, c.pull.tmp)
    ensures DiskOk(d.(handles := d.handles[cid := inode]), conns[cid := c])
  {
    var t, more := d.(handles := d.handles[cid := inode]), conns[cid := c];
    assert forall m, n :: LinkAt(t, m, n) == LinkAt(d, m, n);
    forall k | k in more
      ensures ExportOk(t, k, more[k])
    {
      if k == cid {
        assert c.pull.data[..0] == [];
      } else {
        assert ExportOk(d, k, conns[k]);
      }
    }
    forall a, b | SameHandle(t, more, a, b)
      ensures a == b
    {
      assert a != cid ==> ExportOk(d, a, conns[a]);
      assert b != cid ==> ExportOk(d, b, conns[b]);
      assert LinkAt(d, c.to, c.pull.tmp) == Some(inode);
      assert a != cid && b != cid ==> SameHandle(d, conns, a, b);
    }
  }

  lemma CreateKeeps(d: Disk, conns: map<nat, Conn>, cid: nat, c: Conn)
    requires DiskOk(d, conns) && cid in conns && !conns[cid].pull.Exporting?
    requires c.pull.Exporting? && c.pull.done == 0
    requires Unclaimed(conns, c.to, c.pull.tmp)
    ensures DiskOk(Create(d, c.to, cid, c.pull.tmp), conns[cid := c])
  {
    var at := LinkAt(d, c.to, c.pull.tmp);
    if at == None {
      var t := NewFile(d, c.to, c.pull.tmp, []);
      NewFileKeeps(d, conns, c.to, c.pull.tmp, []);
      BeginsExport(t, conns, cid, c, |d.inodes|);
    } else {
      TouchKeeps(d, conns, c.to);
      var touched := Relinked(d, c.to, LinksOf(d, c.to));
      assert LinkAt(touched, c.to, c.pull.tmp) == at;
      EmptiedKeeps(touched, conns, c.to, c.pull.tmp);
      BeginsExport(touched.(inodes := touched.inodes[at.value := []]), conns, cid, c, at.value);
    }
  }

  lemma EmptiedKeeps(d: Disk, conns: map<nat, Conn>, node: nat, name: string)
    requires DiskOk(d, conns) && LinkAt(d, node, name).Some? && Unclaimed(conns, node, name)
    ensures DiskOk(d.(inodes := d.inodes[LinkAt(d, node, name).value := []]), conns)
  {
    var t := d.(inodes := d.inodes[LinkAt(d, node, name).value := []]);
    assert forall m, n :: LinkAt(t, m, n) == LinkAt(d, m, n);
    forall k | k in conns
      ensures ExportOk(t, k, conns[k])
    {
      assert ExportOk(d, k, conns[k]);
    }
    assert forall a, b :: SameHandle(t, conns, a, b) ==> SameHandle(d, conns, a, b);
  }

  lemma CreateShows(d: Disk, node: nat, cid: nat, tmp: string)
    requires AtRest(d)
    ensures Shown(Create(d, node, cid, tmp)) == Shown(d)[node := Listed(d, LinksOf(d, node))[tmp := []]]
  {
    if LinkAt(d, node, tmp) == None {
      NewFileShows(d, node, tmp, []);
      HandlesDoNotShow(Create(d, node, cid, tmp), NewFile(d, node, tmp, []));
    } else {
      assert node in d.links;
      assert d.links[node := LinksOf(d, node)] == d.links;
      ContentShows(d, node, tmp, []);
      var t := d.(inodes := d.inodes[LinkAt(d, node, tmp).value := []]);
      HandlesDoNotShow(Create(d, node, cid, tmp), t);
    }
  }

  /** An export goes on: its own file grows, and no other. */
  lemma WriteKeeps(d: Disk, conns: map<nat, Conn>, cid: nat, c: Conn, done: nat)
    requires DiskOk(d, conns) && cid in conns && conns[cid].pull.Exporting? && c.pull.Exporting?
    requires c.to == conns[cid].to && c.pull.tmp == conns[cid].pull.tmp && c.pull.data == conns[cid].pull.data
    requires conns[cid].pull.done < |c.pull.data| && conns[cid].pull.done <= done <= |c.pull.data|
      && c.pull.done == done
    ensures DiskOk(Written(d, cid, conns[cid].pull.done, c.pull.data[conns[cid].pull.done..done]), conns[cid := c])
  {
    var was := conns[cid].pull;
    var t, more := Written(d, cid, was.done, c.pull.data[was.done..done]), conns[cid := c];
    assert ExportOk(d, cid, conns[cid]);
    Resumes(c.pull.data, was.done, done);
    assert forall m, n :: LinkAt(t, m, n) == LinkAt(d, m, n);
    forall k | k in more
      ensures ExportOk(t, k, more[k])
    {
      assert ExportOk(d, k, conns[k]);
      assert k != cid ==> !SameHandle(d, conns, k, cid);
    }
    assert forall a, b :: SameHandle(t, more, a, b) ==> SameHandle(d, conns, a, b);
  }

  lemma WriteShows(d: Disk, conns: map<nat, Conn>, cid: nat, done: nat)
    requires DiskOk(d, conns) && cid in conns && conns[cid].pull.Exporting? && conns[cid].to in d.links
    requires conns[cid].pull.done < |conns[cid].pull.data| && conns[cid].pull.done <= done <= |conns[cid].pull.data|
    ensures var c := conns[cid];
      var files := Listed(d, LinksOf(d, c.to));
      Shown(Written(d, cid, c.pull.done, c.pull.data[c.pull.done..done]))
      == Shown(d)[c.to := if c.pull.tmp in files then files[c.pull.tmp := c.pull.data[..done]] else files]
  {
    var c := conns[cid];
    assert ExportOk(d, cid, c);
    Resumes(c.pull.data, c.pull.done, done);
    var t := Written(d, cid, c.pull.done, c.pull.data[c.pull.done..done]);
    if LinkAt(d, c.to, c.pull.tmp).Some? {
      ContentShows(d, c.to, c.pull.tmp, c.pull.data[..done]);
    } else {
      UnlinkedWriteShows(d, c.to, d.handles[cid], c.pull.data[..done]);
    }
  }

  lemma UnlinkedWriteShows(d: Disk, node: nat, inode: nat, data: Bytes)
    requires inode < |d.inodes| && node in d.links
    requires forall m, n :: LinkAt(d, m, n) != Some(inode)
    ensures Shown(d.(inodes := d.inodes[inode := data])) == Shown(d)[node := Listed(d, LinksOf(d, node))]
  {
    var t := d.(inodes := d.inodes[inode := data]);
    assert forall n :: n in LinksOf(d, node) ==> LinkAt(d, node, n) == Some(LinksOf(d, node)[n]);
    assert Listed(t, t.links[node]) == Listed(d, LinksOf(d, node));
    ShownRelinked(d, t, node, Listed(d, LinksOf(d, node)));
  }

  /** The rename: the export's inode is now the file of the offered name. */
  lemma LandKeeps(d: Disk, conns: map<nat, Conn>, node: nat, own: string, name: string)
    requires DiskOk(d, conns) && LinkAt(d, node, own).Some?
    requires Unclaimed(conns, node, own) && Unclaimed(conns, node, name)
    ensures DiskOk(Moved(d, node, own, name), conns)
  {
    var t := Moved(d, node, own, name);
    MovedRests(d, node, own, name);
    forall k | k in conns
      ensures ExportOk(t, k, conns[k])
    {
      assert ExportOk(d, k, conns[k]);
      if conns[k].pull.Exporting? {
        MoveSpares(d, node, own, name, k, conns[k]);
      }
    }
    assert forall a, b :: SameHandle(t, conns, a, b) ==> SameHandle(d, conns, a, b);
  }

  lemma MovedRests(d: Disk, node: nat, own: string, name: string)
    requires AtRest(d) && LinkAt(d, node, own).Some?
    ensures AtRest(Moved(d, node, own, name))
  {
    var t := Moved(d, node, own, name);
    forall m, a | LinkAt(t, m, a).Some?
      ensures LinkAt(t, m, a) == if m == node && a == name then LinkAt(d, node, own) else LinkAt(d, m, a)
      ensures m == node && a != name ==> a != own
    {
    }
  }

  lemma MoveSpares(d: Disk, node: nat, own: string, name: string, cid: nat, c: Conn)
    requires ExportOk(d, cid, c) && c.pull.Exporting? && LinkAt(d, node, own).Some?
    requires c.to == node ==> c.pull.tmp != own && c.pull.tmp != name
    ensures ExportOk(Moved(d, node, own, name), cid, c)
  {
    var t := Moved(d, node, own, name);
    assert LinkAt(d, node, own) != Some(d.handles[cid]);
    forall m, n | LinkAt(t, m, n) == Some(t.handles[cid])
      ensures m == c.to && n == c.pull.tmp
    {
      assert LinkAt(d, m, n) == Some(d.handles[cid]);
    }
  }

  lemma LandShows(d: Disk, node: nat, own: string, name: string)
    requires own in LinksOf(d, node)
    ensures var files := Listed(d, LinksOf(d, node));
      Shown(Moved(d, node, own, name))
      == Shown(d)[node := (files - {own})[name := files[own]]]
  {
    var files := Listed(d, LinksOf(d, node));
    var t := Moved(d, node, own, name);
    assert Listed(t, t.links[node]) == (files - {own})[name := files[own]];
    ShownRelinked(d, t, node, (files - {own})[name := files[own]]);
  }

  // ----- a step on the disks is the step of Sync -----

  lemma UnclaimedName(s: Net, node: nat, name: string)
    requires Inv(s) && !IsExport(name)
    ensures Unclaimed(s.conns, node, name)
  {
    forall k | k in s.conns && s.conns[k].pull.Exporting? && s.conns[k].to == node
      ensures s.conns[k].pull.tmp != name
    {
      assert PullOk(s, s.conns[k]);
    }
  }

  lemma UnclaimedTemp(s: Net, cid: nat)
    requires Inv(s) && cid in s.conns && s.conns[cid].pull.Landing?
    ensures Unclaimed(s.conns, s.conns[cid].to, s.conns[cid].pull.tmp)
  {
    forall k | k in s.conns && s.conns[k].pull.Exporting? && s.conns[k].to == s.conns[cid].to
      ensures s.conns[k].pull.tmp != s.conns[cid].pull.tmp
    {
      assert !SameTemp(s.conns[k], s.conns[cid]);
    }
  }

  /** In order, and showing the directories of this state. */
  ghost predicate Represents(d: Disk, s: Net) {
    DiskOk(d, s.conns) && Shown(d) == s.dirs
  }

  lemma OpeningAgrees(d: Disk, s: Net, cid: nat, tmp: string, amount: nat)
    requires Inv(s) && Represents(d, s) && Enabled(s, PullStep(cid, tmp, amount, false))
    requires s.conns[cid].pull.Downloading? && Download(s.conns[cid].offer.hash).Some?
    ensures Represents(DiskPull(d, cid, s.conns[cid], tmp, amount, false), RunPull(s, cid, tmp, amount, false))
  {
    var c, t := s.conns[cid], RunPull(s, cid, tmp, amount, false);
    FilesAre(d, s, c.to);
    OthersUnclaim(s, cid, tmp);
    CreateKeeps(d, s.conns, cid, t.conns[cid]);
    CreateShows(d, c.to, cid, tmp);
  }

  lemma WritingKeeps(d: Disk, s: Net, cid: nat, tmp: string, amount: nat)
    requires DiskOk(d, s.conns) && cid in s.conns
    requires s.conns[cid].pull.Exporting? && s.conns[cid].pull.done < |s.conns[cid].pull.data|
    ensures DiskOk(DiskPull(d, cid, s.conns[cid], tmp, amount, false), RunPull(s, cid, tmp, amount, false).conns)
  {
    var c := s.conns[cid];
    TouchKeeps(d, s.conns, c.to);
    hide DiskOk;
    WriteKeeps(Relinked(d, c.to, LinksOf(d, c.to)), s.conns, cid, RunPull(s, cid, tmp, amount, false).conns[cid],
               Upto(c.pull.data, c.pull.done + amount));
  }

  lemma WritingShows(d: Disk, s: Net, cid: nat, tmp: string, amount: nat)
    requires Represents(d, s) && cid in s.conns
    requires s.conns[cid].pull.Exporting? && s.conns[cid].pull.done < |s.conns[cid].pull.data|
    ensures Shown(DiskPull(d, cid, s.conns[cid], tmp, amount, false)) == RunPull(s, cid, tmp, amount, false).dirs
  {
    var c := s.conns[cid];
    var touched := Relinked(d, c.to, LinksOf(d, c.to));
    TouchKeeps(d, s.conns, c.to);
    TouchShows(d, c.to);
    FilesAre(d, s, c.to);
    assert LinksOf(touched, c.to) == LinksOf(d, c.to) && c.to in touched.links;
    assert Listed(touched, LinksOf(d, c.to)) == FilesOf(s, c.to);
    assert DiskPull(d, cid, c, tmp, amount, false)
      == Written(touched, cid, c.pull.done, c.pull.data[c.pull.done..Upto(c.pull.data, c.pull.done + amount)]);
    hide DiskOk, Shown, Listed, DiskPull, Written, LinksOf;
    WriteShows(touched, s.conns, cid, Upto(c.pull.data, c.pull.done + amount));
  }

  lemma WritingAgrees(d: Disk, s: Net, cid: nat, tmp: string, amount: nat)
    requires Represents(d, s) && Enabled(s, PullStep(cid, tmp, amount, false))
    requires s.conns[cid].pull.Exporting? && s.conns[cid].pull.done < |s.conns[cid].pull.data|
    ensures Represents(DiskPull(d, cid, s.conns[cid], tmp, amount, false), RunPull(s, cid, tmp, amount, false))
  {
    WritingKeeps(d, s, cid, tmp, amount);
    WritingShows(d, s, cid, tmp, amount);
  }

  lemma LandingAgrees(d: Disk, s: Net, cid: nat, tmp: string, amount: nat)
    requires Inv(s) && Represents(d, s) && Enabled(s, PullStep(cid, tmp, amount, false))
    requires s.conns[cid].pull.Landing? && s.conns[cid].pull.tmp in LinksOf(d, s.conns[cid].to)
    requires s.conns[cid].offer.fileName != ""
    ensures Represents(DiskPull(d, cid, s.conns[cid], tmp, amount, false), RunPull(s, cid, tmp, amount, false))
  {
    var c, t := s.conns[cid], RunPull(s, cid, tmp, amount, false);
    FilesAre(d, s, c.to);
    assert PullOk(s, c);
    if IsExport(c.offer.fileName) {
      ExportsAreHidden(c.offer.fileName);
    }
    UnclaimedTemp(s, cid);
    UnclaimedName(s, c.to, c.offer.fileName);
    LandKeeps(d, s.conns, c.to, c.pull.tmp, c.offer.fileName);
    LandShows(d, c.to, c.pull.tmp, c.offer.fileName);
    SettleKeeps(Moved(d, c.to, c.pull.tmp, c.offer.fileName), s.conns, cid, t.conns[cid]);
  }

  /** All other steps of a pull leave the disks alone. */
  lemma IdleAgrees(d: Disk, s: Net, cid: nat, tmp: string, amount: nat, fail: bool)
    requires Represents(d, s) && Enabled(s, PullStep(cid, tmp, amount, fail))
    requires !RunPull(s, cid, tmp, amount, fail).conns[cid].pull.Exporting?
    requires PullNext(FilesOf(s, s.conns[cid].to), s.conns[cid].offer, s.conns[cid].pull, tmp, amount, fail).1
      == FilesOf(s, s.conns[cid].to)
    requires DiskPull(d, cid, s.conns[cid], tmp, amount, fail)
      == Relinked(d, s.conns[cid].to, LinksOf(d, s.conns[cid].to))
    ensures Represents(DiskPull(d, cid, s.conns[cid], tmp, amount, fail), RunPull(s, cid, tmp, amount, fail))
  {
    var c, t := s.conns[cid], RunPull(s, cid, tmp, amount, fail);
    FilesAre(d, s, c.to);
    TouchKeeps(d, s.conns, c.to);
    TouchShows(d, c.to);
    SettleKeeps(Relinked(d, c.to, LinksOf(d, c.to)), s.conns, cid, t.conns[cid]);
  }

  lemma PullAgrees(d: Disk, s: Net, cid: nat, tmp: string, amount: nat, fail: bool)
    requires Inv(s) && Represents(d, s) && Enabled(s, PullStep(cid, tmp, amount, fail))
    ensures Represents(DiskPull(d, cid, s.conns[cid], tmp, amount, fail), RunPull(s, cid, tmp, amount, fail))
  {
    var c := s.conns[cid];
    FilesAre(d, s, c.to);
    match c.pull
    case Downloading =>
      if fail || Download(c.offer.hash).None? {
        IdleAgrees(d, s, cid, tmp, amount, fail);
      } else {
        OpeningAgrees(d, s, cid, tmp, amount);
      }
    case Exporting(_, data, done) =>
      if fail || done >= |data| {
        IdleAgrees(d, s, cid, tmp, amount, fail);
      } else {
        WritingAgrees(d, s, cid, tmp, amount);
      }
    case Landing(own, _) =>
      if fail || own !in LinksOf(d, c.to) || c.offer.fileName == "" {
        IdleAgrees(d, s, cid, tmp, amount, fail);
      } else {
        LandingAgrees(d, s, cid, tmp, amount);
      }
    case _ => IdleAgrees(d, s, cid, tmp, amount, fail);
  }

  lemma WriteAgrees(d: Disk, s: Net, node: nat, name: string, data: Bytes)
    requires Inv(s) && Represents(d, s) && !Hidden(name)
    ensures Represents(NewFile(d, node, name, data), Step(s, UserWrite(node, name, data)))
  {
    if IsExport(name) {
      ExportsAreHidden(name);
    }
    UnclaimedName(s, node, name);
    NewFileKeeps(d, s.conns, node, name, data);
    NewFileShows(d, node, name, data);
    FilesAre(d, s, node);
  }

  lemma RemoveAgrees(d: Disk, s: Net, node: nat, name: string)
    requires Represents(d, s)
    ensures Represents(Relinked(d, node, LinksOf(d, node) - {name}), Step(s, UserRemove(node, name)))
  {
    var links := LinksOf(d, node) - {name};
    UnlinkKeeps(d, s.conns, node, links);
    FilesAre(d, s, node);
    var t := Relinked(d, node, links);
    assert Listed(t, links) == FilesOf(s, node) - {name};
    ShownRelinked(d, t, node, FilesOf(s, node) - {name});
  }

  lemma TasksAgree(d: Disk, s: Net, e: Event)
    requires Represents(d, s) && Enabled(s, e) && !e.UserWrite? && !e.UserRemove? && !e.PullStep?
    ensures Represents(d, Step(s, e))
  {
    match e
    case Connect(id, cid) => SettleKeeps(d, s.conns, cid, Step(s, e).conns[cid]);
    case _ =>
  }

  lemma StepAgrees(d: Disk, s: Net, e: Event)
    requires Inv(s) && Represents(d, s) && Enabled(s, e)
    ensures Represents(DiskStep(d, s, e), Step(s, e))
  {
    match e
    case UserWrite(node, name, data) => WriteAgrees(d, s, node, name, data);
    case UserRemove(node, name) => RemoveAgrees(d, s, node, name);
    case PullStep(cid, tmp, amount, fail) => PullAgrees(d, s, cid, tmp, amount, fail);
    case _ => TasksAgree(d, s, e);
  }

  // ----- runs with distinct names -----

  function Views(raws: seq<RawNet>): seq<Net> {
    seq(|raws|, i requires 0 <= i < |raws| => View(raws[i]))
  }

  lemma {:induction false} AlwaysRepresented(d: Disk, raws: seq<RawNet>, events: seq<Event>, k: nat)
    requires RawRun(d, raws, events) && NamesApart(raws, events) && k < |raws|
    ensures Inv(View(raws[k])) && Represents(raws[k].disk, View(raws[k]))
    ensures k < |events| ==> View(raws[k + 1]) == Step(View(raws[k]), events[k])
  {
    if k == 0 {
    } else {
      AlwaysRepresented(d, raws, events, k - 1);
      assert Enabled(View(raws[k - 1]), events[k - 1]);
      StepKeeps(View(raws[k - 1]), events[k - 1]);
      StepAgrees(raws[k - 1].disk, View(raws[k - 1]), events[k - 1]);
    }
    if k < |events| {
      assert Enabled(View(raws[k]), events[k]);
      StepAgrees(raws[k].disk, View(raws[k]), events[k]);
    }
  }

  /** With export names apart, what the programs see of the inodes is a run of Sync. */
  lemma ViewsRun(d: Disk, raws: seq<RawNet>, events: seq<Event>)
    requires RawRun(d, raws, events) && NamesApart(raws, events)
    ensures Run(Shown(d), Views(raws), events)
  {
    assert View(raws[0]) == Begun(Shown(d));
    forall i | 0 <= i < |events|
      ensures Enabled(Views(raws)[i], events[i]) && Views(raws)[i + 1] == Step(Views(raws)[i], events[i])
    {
      assert Enabled(View(raws[i]), events[i]);
      AlwaysRepresented(d, raws, events, i);
    }
  }

  /** What a node shows under a name was there at the start, or was stored under that name by a user before. */
  ghost predicate Provenant(d: Disk, raws: seq<RawNet>, events: seq<Event>, k: nat, node: nat, name: string)
    requires k < |raws| <= |events| + 1 && name in FilesOf(View(raws[k]), node)
  {
    var data := FilesOf(View(raws[k]), node)[name];
    (name, data) in Originals(Shown(d)) || exists i, writer :: 0 <= i < k && events[i] == UserWrite(writer, name, data)
  }

  /** Provenance, down to inodes and open files, for runs in which overlapping pulls at a node use different names. */
  lemma ProvenanceOnDisk(d: Disk, raws: seq<RawNet>, events: seq<Event>, k: nat, node: nat, name: string)
    requires RawRun(d, raws, events) && NamesApart(raws, events) && k < |raws|
    requires name in FilesOf(View(raws[k]), node) && !Hidden(name)
    ensures Provenant(d, raws, events, k, node, name)
  {
    ViewsRun(d, raws, events);
    SyncResults.Provenance(Shown(d), Views(raws), events, k, node, name);
  }

  // ----- a run with a shared name -----

  lemma {:induction false} Extend(d: Disk, raws: seq<RawNet>, events: seq<Event>, e: Event, t: RawNet)
    requires RawRun(d, raws, events) && Possible(View(raws[|events|]), e) && RawStep(raws[|events|], e) == t
    ensures RawRun(d, raws + [t], events + [e])
  {
    var more, longer := raws + [t], events + [e];
    forall i | 0 <= i < |longer|
      ensures Possible(View(more[i]), longer[i]) && more[i + 1] == RawStep(more[i], longer[i])
    {
      if i < |events| {
        assert more[i] == raws[i] && more[i + 1] == raws[i + 1] && longer[i] == events[i];
      }
    }
  }

  /** Some run without a user in it ends here. */
  ghost predicate Reached(d: Disk, r: RawNet) {
    exists raws, events :: Quiet(d, raws, events) && raws[|events|] == r
  }

  ghost predicate Quiet(d: Disk, raws: seq<RawNet>, events: seq<Event>) {
    RawRun(d, raws, events) && forall i :: 0 <= i < |events| ==> !events[i].UserWrite?
  }

  lemma Next(d: Disk, r: RawNet, e: Event, t: RawNet)
    requires Reached(d, r) && Possible(View(r), e) && RawStep(r, e) == t && !e.UserWrite?
    ensures Reached(d, t)
  {
    var raws, events :| Quiet(d, raws, events) && raws[|events|] == r;
    Extend(d, raws, events, e, t);
    assert Quiet(d, raws + [t], events + [e]);
    assert (raws + [t])[|events + [e]|] == t;
  }

  const A_DATA: Bytes := [1]
  const B_DATA: Bytes := [2]
  const A_OFFER := Offer(CollectionHash("a", A_DATA), "a")
  const B_OFFER := Offer(CollectionHash("b", B_DATA), "b")
  const SHARED := ".dddatasync-export-1"

  /** Node 0 has two files and node 1 has none. */
  const TWO_FILES := Disk(map[0 := map["a" := 0, "b" := 1], 1 := map[]], [A_DATA, B_DATA], map[])

  function Point(pushes: map<nat, Push>, conns: map<nat, Conn>, disk: Disk): RawNet {
    RawNet(Net(map[], pushes, conns, Originals(Shown(TWO_FILES))), disk)
  }

  const BOTH_PUSHES: map<nat, Push> :=
    map[0 := Notifying(A_OFFER, [1], Some(0), []), 1 := Notifying(B_OFFER, [1], Some(1), [])]

  /** Both offers have reached node 1; the pulls are at these stages. */
  function Pulling(a: Pull, b: Pull, disk: Disk): RawNet {
    Point(BOTH_PUSHES, map[0 := Conn(1, A_OFFER, a), 1 := Conn(1, B_OFFER, b)], disk)
  }

  /** Node 1 has one file with this name and contents, open in these pulls. */
  function Receiving(name: string, data: Bytes, handles: map<nat, nat>): Disk {
    Disk(map[0 := map["a" := 0, "b" := 1], 1 := map[name := 2]], [A_DATA, B_DATA, data], handles)
  }

  lemma Start()
    ensures Reached(TWO_FILES, Point(map[], map[], TWO_FILES))
  {
    var raws, events: seq<Event> := [RawBegun(TWO_FILES)], [];
    assert Quiet(TWO_FILES, raws, events);
    assert raws[|events|] == Point(map[], map[], TWO_FILES);
  }

  lemma Offered(pushes: map<nat, Push>, conns: map<nat, Conn>, id: nat, name: string, inode: nat, offer: Offer)
    requires Reached(TWO_FILES, Point(pushes, conns, TWO_FILES))
    requires id !in pushes && id !in conns && !Hidden(name)
    requires LinkAt(TWO_FILES, 0, name) == Some(inode) && inode < 2
    requires offer == Offer(CollectionHash(name, TWO_FILES.inodes[inode]), name)
    ensures Reached(TWO_FILES, Point(pushes[id := Notifying(offer, [1], Some(id), [])],
                                     conns[id := Conn(1, offer, Received)], TWO_FILES))
  {
    var s0 := Point(pushes, conns, TWO_FILES);
    var s1 := Point(pushes[id := Importing(0, name, [1])], conns, TWO_FILES);
    Begins(pushes, conns, id, name);
    Next(TWO_FILES, s0, StartPush(id, 0, name, [1]), s1);
    var s2 := Point(pushes[id := Notifying(offer, [1], None, [])], conns, TWO_FILES);
    Imports(pushes, conns, id, name, inode, offer);
    Next(TWO_FILES, s1, Import(id, false), s2);
    var s3 := Point(pushes[id := Notifying(offer, [1], Some(id), [])], conns[id := Conn(1, offer, Received)],
      TWO_FILES);
    Connects(pushes, conns, id, offer);
    Next(TWO_FILES, s2, Connect(id, id), s3);
  }

  lemma Begins(pushes: map<nat, Push>, conns: map<nat, Conn>, id: nat, name: string)
    requires id !in pushes && !Hidden(name)
    ensures var s := Point(pushes, conns, TWO_FILES);
      RawStep(s, StartPush(id, 0, name, [1])) == Point(pushes[id := Importing(0, name, [1])], conns, TWO_FILES)
  {
  }

  lemma Imports(pushes: map<nat, Push>, conns: map<nat, Conn>, id: nat, name: string, inode: nat, offer: Offer)
    requires LinkAt(TWO_FILES, 0, name) == Some(inode) && inode < 2
    requires offer == Offer(CollectionHash(name, TWO_FILES.inodes[inode]), name)
    ensures var s := Point(pushes[id := Importing(0, name, [1])], conns, TWO_FILES);
      RawStep(s, Import(id, false)) == Point(pushes[id := Notifying(offer, [1], None, [])], conns, TWO_FILES)
  {
    var s := Point(pushes[id := Importing(0, name, [1])], conns, TWO_FILES);
    FilesAre(TWO_FILES, View(s), 0);
    assert ImportStep(View(s), Importing(0, name, [1]), false) == Notifying(offer, [1], None, []);
    assert pushes[id := Importing(0, name, [1])][id := Notifying(offer, [1], None, [])]
      == pushes[id := Notifying(offer, [1], None, [])];
  }

  lemma Connects(pushes: map<nat, Push>, conns: map<nat, Conn>, id: nat, offer: Offer)
    requires id !in conns
    ensures var s := Point(pushes[id := Notifying(offer, [1], None, [])], conns, TWO_FILES);
      RawStep(s, Connect(id, id))
      == Point(pushes[id := Notifying(offer, [1], Some(id), [])], conns[id := Conn(1, offer, Received)], TWO_FILES)
  {
    assert pushes[id := Notifying(offer, [1], None, [])][id := Notifying(offer, [1], Some(id), [])]
      == pushes[id := Notifying(offer, [1], Some(id), [])];
  }

  lemma BothOffered()
    ensures Reached(TWO_FILES, Pulling(Received, Received, TWO_FILES))
  {
    Start();
    assert !Hidden("a") && !Hidden("b");
    Offered(map[], map[], 0, "a", 0, A_OFFER);
    var p, c: map<nat, Conn> := map[0 := Notifying(A_OFFER, [1], Some(0), [])], map[0 := Conn(1, A_OFFER, Received)];
    Offered(p, c, 1, "b", 1, B_OFFER);
    assert p[1 := Notifying(B_OFFER, [1], Some(1), [])] == BOTH_PUSHES;
  }

  /** Where one of the two pulls goes next, and the disks with it. */
  ghost predicate Leads(disk: Disk, cid: nat, offer: Offer, pull: Pull, tmp: string, amount: nat, next: Pull,
      after: Disk) {
    && PullNext(Listed(disk, LinksOf(disk, 1)), offer, pull, tmp, amount, false).0 == next
    && DiskPull(disk, cid, Conn(1, offer, pull), tmp, amount, false) == after
  }

  lemma FirstMoves(a: Pull, b: Pull, disk: Disk, tmp: string, amount: nat, next: Pull, after: Disk)
    requires Reached(TWO_FILES, Pulling(a, b, disk)) && IsExport(tmp)
    requires Leads(disk, 0, A_OFFER, a, tmp, amount, next, after)
    ensures Reached(TWO_FILES, Pulling(next, b, after))
  {
    var r := Pulling(a, b, disk);
    FilesAre(disk, View(r), 1);
    var e := PullStep(0, tmp, amount, false);
    assert RawStep(r, e).net.conns == Pulling(next, b, after).net.conns;
    assert RawStep(r, e) == Pulling(next, b, after);
    hide *;
    Next(TWO_FILES, r, e, Pulling(next, b, after));
  }

  lemma SecondMoves(a: Pull, b: Pull, disk: Disk, tmp: string, amount: nat, next: Pull, after: Disk)
    requires Reached(TWO_FILES, Pulling(a, b, disk)) && IsExport(tmp)
    requires Leads(disk, 1, B_OFFER, b, tmp, amount, next, after)
    ensures Reached(TWO_FILES, Pulling(a, next, after))
  {
    var r := Pulling(a, b, disk);
    FilesAre(disk, View(r), 1);
    var e := PullStep(1, tmp, amount, false);
    assert RawStep(r, e).net.conns == Pulling(a, next, after).net.conns;
    assert RawStep(r, e) == Pulling(a, next, after);
    hide *;
    Next(TWO_FILES, r, e, Pulling(a, next, after));
  }

  lemma BothDownloading()
    ensures Reached(TWO_FILES, Pulling(Downloading, Downloading, TWO_FILES))
  {
    BothOffered();
    assert IsExport(SHARED) && SafeName("a") && SafeName("b");
    FirstMoves(Received, Received, TWO_FILES, SHARED, 0, Downloading, TWO_FILES);
    SecondMoves(Downloading, Received, TWO_FILES, SHARED, 0, Downloading, TWO_FILES);
  }

  lemma FirstOpened()
    ensures Reached(TWO_FILES, Pulling(Exporting(SHARED, A_DATA, 0), Downloading, Receiving(SHARED, [], map[0 := 2])))
  {
    BothDownloading();
    assert IsExport(SHARED);
    assert Create(TWO_FILES, 1, 0, SHARED) == Receiving(SHARED, [], map[0 := 2]);
    FirstMoves(Downloading, Downloading, TWO_FILES, SHARED, 0, Exporting(SHARED, A_DATA, 0),
      Receiving(SHARED, [], map[0 := 2]));
  }

  lemma FirstWritten()
    ensures Reached(TWO_FILES, Pulling(Exporting(SHARED, A_DATA, 1), Downloading,
      Receiving(SHARED, A_DATA, map[0 := 2])))
  {
    FirstOpened();
    assert IsExport(SHARED);
    var d := Receiving(SHARED, [], map[0 := 2]);
    assert A_DATA[0..1] == A_DATA && WriteAt([], 0, A_DATA) == A_DATA;
    assert Written(Relinked(d, 1, LinksOf(d, 1)), 0, 0, A_DATA) == Receiving(SHARED, A_DATA, map[0 := 2]);
    FirstMoves(Exporting(SHARED, A_DATA, 0), Downloading, d, SHARED, 1, Exporting(SHARED, A_DATA, 1),
          Receiving(SHARED, A_DATA, map[0 := 2]));
  }

  lemma FirstExported()
    ensures Reached(TWO_FILES, Pulling(Landing(SHARED, A_DATA), Downloading, Receiving(SHARED, A_DATA, map[0 := 2])))
  {
    FirstWritten();
    assert IsExport(SHARED);
    var d := Receiving(SHARED, A_DATA, map[0 := 2]);
    FirstMoves(Exporting(SHARED, A_DATA, 1), Downloading, d, SHARED, 0, Landing(SHARED, A_DATA), d);
  }

  lemma SecondOpened()
    ensures Reached(TWO_FILES, Pulling(Landing(SHARED, A_DATA), Exporting(SHARED, B_DATA, 0),
                                       Receiving(SHARED, [], map[0 := 2, 1 := 2])))
  {
    FirstExported();
    assert IsExport(SHARED);
    var d, t := Receiving(SHARED, A_DATA, map[0 := 2]), Receiving(SHARED, [], map[0 := 2, 1 := 2]);
    assert LinkAt(d, 1, SHARED) == Some(2);
    assert Create(d, 1, 1, SHARED) == t;
    SecondMoves(Landing(SHARED, A_DATA), Downloading, d, SHARED, 0, Exporting(SHARED, B_DATA, 0), t);
  }

  lemma FirstLanded()
    ensures Reached(TWO_FILES, Pulling(Replied(true), Exporting(SHARED, B_DATA, 0),
      Receiving("a", [], map[0 := 2, 1 := 2])))
  {
    SecondOpened();
    assert IsExport(SHARED);
    var d, t := Receiving(SHARED, [], map[0 := 2, 1 := 2]), Receiving("a", [], map[0 := 2, 1 := 2]);
    assert LinksOf(d, 1) - {SHARED} == map[];
    assert Moved(d, 1, SHARED, "a") == t;
    FirstMoves(Landing(SHARED, A_DATA), Exporting(SHARED, B_DATA, 0), d, SHARED, 0, Replied(true), t);
  }

  lemma SecondWritten()
    ensures Reached(TWO_FILES, Pulling(Replied(true), Exporting(SHARED, B_DATA, 1),
      Receiving("a", B_DATA, map[0 := 2, 1 := 2])))
  {
    FirstLanded();
    assert IsExport(SHARED);
    var d, t := Receiving("a", [], map[0 := 2, 1 := 2]), Receiving("a", B_DATA, map[0 := 2, 1 := 2]);
    assert B_DATA[0..1] == B_DATA && WriteAt([], 0, B_DATA) == B_DATA;
    assert Written(Relinked(d, 1, LinksOf(d, 1)), 1, 0, B_DATA) == t;
    SecondMoves(Replied(true), Exporting(SHARED, B_DATA, 0), d, SHARED, 1, Exporting(SHARED, B_DATA, 1), t);
  }

  lemma NotStoredAsA()
    ensures ("a", B_DATA) !in Originals(Shown(TWO_FILES))
  {
    assert Shown(TWO_FILES)[0]["a"] == A_DATA;
  }

  /**
   * Two pulls that share an export name: the second truncates the first one's file, the first
   * renames it into place and acknowledges, and the second goes on writing into what is now
   * visible. The file "a" ends up with the bytes of "b", which nobody stored under that name.
   */
  lemma SharedNameBreaksProvenance() returns (raws: seq<RawNet>, events: seq<Event>)
    ensures RawRun(TWO_FILES, raws, events)
    ensures Acknowledged(raws[|events|], 0)
    ensures "a" in FilesOf(View(raws[|events|]), 1) && FilesOf(View(raws[|events|]), 1)["a"] == B_DATA
    ensures !Provenant(TWO_FILES, raws, events, |events|, 1, "a")
  {
    SecondWritten();
    NotStoredAsA();
    var t := Pulling(Replied(true), Exporting(SHARED, B_DATA, 1), Receiving("a", B_DATA, map[0 := 2, 1 := 2]));
    FilesAre(t.disk, View(t), 1);
    raws, events :| Quiet(TWO_FILES, raws, events) && raws[|events|] == t;
  }

  predicate Acknowledged(r: RawNet, cid: nat) {
    cid in r.net.conns && r.net.conns[cid].pull == Replied(true)
  }
}

/** The store without concurrency: the loops over the directory and what each operation does to it. */
module Store {
  import opened Collections
  import opened Directory

  datatype FileEntry = FileEntry(name: string, size: nat)

  datatype Verdict = Allowed | TooBig | Full | Exists | NotFound | NotAFile

  /** The limit check: size first, then the number of visible files. */
  function Limit(d: Dir, size: nat): Verdict {
    if size > MAX_FILE_BYTES then TooBig
    else if |Visible(d)| >= MAX_FILES then Full
    else Allowed
  }

  /** The listing names every visible file once, with its size. */
  ghost predicate Lists(d: Dir, names: set<string>, entries: seq<FileEntry>) {
    && |entries| == |names|
    && (forall n :: n in names <==> exists i :: 0 <= i < |entries| && entries[i].name == n)
    && (forall i :: 0 <= i < |entries| ==> IsSizeOf(d, entries[i]))
  }

  predicate IsSizeOf(d: Dir, e: FileEntry) {
    e.name in d && d[e.name].File? && e.size == |d[e.name].content|
  }

  lemma ListsOneMore(d: Dir, names: set<string>, entries: seq<FileEntry>, n: string)
    requires Lists(d, names, entries) && n !in names && n in d && d[n].File?
    ensures Lists(d, names + {n}, entries + [FileEntry(n, |d[n].content|)])
  {
    var more := entries + [FileEntry(n, |d[n].content|)];
    assert more[|entries|].name == n;
    assert forall i :: 0 <= i < |entries| ==> more[i] == entries[i];
  }

  class DddSync {
    var dir: Dir

    constructor (root: Dir)
      ensures dir == root
    {
      dir := root;
    }

    method Files() returns (entries: seq<FileEntry>)
      ensures Lists(dir, Visible(dir), entries)
    {
      entries := [];
      var todo := dir.Keys;
      ghost var done: set<string> := {};
      while todo != {}
        invariant todo <= dir.Keys
        invariant done == Visible(dir) - todo
        invariant Lists(dir, done, entries)
        decreases |todo|
      {
        var name :| name in todo;
        todo := todo - {name};
        if !Hidden(name) {
          match dir[name] {
            case File(content) =>
              ListsOneMore(dir, done, entries, name);
              entries := entries + [FileEntry(name, |content|)];
              done := done + {name};
            case Folder =>
          }
        }
      }
      assert done == Visible(dir);
    }

    method CanAdd(size: nat) returns (v: Verdict)
      ensures v == Limit(dir, size)
    {
      if size > MAX_FILE_BYTES {
        return TooBig;
      }
      var entries := Files();
      v := if |entries| >= MAX_FILES then Full else Allowed;
    }

    /**
     * Copy to a temporary name, check, rename. Rejected or not, the temporary file is gone
     * afterwards and nothing else in the directory has changed.
     */
    method Add(name: string, content: Bytes, tmp: string) returns (v: Verdict)
      requires IsTemp(tmp) && tmp !in dir && name != tmp
      modifies this
      ensures v == if Limit(old(dir), |content|) != Allowed then Limit(old(dir), |content|)
                   else if name in old(dir) then Exists else Allowed
      ensures dir == if v == Allowed then old(dir)[name := File(content)] else old(dir)
    {
      dir := dir[tmp := File(content)];
      assert Visible(dir) == Visible(old(dir));
      v := CanAdd(|content|);
      if v != Allowed {
        dir := dir - {tmp};
        return;
      }
      if name in dir {
        dir := dir - {tmp};
        v := Exists;
        return;
      }
      dir := (dir - {tmp})[name := dir[tmp]];
    }

    method TempFiles() returns (temps: seq<string>)
      ensures Enumerates(temps, Temps(dir))
    {
      temps := [];
      var todo := dir.Keys;
      ghost var done: set<string> := {};
      while todo != {}
        invariant todo <= dir.Keys
        invariant done == Temps(dir) - todo
        invariant Enumerates(temps, done)
        decreases |todo|
      {
        var name :| name in todo;
        todo := todo - {name};
        if IsTemp(name) {
          hide Enumerates;
          EnumeratesMore(temps, done, name);
          temps := temps + [name];
          done := done + {name};
        }
      }
      assert done == Temps(dir);
    }

    /**
     * Remove the temporary files. It succeeds if none of the names is a directory, and then it has
     * removed exactly those files and reports their number; otherwise it stops at that directory.
     */
    method CleanTempFiles() returns (count: nat, ok: bool)
      modifies this
      ensures count == |Temps(old(dir))|
      ensures ok <==> forall n :: n in Temps(old(dir)) ==> old(dir)[n].File?
      ensures ok ==> dir == old(dir) - Temps(old(dir))
      ensures dir.Keys <= old(dir).Keys && forall n :: n in old(dir) && !IsTemp(n) ==> n in dir
      ensures forall n :: n in dir ==> dir[n] == old(dir)[n]
    {
      var temps := TempFiles();
      count := |temps|;
      var i := 0;
      while i < |temps|
        invariant i <= |temps|
        invariant forall n :: n in temps[..i] ==> IsTemp(n) && n in old(dir) && old(dir)[n].File?
        invariant dir == map n | n in old(dir) && n !in temps[..i] :: old(dir)[n]
      {
        var name := temps[i];
        assert name in Temps(old(dir)) && name !in temps[..i];
        assert temps[..i + 1] == temps[..i] + [name];
        if dir[name].Folder? {
          assert name in Temps(old(dir)) && old(dir)[name].Folder?;
          return count, false;
        }
        dir := dir - {name};
        i := i + 1;
      }
      assert temps[..i] == temps;
      assert forall n :: n in Temps(old(dir)) ==> n in temps;
      assert dir == old(dir) - Temps(old(dir));
      ok := true;
    }

    method Remove(name: string) returns (v: Verdict)
      modifies this
      ensures v == if name !in old(dir) then NotFound else if old(dir)[name].Folder? then NotAFile else Allowed
      ensures dir == if v == Allowed then old(dir) - {name} else old(dir)
    {
      if name !in dir {
        return NotFound;
      }
      if dir[name].Folder? {
        return NotAFile;
      }
      dir := dir - {name};
      v := Allowed;
    }
  }
}

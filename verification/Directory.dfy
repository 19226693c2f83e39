/** The store root as a value: directory entries by name, and the naming rules all components share. */
module Directory {
  type Bytes = seq<bv8>

  datatype Entry = File(content: Bytes) | Folder

  type Dir = map<string, Entry>

  const MAX_FILES: nat := 3
  const MAX_FILE_BYTES: nat := 104_857_600

  /** Names that start with a dot are ignored by the listing, the limit and the watcher. */
  predicate Hidden(name: string) {
    name != "" && name[0] == '.'
  }

  /** The check a pull makes on an offered name before anything else. */
  predicate SafeName(name: string) {
    '/' !in name && '\\' !in name && !Hidden(name)
  }

  predicate IsTemp(name: string) {
    ".tmp-" <= name
  }

  predicate IsExport(name: string) {
    ".dddatasync-export-" <= name
  }

  predicate IsVisible(d: Dir, name: string) {
    name in d && d[name].File? && !Hidden(name)
  }

  function Visible(d: Dir): set<string> {
    set name | name in d && IsVisible(d, name)
  }

  function Temps(d: Dir): set<string> {
    set name | name in d && IsTemp(name)
  }

  /** How far a copy gets: n bytes, or all there are. */
  function Upto(data: Bytes, n: nat): (k: nat)
    ensures k <= |data|
  {
    if n <= |data| then n else |data|
  }

  function Prefix(data: Bytes, n: nat): Bytes {
    data[..Upto(data, n)]
  }
}

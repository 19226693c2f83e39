/** The identity file: what is written, what is read back, and what any sequence of logins leaves of it. */
module Identity {
  import opened Collections
  import opened Directory
  import Hex
  import Salt

  const LF: bv8 := 0x0a
  const CR: bv8 := 0x0d

  const KEY_BYTES: nat := 32

  type Key = k: Bytes | |k| == KEY_BYTES witness seq(KEY_BYTES, _ => 0)

  datatype Parsed = Parsed(user: Bytes, key: Key) | NoUserLine | NoKeyLine | InvalidHex | WrongLength | Panicked

  // ----- lines -----

  /** Index of the first line feed, or the length if there is none. */
  function LineEnd(s: Bytes): (e: nat)
    ensures e <= |s| && LF !in s[..e] && (e < |s| ==> s[e] == LF)
  {
    if s == [] || s[0] == LF then 0 else 1 + LineEnd(s[1..])
  }

  function StripCr(line: Bytes): Bytes {
    if line != [] && line[|line| - 1] == CR then line[..|line| - 1] else line
  }

  /** Lines end with a line feed or with a carriage return and a line feed; the last one may have no end. */
  function Lines(s: Bytes): seq<Bytes>
    decreases |s|
  {
    if s == [] then []
    else
      var e := LineEnd(s);
      if e == |s| then [s] else [StripCr(s[..e])] + Lines(s[e + 1..])
  }

  lemma {:induction false} LineEndIs(line: Bytes, rest: Bytes)
    requires LF !in line
    ensures LineEnd(line + [LF] + rest) == |line|
  {
    if line == [] {
    } else {
      LineEndIs(line[1..], rest);
      assert (line + [LF] + rest)[1..] == line[1..] + [LF] + rest;
    }
  }

  lemma FirstLine(line: Bytes, rest: Bytes)
    requires LF !in line
    ensures Lines(line + [LF] + rest) == [StripCr(line)] + Lines(rest)
  {
    var s := line + [LF] + rest;
    LineEndIs(line, rest);
    assert s[..|line|] == line && s[|line| + 1..] == rest;
  }

  // ----- the file -----

  function Contents(user: Bytes, key: Key): Bytes {
    user + [LF] + Hex.Encode(key) + [LF]
  }

  function ParseKey(user: Bytes, line: Bytes): Parsed {
    match Hex.Decode(line)
    case Decoded(bytes) => if |bytes| == KEY_BYTES then Parsed(user, bytes) else WrongLength
    case Panic(_) => Panicked
    case _ => InvalidHex
  }

  function Parse(contents: Bytes): Parsed {
    var lines := Lines(contents);
    if lines == [] then NoUserLine
    else if |lines| == 1 then NoKeyLine
    else ParseKey(lines[0], lines[1])
  }

  lemma {:induction false} HexIsOneLine(bytes: Bytes)
    ensures LF !in Hex.Encode(bytes) && CR !in Hex.Encode(bytes)
  {
    if bytes == [] {
    } else {
      HexIsOneLine(bytes[1..]);
      assert Hex.IsLowerHex(Hex.Pair(bytes[0])[0]) && Hex.IsLowerHex(Hex.Pair(bytes[0])[1]);
    }
  }

  lemma KeyLine(key: Key)
    ensures Lines(Hex.Encode(key) + [LF]) == [Hex.Encode(key)]
  {
    HexIsOneLine(key);
    FirstLine(Hex.Encode(key), []);
    assert Hex.Encode(key) + [LF] + [] == Hex.Encode(key) + [LF];
  }

  /** A saved file without a line feed in its name reads back with the same key, a final carriage return lost. */
  lemma SavedKeyReadsBack(user: Bytes, key: Key)
    requires LF !in user
    ensures Parse(Contents(user, key)) == Parsed(StripCr(user), key)
  {
    var rest := Hex.Encode(key) + [LF];
    assert Contents(user, key) == user + [LF] + rest;
    FirstLine(user, rest);
    KeyLine(key);
    Hex.EncodedDecodes(key);
  }

  /** The part of a name after its first line feed, up to the next one: the file's second line. */
  function Middle(user: Bytes): Bytes
    requires LF in user
  {
    var rest := user[LineEnd(user) + 1..];
    StripCr(rest[..LineEnd(rest)])
  }

  lemma Reassociate(a: Bytes, b: Bytes, c: Bytes)
    ensures a + [LF] + b + [LF] + c == a + [LF] + (b + [LF] + c)
  {
    assert a + [LF] + b + [LF] + c == (a + [LF]) + (b + ([LF] + c));
  }

  /** What follows the first line break of a text that goes on after one more line feed. */
  function Rest(s: Bytes, more: Bytes): Bytes {
    if LineEnd(s) < |s| then s[LineEnd(s) + 1..] + [LF] + more else more
  }

  /** The first line of a text that goes on after one more line feed. */
  lemma FirstOfMore(s: Bytes, more: Bytes)
    ensures Lines(s + [LF] + more) == [StripCr(s[..LineEnd(s)])] + Lines(Rest(s, more))
  {
    hide Lines, StripCr, LineEnd;
    var e := LineEnd(s);
    if e < |s| {
      assert s == s[..e] + [LF] + s[e + 1..];
      Reassociate(s[..e], s[e + 1..], more);
      FirstLine(s[..e], s[e + 1..] + [LF] + more);
    } else {
      assert s[..e] == s;
      FirstLine(s, more);
    }
  }

  lemma CutLines(user: Bytes, more: Bytes)
    requires LF in user
    ensures Lines(user + [LF] + more)
      == [StripCr(user[..LineEnd(user)])] + ([Middle(user)] + Lines(Rest(user[LineEnd(user) + 1..], more)))
  {
    hide Lines;
    FirstOfMore(user, more);
    FirstOfMore(user[LineEnd(user) + 1..], more);
  }

  lemma CutName(user: Bytes, key: Key)
    requires LF in user
    ensures Parse(Contents(user, key)) == ParseKey(StripCr(user[..LineEnd(user)]), Middle(user))
  {
    hide Lines, ParseKey;
    var more := Hex.Encode(key) + [LF];
    assert Contents(user, key) == user + [LF] + more;
    CutLines(user, more);
  }

  /** A saved identity reads back unchanged exactly when its name has no line feed and no final carriage return. */
  lemma SavedReadsBack(user: Bytes, key: Key)
    ensures Parse(Contents(user, key)) == Parsed(user, key) <==> LF !in user && (user == [] || user[|user| - 1] != CR)
  {
    if LF in user {
      CutName(user, key);
    } else {
      SavedKeyReadsBack(user, key);
    }
  }

  // ----- logins -----

  /** The key derivation: salt and passphrase to a key; it may fail. */
  type Kdf = (Bytes, Bytes) -> Option<Key>

  datatype Disk = Disk(file: Option<Bytes>, tmp: Option<Bytes>)

  datatype Outcome = LoggedIn(user: Bytes, key: Key) | NoKey | Unreadable(why: Parsed) | OtherKey | Crashed

  /** One login; a crash comes after that many bytes of the temporary file, before the rename. */
  datatype Attempt = Attempt(user: Bytes, pass: Bytes, crash: Option<nat>)

  function KeyFor(kdf: Kdf, user: Bytes, pass: Bytes): Option<Key> {
    kdf(Salt.Salted(user), pass)
  }

  /** With a file present: the outcome depends only on the keys. */
  function Compare(contents: Bytes, user: Bytes, key: Key): Outcome {
    match Parse(contents)
    case Parsed(_, existing) => if existing == key then LoggedIn(user, key) else OtherKey
    case failure => Unreadable(failure)
  }

  function Login(d: Disk, kdf: Kdf, a: Attempt): (Disk, Outcome) {
    match KeyFor(kdf, a.user, a.pass)
    case None => (d, NoKey)
    case Some(key) =>
      if d.file.Some? then (d, Compare(d.file.value, a.user, key))
      else if a.crash.Some? then (d.(tmp := Some(Prefix(Contents(a.user, key), a.crash.value))), Crashed)
      else (Disk(Some(Contents(a.user, key)), None), LoggedIn(a.user, key))
  }

  function After(d: Disk, kdf: Kdf, attempts: seq<Attempt>): Disk
    decreases |attempts|
  {
    if attempts == [] then d else After(Login(d, kdf, attempts[0]).0, kdf, attempts[1..])
  }

  class IdentityStore {
    var file: Option<Bytes>
    var tmp: Option<Bytes>

    constructor ()
      ensures file == None && tmp == None
    {
      file, tmp := None, None;
    }

    method DeriveKey(kdf: Kdf, user: Bytes, pass: Bytes) returns (key: Option<Key>)
      ensures key == KeyFor(kdf, user, pass)
    {
      var salt := Salt.MakeSalt(user);
      key := kdf(salt[..], pass);
    }

    method Save(user: Bytes, key: Key)
      modifies this
      ensures file == Some(Contents(user, key)) && tmp == None
    {
      var hex := Hex.EncodeLoop(key);
      tmp := Some(user + [LF] + hex + [LF]);
      file, tmp := tmp, None;
    }

    method LoginAs(kdf: Kdf, user: Bytes, pass: Bytes) returns (o: Outcome)
      modifies this
      ensures (Disk(file, tmp), o) == Login(Disk(old(file), old(tmp)), kdf, Attempt(user, pass, None))
    {
      var key := DeriveKey(kdf, user, pass);
      if key == None {
        return NoKey;
      }
      if file.Some? {
        match Parse(file.value)
        case Parsed(_, existing) =>
          if existing != key.value {
            return OtherKey;
          }
          return LoggedIn(user, key.value);
        case failure => return Unreadable(failure);
      }
      Save(user, key.value);
      o := LoggedIn(user, key.value);
    }
  }

  /** Once there is a file, no login changes it. */
  lemma {:induction false} FileNeverChanges(d: Disk, kdf: Kdf, attempts: seq<Attempt>)
    requires d.file.Some?
    ensures After(d, kdf, attempts).file == d.file
    decreases |attempts|
  {
    if attempts == [] {
    } else {
      FileNeverChanges(Login(d, kdf, attempts[0]).0, kdf, attempts[1..]);
    }
  }

  /** This login would save: it derives a key and does not crash. */
  predicate Saves(kdf: Kdf, a: Attempt) {
    KeyFor(kdf, a.user, a.pass).Some? && a.crash == None
  }

  ghost predicate FirstSaver(kdf: Kdf, attempts: seq<Attempt>, i: nat) {
    i < |attempts| && Saves(kdf, attempts[i]) && forall j :: 0 <= j < i ==> !Saves(kdf, attempts[j])
  }

  /** From no file, any logins and crashes leave no file, or the whole file of the first login that saved. */
  lemma {:induction false} FirstSaveStands(d: Disk, kdf: Kdf, attempts: seq<Attempt>)
    requires d.file == None
    decreases |attempts|
    ensures var file := After(d, kdf, attempts).file;
      && (file == None <==> forall j :: 0 <= j < |attempts| ==> !Saves(kdf, attempts[j]))
      && forall i: nat :: FirstSaver(kdf, attempts, i)
           ==> file == Some(Contents(attempts[i].user, KeyFor(kdf, attempts[i].user, attempts[i].pass).value))
  {
    if attempts == [] {
    } else {
      var next := Login(d, kdf, attempts[0]).0;
      if Saves(kdf, attempts[0]) {
        FileNeverChanges(next, kdf, attempts[1..]);
        assert forall i: nat :: FirstSaver(kdf, attempts, i) ==> i == 0;
      } else {
        FirstSaveStands(next, kdf, attempts[1..]);
        assert forall i: nat :: FirstSaver(kdf, attempts, i) ==> i > 0 && FirstSaver(kdf, attempts[1..], i - 1);
        assert forall j :: 0 < j < |attempts| ==> attempts[j] == attempts[1..][j - 1];
        assert forall j :: 0 <= j < |attempts| - 1 ==> attempts[1..][j] == attempts[j + 1];
      }
    }
  }

  /**
   * After a first login by a name without a line feed, a later login succeeds exactly when it
   * derives the same key, whatever logins came in between.
   */
  lemma OneKeyForGood(d: Disk, kdf: Kdf, first: Attempt, between: seq<Attempt>, later: Attempt)
    requires d.file == None && Saves(kdf, first) && LF !in first.user
    ensures var disk := After(Login(d, kdf, first).0, kdf, between);
      Login(disk, kdf, later).1.LoggedIn?
      <==> KeyFor(kdf, later.user, later.pass) == KeyFor(kdf, first.user, first.pass)
  {
    FileNeverChanges(Login(d, kdf, first).0, kdf, between);
    SavedKeyReadsBack(first.user, KeyFor(kdf, first.user, first.pass).value);
  }

  /**
   * Logging in twice with the same credentials works exactly if the name has no line feed, or spells its
   * own key after it.
   */
  lemma LoginTwice(d: Disk, kdf: Kdf, a: Attempt)
    requires d.file == None && Saves(kdf, a)
    ensures Login(Login(d, kdf, a).0, kdf, a).1.LoggedIn?
      <==> LF !in a.user || Hex.Decode(Middle(a.user)) == Hex.Decoded(KeyFor(kdf, a.user, a.pass).value)
  {
    if LF in a.user {
      CutName(a.user, KeyFor(kdf, a.user, a.pass).value);
    } else {
      SavedKeyReadsBack(a.user, KeyFor(kdf, a.user, a.pass).value);
    }
  }

  /** Two names with the same salt are not told apart: the second logs in on the first one's file. */
  lemma SameSaltSameIdentity(d: Disk, kdf: Kdf, first: Attempt, other: Bytes)
    requires d.file == None && Saves(kdf, first) && LF !in first.user && Salt.Salted(other) == Salt.Salted(first.user)
    ensures Login(Login(d, kdf, first).0, kdf, Attempt(other, first.pass, None)).1
      == LoggedIn(other, KeyFor(kdf, first.user, first.pass).value)
  {
    SavedKeyReadsBack(first.user, KeyFor(kdf, first.user, first.pass).value);
  }
}

/** The salt of a user name: its bytes folded into 32 columns by exclusive or. */
module Salt {
  import opened Directory

  const WIDTH: nat := 32
  const UNDERSCORE: bv8 := 0x5f

  /** Exclusive or of two bytes; the lemmas below use it through its laws only. */
  function Mix(a: bv8, b: bv8): bv8 {
    a ^ b
  }

  lemma MixMoves(a: bv8, b: bv8, c: bv8)
    ensures Mix(a, Mix(b, c)) == Mix(Mix(a, b), c)
  {
  }

  lemma MixZero(b: bv8)
    ensures Mix(0, b) == b && Mix(b, 0) == b
  {
  }

  /** Replacing b by v in a combination. */
  lemma MixReplaces(b: bv8, v: bv8, c: bv8)
    ensures Mix(v, c) == Mix(Mix(b, c), Mix(b, v))
  {
  }

  lemma MixCancels(c: bv8, x: bv8, y: bv8)
    ensures Mix(Mix(c, Mix(x, y)), Mix(y, x)) == c
  {
  }

  function Padded(s: Bytes): (p: Bytes)
    requires |s| <= WIDTH
    ensures |p| == WIDTH
  {
    s + seq(WIDTH - |s|, _ => 0)
  }

  function MixAll(a: Bytes, b: Bytes): (c: Bytes)
    requires |a| == |b|
    ensures |c| == |a|
  {
    seq(|a|, i requires 0 <= i < |a| => Mix(a[i], b[i]))
  }

  /** The name cut into blocks of 32 bytes, the last one padded with zeros, all blocks combined. */
  function Folded(name: Bytes): (f: Bytes)
    ensures |f| == WIDTH
  {
    if |name| < WIDTH then Padded(name) else MixAll(name[..WIDTH], Folded(name[WIDTH..]))
  }

  /** An all-zero salt is replaced by that of an underscore. */
  function Salted(name: Bytes): (s: Bytes)
    ensures |s| == WIDTH
  {
    if Folded(name) == Padded([]) then Padded([UNDERSCORE]) else Folded(name)
  }

  lemma PaddedAt(s: Bytes, i: nat)
    requires |s| <= WIDTH && i < WIDTH
    ensures Padded(s)[i] == if i < |s| then s[i] else 0
  {
  }

  lemma NextBlockAt(name: Bytes, i: nat)
    requires |name| >= WIDTH && i < WIDTH
    ensures Folded(name)[i] == Mix(name[i], Folded(name[WIDTH..])[i])
  {
  }

  lemma ShortFolds(name: Bytes)
    requires |name| <= WIDTH
    ensures Folded(name) == Padded(name)
  {
    hide Mix;
    if |name| == WIDTH {
      forall i | 0 <= i < WIDTH
        ensures Folded(name)[i] == Padded(name)[i]
      {
        NextBlockAt(name, i);
        PaddedAt([], i);
        PaddedAt(name, i);
        assert name[WIDTH..] == [];
        MixZero(name[i]);
      }
    }
  }

  lemma ShortSnocAt(name: Bytes, b: bv8, i: nat)
    requires |name| < WIDTH && i < WIDTH
    ensures Folded(name + [b])[i] == if i == |name| then Mix(Folded(name)[i], b) else Folded(name)[i]
  {
    hide Mix;
    ShortFolds(name);
    ShortFolds(name + [b]);
    PaddedAt(name, i);
    PaddedAt(name + [b], i);
    MixZero(b);
  }

  /** One more byte is combined into the column it falls in. */
  lemma {:induction false} FoldedSnocAt(name: Bytes, b: bv8, i: nat)
    requires i < WIDTH
    ensures Folded(name + [b])[i] == if i == |name| % WIDTH then Mix(Folded(name)[i], b) else Folded(name)[i]
  {
    hide Mix, Folded;
    if |name| < WIDTH {
      ShortSnocAt(name, b, i);
    } else {
      FoldedSnocAt(name[WIDTH..], b, i);
      assert (name + [b])[WIDTH..] == name[WIDTH..] + [b];
      NextBlockAt(name + [b], i);
      NextBlockAt(name, i);
      MixMoves(name[i], Folded(name[WIDTH..])[i], b);
    }
  }

  lemma FoldedSnoc(name: Bytes, b: bv8)
    ensures var f, k := Folded(name), |name| % WIDTH; Folded(name + [b]) == f[k := Mix(f[k], b)]
  {
    hide Mix;
    var f, k := Folded(name), |name| % WIDTH;
    forall i | 0 <= i < WIDTH
      ensures Folded(name + [b])[i] == f[k := Mix(f[k], b)][i]
    {
      FoldedSnocAt(name, b, i);
    }
  }

  method IsAllZero(salt: array<bv8>) returns (zero: bool)
    requires salt.Length == WIDTH
    ensures zero <==> salt[..] == Padded([])
  {
    for i := 0 to salt.Length
      invariant forall j :: 0 <= j < i ==> salt[j] == 0
    {
      if salt[i] != 0 {
        assert salt[..][i] != Padded([])[i];
        return false;
      }
    }
    zero := true;
  }

  /** The loop over the name's bytes, and the fix for an all-zero result. */
  method MakeSalt(name: Bytes) returns (salt: array<bv8>)
    ensures fresh(salt) && salt[..] == Salted(name)
  {
    salt := new bv8[WIDTH](_ => 0);
    for i := 0 to |name|
      invariant fresh(salt) && salt.Length == WIDTH
      invariant salt[..] == Folded(name[..i])
    {
      FoldedSnoc(name[..i], name[i]);
      assert name[..i + 1] == name[..i] + [name[i]];
      salt[i % WIDTH] := Mix(salt[i % WIDTH], name[i]);
    }
    assert name[..|name|] == name;
    var zero := IsAllZero(salt);
    if zero {
      salt[0] := UNDERSCORE;
      assert salt[..] == Padded([UNDERSCORE]);
    }
  }

  /** The salt is never all zero, which the key derivation would reject. */
  lemma NeverZero(name: Bytes)
    ensures Salted(name) != Padded([])
  {
    assert Padded([UNDERSCORE])[0] != Padded([])[0];
  }

  // ----- names of at most 32 bytes -----

  function Stripped(s: Bytes): Bytes {
    if s != [] && s[|s| - 1] == 0 then Stripped(s[..|s| - 1]) else s
  }

  /** What the salt of a short name depends on: the name without trailing zero bytes, or an underscore for nothing. */
  function Stem(s: Bytes): Bytes {
    if Stripped(s) == [] then [UNDERSCORE] else Stripped(s)
  }

  predicate EndsNonZero(s: Bytes) {
    s == [] || s[|s| - 1] != 0
  }

  lemma {:induction false} StrippedPads(s: Bytes)
    requires |s| <= WIDTH
    ensures |Stripped(s)| <= |s| && Padded(Stripped(s)) == Padded(s) && EndsNonZero(Stripped(s))
  {
    if s != [] && s[|s| - 1] == 0 {
      StrippedPads(s[..|s| - 1]);
      assert Padded(s[..|s| - 1]) == Padded(s);
    }
  }

  lemma PaddedApart(a: Bytes, b: Bytes)
    requires |a| <= |b| <= WIDTH && EndsNonZero(a) && EndsNonZero(b) && Padded(a) == Padded(b)
    ensures a == b
  {
    if |b| > 0 {
      PaddedAt(a, |b| - 1);
      PaddedAt(b, |b| - 1);
    }
    assert Padded(a)[..|a|] == a && Padded(b)[..|b|] == b;
  }

  lemma SaltedStem(s: Bytes)
    requires |s| <= WIDTH
    ensures |Stem(s)| <= WIDTH && Salted(s) == Padded(Stem(s)) && EndsNonZero(Stem(s))
  {
    StrippedPads(s);
    ShortFolds(s);
    if Folded(s) == Padded([]) {
      PaddedApart([], Stripped(s));
    }
  }

  /** Exactly when two names of at most 32 bytes get the same salt. */
  lemma ShortNamesApart(a: Bytes, b: Bytes)
    requires |a| <= WIDTH && |b| <= WIDTH
    ensures Salted(a) == Salted(b) <==> Stem(a) == Stem(b)
  {
    SaltedStem(a);
    SaltedStem(b);
    if Salted(a) == Salted(b) {
      if |Stem(a)| <= |Stem(b)| {
        PaddedApart(Stem(a), Stem(b));
      } else {
        PaddedApart(Stem(b), Stem(a));
      }
    }
  }

  /** So nonempty names of at most 32 bytes without a zero byte have different salts. */
  lemma PlainNamesApart(a: Bytes, b: Bytes)
    requires 0 < |a| <= WIDTH && 0 < |b| <= WIDTH && 0 !in a && 0 !in b && a != b
    ensures Salted(a) != Salted(b)
  {
    assert a[|a| - 1] in a && b[|b| - 1] in b;
    ShortNamesApart(a, b);
  }

  /** The empty name and an underscore share a salt. */
  lemma EmptyIsUnderscore()
    ensures Salted([]) == Salted([UNDERSCORE])
  {
    ShortNamesApart([], [UNDERSCORE]);
    assert Stem([UNDERSCORE]) == [UNDERSCORE];
  }

  // ----- longer names -----

  /** A name has the salt of its own fold, a text of 32 bytes. */
  lemma SaltOfFold(name: Bytes)
    ensures Folded(Folded(name)) == Folded(name) && Salted(Folded(name)) == Salted(name)
  {
    ShortFolds(Folded(name));
    assert Padded(Folded(name)) == Folded(name);
  }

  /** Exactly when two names of any length get the same salt. */
  lemma NamesApart(a: Bytes, b: Bytes)
    ensures Salted(a) == Salted(b) <==> Stem(Folded(a)) == Stem(Folded(b))
  {
    SaltOfFold(a);
    SaltOfFold(b);
    ShortNamesApart(Folded(a), Folded(b));
  }

  /** No name above 32 bytes has a salt of its own. */
  lemma NoLongNameApart(name: Bytes)
    requires |name| > WIDTH
    ensures Folded(name) != name && Salted(Folded(name)) == Salted(name)
  {
    SaltOfFold(name);
  }

  /** What a byte at this index contributes to column j. */
  function Part(index: nat, b: bv8, j: nat): bv8 {
    if index % WIDTH == j then b else 0
  }

  /** The bytes in column j combined, when the first byte of the text has index `from`. */
  function Column(text: Bytes, from: nat, j: nat): bv8 {
    if text == [] then 0 else Mix(Part(from, text[0], j), Column(text[1..], from + 1, j))
  }

  lemma {:induction false} ColumnSnoc(text: Bytes, b: bv8, from: nat, j: nat)
    ensures Column(text + [b], from, j) == Mix(Column(text, from, j), Part(from + |text|, b, j))
  {
    hide Mix;
    if text == [] {
      assert ([] + [b])[1..] == [];
      MixZero(Part(from, b, j));
    } else {
      assert (text + [b])[1..] == text[1..] + [b];
      ColumnSnoc(text[1..], b, from + 1, j);
      MixMoves(Part(from, text[0], j), Column(text[1..], from + 1, j), Part(from + |text|, b, j));
    }
  }

  /** Combining blocks is combining each column by itself. */
  lemma {:induction false} FoldedColumn(name: Bytes, j: nat)
    requires j < WIDTH
    ensures Folded(name)[j] == Column(name, 0, j)
  {
    hide Mix;
    if name != [] {
      var init, last := name[..|name| - 1], name[|name| - 1];
      assert name == init + [last];
      FoldedColumn(init, j);
      FoldedSnocAt(init, last, j);
      ColumnSnoc(init, last, 0, j);
      MixZero(Column(init, 0, j));
    }
  }

  lemma PartReplaces(index: nat, b: bv8, v: bv8, j: nat, c: bv8)
    ensures Mix(Part(index, v, j), c) == Mix(Mix(Part(index, b, j), c), Part(index, Mix(b, v), j))
  {
    hide Mix;
    MixReplaces(b, v, c);
    MixZero(c);
  }

  /** Another byte in one place changes the column of that place by the difference. */
  lemma {:induction false} ColumnUpdate(pre: Bytes, b: bv8, v: bv8, post: Bytes, from: nat, j: nat)
    ensures Column(pre + ([v] + post), from, j)
      == Mix(Column(pre + ([b] + post), from, j), Part(from + |pre|, Mix(b, v), j))
  {
    hide Mix;
    if pre == [] {
      assert [] + ([v] + post) == [v] + post && [] + ([b] + post) == [b] + post;
      assert ([v] + post)[1..] == post && ([b] + post)[1..] == post;
      PartReplaces(from, b, v, j, Column(post, from + 1, j));
    } else {
      var tail := pre[1..];
      assert (pre + ([v] + post))[1..] == tail + ([v] + post) && (pre + ([b] + post))[1..] == tail + ([b] + post);
      ColumnUpdate(tail, b, v, post, from + 1, j);
      MixMoves(Part(from, pre[0], j), Column(tail + ([b] + post), from + 1, j), Part(from + |pre|, Mix(b, v), j));
    }
  }

  /** A name with two of its bytes singled out. */
  function Name(a: Bytes, x: bv8, m: Bytes, y: bv8, c: Bytes): Bytes {
    a + ([x] + (m + ([y] + c)))
  }

  lemma PartsCancel(c: bv8, p: nat, q: nat, x: bv8, y: bv8, j: nat)
    requires p % WIDTH == q % WIDTH
    ensures Mix(Mix(c, Part(p, Mix(x, y), j)), Part(q, Mix(y, x), j)) == c
  {
    hide Mix;
    MixCancels(c, x, y);
    MixZero(c);
  }

  lemma SwapKeepsColumn(a: Bytes, x: bv8, m: Bytes, y: bv8, c: Bytes, j: nat)
    requires |m| % WIDTH == WIDTH - 1
    ensures Column(Name(a, y, m, x, c), 0, j) == Column(Name(a, x, m, y, c), 0, j)
  {
    hide Mix, Column, Part;
    ColumnUpdate(a, x, y, m + ([y] + c), 0, j);
    var init := a + [y] + m;
    assert Name(a, y, m, y, c) == init + ([y] + c) && Name(a, y, m, x, c) == init + ([x] + c);
    ColumnUpdate(init, y, x, c, 0, j);
    PartsCancel(Column(Name(a, x, m, y, c), 0, j), |a|, |init|, x, y, j);
  }

  /** Longer names do collide: two bytes a multiple of 32 apart can change places. */
  lemma LongNamesCollide(a: Bytes, x: bv8, m: Bytes, y: bv8, c: Bytes)
    requires |m| % WIDTH == WIDTH - 1
    ensures Salted(Name(a, y, m, x, c)) == Salted(Name(a, x, m, y, c))
  {
    var name, other := Name(a, x, m, y, c), Name(a, y, m, x, c);
    forall j | 0 <= j < WIDTH
      ensures Folded(other)[j] == Folded(name)[j]
    {
      SwapKeepsColumn(a, x, m, y, c, j);
      FoldedColumn(other, j);
      FoldedColumn(name, j);
    }
    assert Folded(other) == Folded(name);
  }
}

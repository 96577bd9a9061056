/** Length-delimited keys and the scope digest input (`bitboxsync/engine_discovery.go:34-51`,
    `157-175`). */
module Encodings {
  import opened Prelude
  import opened Ordering

  // ---- big-endian numbers ----------------------------------------------------------------------

  function Pow256(n: nat): (p: nat)
    ensures p >= 1
  {
    if n == 0 then 1 else 256 * Pow256(n - 1)
  }

  /** `binary.BigEndian`, `width` bytes. */
  function BigEndian(n: nat, width: nat): (b: Bytes)
    requires n < Pow256(width)
    ensures |b| == width
  {
    if width == 0 then [] else BigEndian(n / 256, width - 1) + [n % 256]
  }

  function FromBigEndian(b: Bytes): nat {
    if b == [] then 0 else 256 * FromBigEndian(b[..|b| - 1]) + b[|b| - 1]
  }

  lemma {:induction false} BigEndianReadsBack(n: nat, width: nat)
    requires n < Pow256(width)
    ensures FromBigEndian(BigEndian(n, width)) == n
  {
    if width > 0 {
      BigEndianReadsBack(n / 256, width - 1);
      assert BigEndian(n, width)[..width - 1] == BigEndian(n / 256, width - 1);
    }
  }

  lemma {:induction false} FromBigEndianFits(b: Bytes)
    ensures FromBigEndian(b) < Pow256(|b|) && BigEndian(FromBigEndian(b), |b|) == b
  {
    if b != [] {
      FromBigEndianFits(b[..|b| - 1]);
    }
  }

  /** The weights of four and of eight bytes: the first one counts most. */
  function Weight4(b: Bytes): nat
    requires |b| == 4
  {
    var first: nat, second: nat, third: nat := b[0], b[1], b[2];
    first * 0x100_0000 + second * 0x1_0000 + third * 0x100 + b[3]
  }

  function Weight8(b: Bytes): nat
    requires |b| == 8
  {
    Weight4(b[..4]) * 0x1_0000_0000 + Weight4(b[4..])
  }

  lemma WeightOfFour(b: Bytes)
    requires |b| == 4
    ensures FromBigEndian(b) == Weight4(b)
  {
    assert b[..3][..2] == b[..2] && b[..2][..1] == b[..1] && b[..1][..0] == [];
    var first: nat := b[0];
    assert FromBigEndian(b[..1]) == first;
    assert FromBigEndian(b[..2]) == 256 * first + b[1];
    assert FromBigEndian(b[..3]) == 256 * FromBigEndian(b[..2]) + b[2];
  }

  lemma WeightOfEight(b: Bytes)
    requires |b| == 8
    ensures FromBigEndian(b) == Weight8(b)
  {
    var low := b[4..];
    WeightOfFour(b[..4]);
    assert b[..7][..6] == b[..6] && b[..6][..5] == b[..5] && b[..5][..4] == b[..4];
    var high := FromBigEndian(b[..4]);
    assert FromBigEndian(b[..5]) == 256 * high + low[0];
    assert FromBigEndian(b[..6]) == 256 * FromBigEndian(b[..5]) + low[1];
    assert FromBigEndian(b[..7]) == 256 * FromBigEndian(b[..6]) + low[2];
  }

  /** Eight bytes carry the number most significant byte first, and so do four. */
  lemma BigEndianWeights(n: nat)
    ensures n < Pow256(8) ==> Weight8(BigEndian(n, 8)) == n
    ensures n < Pow256(4) ==> Weight4(BigEndian(n, 4)) == n
  {
    if n < Pow256(8) {
      BigEndianReadsBack(n, 8);
      WeightOfEight(BigEndian(n, 8));
    }
    if n < Pow256(4) {
      BigEndianReadsBack(n, 4);
      WeightOfFour(BigEndian(n, 4));
    }
  }

  // ---- joinKeyParts ----------------------------------------------------------------------------

  /** A Go string is shorter than 2^63 bytes. */
  predicate GoLength(s: GoString) {
    |s| < 0x8000_0000_0000_0000
  }

  lemma GoLengthFits(s: GoString)
    requires GoLength(s)
    ensures |s| < Pow256(8)
  {
    assert Pow256(4) == 0x1_0000_0000;
    assert Pow256(8) == 0x1_0000_0000 * Pow256(4);
  }

  predicate Parts(parts: seq<GoString>) {
    forall i :: 0 <= i < |parts| ==> GoLength(parts[i])
  }

  function Delimited(part: GoString): Bytes
    requires GoLength(part)
  {
    GoLengthFits(part);
    BigEndian(|part|, 8) + part
  }

  function Joined(parts: seq<GoString>): Bytes
    requires Parts(parts)
  {
    if parts == [] then [] else Delimited(parts[0]) + Joined(parts[1..])
  }

  lemma {:induction false} JoinedAppend(parts: seq<GoString>, x: GoString)
    requires Parts(parts) && GoLength(x)
    ensures Joined(parts + [x]) == Joined(parts) + Delimited(x)
  {
    if parts == [] {
      assert parts + [x] == [x] && [x][1..] == [];
    } else {
      JoinedAppend(parts[1..], x);
      assert (parts + [x])[1..] == parts[1..] + [x];
    }
  }

  method JoinKeyParts(parts: seq<GoString>) returns (r: Bytes)
    requires Parts(parts)
    ensures r == Joined(parts)
  {
    r := [];
    var i := 0;
    while i < |parts|
      invariant 0 <= i <= |parts| && r == Joined(parts[..i])
    {
      assert parts[..i + 1] == parts[..i] + [parts[i]];
      JoinedAppend(parts[..i], parts[i]);
      GoLengthFits(parts[i]);
      r := r + BigEndian(|parts[i]|, 8);
      r := r + parts[i];
      i := i + 1;
    }
    assert parts[..i] == parts;
  }

  /** A joined key begins with the length of its first part in eight bytes, then that part, then the rest. */
  lemma JoinedLayout(parts: seq<GoString>)
    requires Parts(parts) && parts != []
    ensures var b, n := Joined(parts), |parts[0]|;
      |b| >= 8 + n && Weight8(b[..8]) == n && b[8..8 + n] == parts[0] && b[8 + n..] == Joined(parts[1..])
  {
    var b, n := Joined(parts), |parts[0]|;
    GoLengthFits(parts[0]);
    BigEndianWeights(n);
    assert b == BigEndian(n, 8) + parts[0] + Joined(parts[1..]);
    assert b[..8] == BigEndian(n, 8);
  }

  /** The only way to read a joined key: length, then that many bytes. */
  function Split(b: Bytes): Option<seq<GoString>>
    decreases |b|
  {
    if b == [] then Some([])
    else if |b| < 8 || |b| - 8 < FromBigEndian(b[..8]) then None
    else
      var n := FromBigEndian(b[..8]);
      var rest := Split(b[8 + n..]);
      if rest.None? then None else Some([b[8..8 + n]] + rest.value)
  }

  /** Joined keys are uniquely decodable, whatever the parts contain. */
  lemma {:induction false} SplitUndoesJoin(parts: seq<GoString>)
    requires Parts(parts)
    ensures Split(Joined(parts)) == Some(parts)
  {
    if parts != [] {
      var part, rest := parts[0], Joined(parts[1..]);
      var b := Joined(parts);
      SplitUndoesJoin(parts[1..]);
      GoLengthFits(part);
      BigEndianReadsBack(|part|, 8);
      assert b[..8] == BigEndian(|part|, 8) && b[8..8 + |part|] == part && b[8 + |part|..] == rest;
      assert [part] + parts[1..] == parts;
    }
  }

  lemma JoinedCons(head: GoString, tail: seq<GoString>)
    requires GoLength(head) && Parts(tail)
    ensures Parts([head] + tail) && Joined([head] + tail) == Delimited(head) + Joined(tail)
  {
    assert ([head] + tail)[1..] == tail;
  }

  lemma DelimitedReadsBack(b: Bytes, n: nat)
    requires 8 <= |b| && n == FromBigEndian(b[..8]) && n <= |b| - 8 && |b| < 0x8000_0000_0000_0000
    ensures GoLength(b[8..8 + n]) && Delimited(b[8..8 + n]) == b[..8 + n]
  {
    FromBigEndianFits(b[..8]);
    assert b[..8 + n] == b[..8] + b[8..8 + n];
  }

  /** ... and decoding accepts nothing but joined keys. */
  lemma {:induction false} JoinUndoesSplit(b: Bytes)
    requires Split(b).Some? && |b| < 0x8000_0000_0000_0000
    ensures Parts(Split(b).value) && Joined(Split(b).value) == b
    decreases |b|
  {
    if b != [] {
      var n := SplitStep(b);
      JoinUndoesSplit(b[8 + n..]);
      DelimitedReadsBack(b, n);
      Reassembled(b, n, Split(b[8 + n..]).value);
    }
  }

  lemma Reassembled(b: Bytes, n: nat, tail: seq<GoString>)
    requires 8 + n <= |b| && GoLength(b[8..8 + n]) && Delimited(b[8..8 + n]) == b[..8 + n]
    requires Parts(tail) && Joined(tail) == b[8 + n..]
    ensures Parts([b[8..8 + n]] + tail) && Joined([b[8..8 + n]] + tail) == b
  {
    JoinedCons(b[8..8 + n], tail);
    assert b[..8 + n] + b[8 + n..] == b;
  }

  lemma SplitStep(b: Bytes) returns (n: nat)
    requires b != [] && Split(b).Some?
    ensures 8 <= |b| && n == FromBigEndian(b[..8]) && n <= |b| - 8
    ensures Split(b[8 + n..]).Some? && Split(b).value == [b[8..8 + n]] + Split(b[8 + n..]).value
  {
    n := FromBigEndian(b[..8]);
  }

  /** Different lists of parts never join to the same key: active items, collection registrations and
      item locks do not collide. */
  lemma JoinIsInjective(a: seq<GoString>, b: seq<GoString>)
    requires Parts(a) && Parts(b) && Joined(a) == Joined(b)
    ensures a == b
  {
    SplitUndoesJoin(a);
    SplitUndoesJoin(b);
  }

  /** `composeLogicalKey` and `collectionRegistryKey`. */
  function ComposeLogicalKey(collection: GoString, key: GoString): Bytes
    requires GoLength(collection) && GoLength(key)
  {
    Joined([collection, key])
  }

  lemma LogicalKeysDiffer(c1: GoString, k1: GoString, c2: GoString, k2: GoString)
    requires GoLength(c1) && GoLength(k1) && GoLength(c2) && GoLength(k2)
    requires ComposeLogicalKey(c1, k1) == ComposeLogicalKey(c2, k2)
    ensures c1 == c2 && k1 == k2
  {
    JoinIsInjective([c1, k1], [c2, k2]);
    assert [c1, k1][0] == c1 && [c1, k1][1] == k1 && [c2, k2][0] == c2 && [c2, k2][1] == k2;
  }

  // ---- the scope digest ------------------------------------------------------------------------

  /** Every name preceded by the mark byte. */
  function Marked(mark: Byte, names: seq<GoString>): Bytes {
    if names == [] then [] else [mark] + names[0] + Marked(mark, names[1..])
  }

  const SCOPE_PREFIX := Ascii("bitboxsync-active-scope-v1")

  /** What `computeHash` feeds to SHA-256 after its fixed prefix, for the sorted names and item IDs. */
  function ScopeText(collections: seq<GoString>, items: seq<GoString>): Bytes {
    Marked(0, collections) + Marked(1, items)
  }

  /** `computeHash` up to the digest; there is none without a collection. */
  method HashInput(collections: set<GoString>, items: set<GoString>)
    returns (r: Option<Bytes>, ghost cs: seq<GoString>, ghost ks: seq<GoString>)
    ensures r.None? <==> collections == {}
    ensures r.Some? ==> Ascending(cs) && Elements(cs) == collections && Ascending(ks) && Elements(ks) == items
    ensures r.Some? ==> r.value == Ascii("bitboxsync-active-scope-v1") + ScopeText(cs, ks)
  {
    cs, ks := [], [];
    if collections == {} {
      return None, cs, ks;
    }
    var text := SCOPE_PREFIX;
    var sorted := SortedSet(collections);
    cs := sorted;
    var i := 0;
    while i < |sorted|
      invariant 0 <= i <= |sorted| && text == SCOPE_PREFIX + Marked(0, sorted[..i])
    {
      MarkedAppend(0, sorted[..i], sorted[i]);
      assert sorted[..i + 1] == sorted[..i] + [sorted[i]];
      text := text + [0] + sorted[i];
      i := i + 1;
    }
    assert sorted[..i] == cs;
    ghost var before := text;
    sorted := SortedSet(items);
    ks := sorted;
    i := 0;
    while i < |sorted|
      invariant 0 <= i <= |sorted| && text == before + Marked(1, sorted[..i])
    {
      MarkedAppend(1, sorted[..i], sorted[i]);
      assert sorted[..i + 1] == sorted[..i] + [sorted[i]];
      text := text + [1] + sorted[i];
      i := i + 1;
    }
    assert sorted[..i] == ks;
    r := Some(text);
  }

  method SortedSet(s: set<GoString>) returns (r: seq<GoString>)
    ensures Ascending(r) && Elements(r) == s
  {
    var unsorted, todo := [], s;
    while todo != {}
      invariant todo <= s && Elements(unsorted) == s - todo
    {
      var x :| x in todo;
      todo := todo - {x};
      ElementsOfConcat(unsorted, [x]);
      unsorted := unsorted + [x];
    }
    r := UniqueSortedStrings(unsorted);
  }

  lemma {:induction false} MarkedAppend(mark: Byte, names: seq<GoString>, x: GoString)
    ensures Marked(mark, names + [x]) == Marked(mark, names) + [mark] + x
  {
    if names == [] {
      assert ([x])[1..] == [];
      assert [] + [x] == [x];
    } else {
      MarkedAppend(mark, names[1..], x);
      assert (names + [x])[1..] == names[1..] + [x];
    }
  }

  /** Each further collection adds the byte 0 and its name, each further item the byte 1 and its ID. */
  lemma ScopeTextLayout(cs: seq<GoString>, ks: seq<GoString>, x: GoString)
    ensures ScopeText([], []) == []
    ensures ScopeText(cs + [x], []) == ScopeText(cs, []) + [0] + x
    ensures ScopeText(cs, ks + [x]) == ScopeText(cs, ks) + [1] + x
  {
    MarkedAppend(0, cs, x);
    MarkedAppend(1, ks, x);
  }

  /** All names are made of bytes that `alphabet` allows. */
  predicate Over(alphabet: set<Byte>, names: seq<GoString>) {
    forall i, j :: 0 <= i < |names| && 0 <= j < |names[i]| ==> names[i][j] in alphabet
  }

  predicate NameOver(alphabet: set<Byte>, name: GoString) {
    forall j :: 0 <= j < |name| ==> name[j] in alphabet
  }

  /** A lowercase hexadecimal digit. */
  predicate IsHex(b: Byte) {
    48 <= b <= 57 || 97 <= b <= 102
  }

  /** An item ID: the hexadecimal form of 32 bytes. */
  predicate IsItemID(id: GoString) {
    |id| == 64 && forall j :: 0 <= j < |id| ==> IsHex(id[j])
  }

  predicate ItemIDs(ids: seq<GoString>) {
    forall i :: 0 <= i < |ids| ==> IsItemID(ids[i])
  }

  predicate HasHex(alphabet: set<Byte>) {
    exists b: Byte :: b in alphabet && IsHex(b)
  }

  /** The bytes that keep collection names apart from the marks and from item IDs. */
  predicate Separable(alphabet: set<Byte>) {
    0 !in alphabet && (1 !in alphabet || !HasHex(alphabet))
  }

  /** A rest that is empty, or begins with a collection mark or with an item mark and an item ID. */
  predicate AtMark(b: Bytes) {
    b == [] || b[0] == 0 || (b[0] == 1 && |b| > 1 && IsHex(b[1]))
  }

  /** Where the first such rest begins. */
  function FirstMark(b: Bytes): nat {
    if AtMark(b) then 0 else 1 + FirstMark(b[1..])
  }

  lemma {:induction false} FirstMarkAfterName(alphabet: set<Byte>, x: Bytes, r: Bytes)
    requires Separable(alphabet) && NameOver(alphabet, x) && AtMark(r)
    ensures FirstMark(x + r) == |x|
  {
    if x == [] {
      assert x + r == r;
    } else {
      assert x[0] in alphabet && (|x| > 1 ==> x[1] in alphabet);
      FirstMarkAfterName(alphabet, x[1..], r);
      assert (x + r)[1..] == x[1..] + r;
      assert !AtMark(x + r);
    }
  }

  /** A name ends exactly where the next mark begins. */
  lemma NameEndsAtMark(alphabet: set<Byte>, x: Bytes, r: Bytes, y: Bytes, s: Bytes)
    requires x + r == y + s && AtMark(r) && AtMark(s)
    requires Separable(alphabet) && NameOver(alphabet, x) && NameOver(alphabet, y)
    ensures x == y && r == s
  {
    FirstMarkAfterName(alphabet, x, r);
    FirstMarkAfterName(alphabet, y, s);
    SplitAt(x, r, y, s);
  }

  /** Equal texts begin with the same collection. */
  lemma FirstCollectionsAgree(alphabet: set<Byte>, c1: seq<GoString>, k1: seq<GoString>, c2: seq<GoString>,
          k2: seq<GoString>)
    requires Separable(alphabet) && Over(alphabet, c1) && Over(alphabet, c2) && ItemIDs(k1) && ItemIDs(k2)
    requires ScopeText(c1, k1) == ScopeText(c2, k2) && c1 != []
    ensures c2 != [] && c1[0] == c2[0] && ScopeText(c1[1..], k1) == ScopeText(c2[1..], k2)
  {
    TextHead(c1, k1);
    TextHead(c2, k2);
    CollectionFirst(c1, k1);
    CollectionFirst(c2, k2);
    assert NameOver(alphabet, c1[0]) && NameOver(alphabet, c2[0]);
    TextHead(c1[1..], k1);
    TextHead(c2[1..], k2);
    NameEndsAtMark(alphabet, c1[0], ScopeText(c1[1..], k1), c2[0], ScopeText(c2[1..], k2));
  }

  /** Without collections they begin with the same item. */
  lemma FirstItemsAgree(k1: seq<GoString>, c2: seq<GoString>, k2: seq<GoString>)
    requires ItemIDs(k1) && ItemIDs(k2) && ScopeText([], k1) == ScopeText(c2, k2)
    ensures c2 == [] && (k1 == [] <==> k2 == [])
    ensures k1 != [] ==> k1[0] == k2[0] && ScopeText([], k1[1..]) == ScopeText([], k2[1..])
  {
    TextHead([], k1);
    TextHead(c2, k2);
    if k1 != [] {
      ItemFirst(k1);
      ItemFirst(k2);
      SplitAt(k1[0], ScopeText([], k1[1..]), k2[0], ScopeText([], k2[1..]));
    }
  }

  lemma {:induction false} TextDeterminesLists(alphabet: set<Byte>, c1: seq<GoString>, k1: seq<GoString>,
          c2: seq<GoString>, k2: seq<GoString>)
    requires Separable(alphabet) && Over(alphabet, c1) && Over(alphabet, c2) && ItemIDs(k1) && ItemIDs(k2)
    requires ScopeText(c1, k1) == ScopeText(c2, k2)
    ensures c1 == c2 && k1 == k2
    decreases |c1| + |k1|
  {
    if c1 != [] {
      FirstCollectionsAgree(alphabet, c1, k1, c2, k2);
      TextDeterminesLists(alphabet, c1[1..], k1, c2[1..], k2);
      assert c1 == [c1[0]] + c1[1..] && c2 == [c2[0]] + c2[1..];
    } else {
      FirstItemsAgree(k1, c2, k2);
      if k1 != [] {
        TextDeterminesLists(alphabet, [], k1[1..], [], k2[1..]);
        assert k1 == [k1[0]] + k1[1..] && k2 == [k2[0]] + k2[1..];
      }
    }
  }

  lemma CollectionFirst(c: seq<GoString>, k: seq<GoString>)
    requires c != []
    ensures ScopeText(c, k)[1..] == c[0] + ScopeText(c[1..], k)
  {
    assert ScopeText(c, k) == [0] + (c[0] + ScopeText(c[1..], k));
  }

  lemma ItemFirst(k: seq<GoString>)
    requires k != []
    ensures ScopeText([], k)[1..] == k[0] + ScopeText([], k[1..])
  {
    assert ScopeText([], k) == [1] + (k[0] + ScopeText([], k[1..]));
  }

  /** The first bytes tell what the text begins with. */
  lemma TextHead(c: seq<GoString>, k: seq<GoString>)
    requires ItemIDs(k)
    ensures var t := ScopeText(c, k);
      if c != [] then t != [] && t[0] == 0
      else if k != [] then |t| > 1 && t[0] == 1 && IsHex(t[1]) else t == []
    ensures AtMark(ScopeText(c, k))
  {
    if c == [] && k != [] {
      assert IsItemID(k[0]);
    }
  }

  /** Two different scopes, with collection names over this alphabet and items named by item IDs, have the
      same digest input. There is a digest only with a collection. */
  predicate Ambiguous(alphabet: set<Byte>, c1: seq<GoString>, k1: seq<GoString>, c2: seq<GoString>, k2: seq<GoString>) {
    && c1 != [] && c2 != []
    && Ascending(c1) && Ascending(k1) && Ascending(c2) && Ascending(k2)
    && Over(alphabet, c1) && Over(alphabet, c2) && ItemIDs(k1) && ItemIDs(k2)
    && ScopeText(c1, k1) == ScopeText(c2, k2)
    && (Elements(c1) != Elements(c2) || Elements(k1) != Elements(k2))
  }

  /** The digest input determines collections and items exactly when collection names cannot contain the byte
      0, nor the byte 1 together with a hexadecimal digit. */
  lemma ScopeTextExactly(alphabet: set<Byte>)
    ensures (forall c1, k1, c2, k2 :: !Ambiguous(alphabet, c1, k1, c2, k2)) <==>
              0 !in alphabet && (1 !in alphabet || !HasHex(alphabet))
  {
    if 0 in alphabet {
      CollisionWithZero(alphabet);
    } else if 1 in alphabet && HasHex(alphabet) {
      var digit :| digit in alphabet && IsHex(digit);
      CollisionWithOne(alphabet, digit);
    } else {
      forall c1, k1, c2, k2 ensures !Ambiguous(alphabet, c1, k1, c2, k2) {
        SeparableIsUnambiguous(alphabet, c1, k1, c2, k2);
      }
    }
  }

  lemma SeparableIsUnambiguous(alphabet: set<Byte>, c1: seq<GoString>, k1: seq<GoString>, c2: seq<GoString>,
          k2: seq<GoString>)
    requires Separable(alphabet)
    ensures !Ambiguous(alphabet, c1, k1, c2, k2)
  {
    if Ambiguous(alphabet, c1, k1, c2, k2) {
      TextDeterminesLists(alphabet, c1, k1, c2, k2);
    }
  }

  /** An item ID of one repeated digit. */
  function Repeated(digit: Byte): GoString {
    seq(64, _ => digit)
  }

  /** A collection whose name is another collection's name, the byte 1 and an item ID looks like that other
      collection with that item. */
  lemma CollisionWithOne(alphabet: set<Byte>, digit: Byte)
    requires 1 in alphabet && digit in alphabet && IsHex(digit)
    ensures Ambiguous(alphabet, [[digit, 1] + Repeated(digit)], [], [[digit]], [Repeated(digit)])
  {
    var id, name: GoString := Repeated(digit), [digit, 1] + Repeated(digit);
    MarkedOne(0, name);
    MarkedOne(0, [digit]);
    MarkedOne(1, id);
    assert ScopeText([name], []) == [0] + name && ScopeText([[digit]], [id]) == [0] + [digit] + ([1] + id);
    assert [0] + name == [0] + [digit] + ([1] + id);
    assert id in Elements([id]) && id !in Elements([]);
  }

  /** The collection named by four zero bytes looks like those named by one and by two. */
  lemma CollisionWithZero(alphabet: set<Byte>)
    requires 0 in alphabet
    ensures Ambiguous(alphabet, [[0, 0, 0, 0]], [], [[0], [0, 0]], [])
  {
    MarkedOne(0, [0, 0, 0, 0]);
    MarkedPair(0, [0], [0, 0]);
    assert [0, 0, 0, 0] in Elements([[0, 0, 0, 0]]) && [0, 0, 0, 0] !in Elements([[0], [0, 0]]);
  }

  lemma MarkedOne(mark: Byte, x: GoString)
    ensures Marked(mark, [x]) == [mark] + x
  {
    assert [x][1..] == [];
  }

  lemma MarkedPair(mark: Byte, x: GoString, y: GoString)
    ensures Marked(mark, [x, y]) == [mark] + x + [mark] + y
  {
    assert [x, y][1..] == [y];
    MarkedOne(mark, y);
  }
}

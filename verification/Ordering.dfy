/** Sorted lists of strings, as `sort.Strings`, `slices.Sorted` and `slices.Compact` produce them
    (`bitboxsync/engine_discovery.go:89-96`). */
module Ordering {
  import opened Prelude

  /** Bytewise order. */
  predicate Less(a: GoString, b: GoString) {
    b != [] && (a == [] || a[0] < b[0] || (a[0] == b[0] && Less(a[1..], b[1..])))
  }

  /** `a` comes before `b` if at the first place where they differ it has the smaller byte, or ends. */
  predicate Before(a: GoString, b: GoString, i: nat) {
    i <= |a| && i < |b| && a[..i] == b[..i] && (i == |a| || a[i] < b[i])
  }

  lemma {:induction false} LessExactly(a: GoString, b: GoString)
    ensures Less(a, b) <==> exists i: nat :: Before(a, b, i)
  {
    if b != [] && a == [] {
      assert Before(a, b, 0);
    } else if b != [] && a[0] < b[0] {
      assert Before(a, b, 0);
    } else if b != [] && a[0] == b[0] {
      LessExactly(a[1..], b[1..]);
      if i: nat :| Before(a[1..], b[1..], i) {
        assert a[..i + 1] == [a[0]] + a[1..][..i] && b[..i + 1] == [b[0]] + b[1..][..i];
        assert Before(a, b, i + 1);
      }
      if i: nat :| Before(a, b, i) {
        assert i > 0;
        assert a[1..][..i - 1] == a[..i][1..] && b[1..][..i - 1] == b[..i][1..];
        assert Before(a[1..], b[1..], i - 1);
      }
    } else {
      forall i: nat ensures !Before(a, b, i) {
        if 0 < i <= |a| && i < |b| {
          assert a[..i][0] == a[0] && b[..i][0] == b[0];
        }
      }
    }
  }

  lemma {:induction false} LessTotal(a: GoString, b: GoString)
    ensures a == b || Less(a, b) || Less(b, a)
  {
    if a != [] && b != [] && a[0] == b[0] {
      LessTotal(a[1..], b[1..]);
      assert a == [a[0]] + a[1..] && b == [b[0]] + b[1..];
    }
  }

  lemma {:induction false} LessTransitive(a: GoString, b: GoString, c: GoString)
    requires Less(a, b) && Less(b, c)
    ensures Less(a, c)
  {
    if a != [] && a[0] == b[0] == c[0] {
      LessTransitive(a[1..], b[1..], c[1..]);
    }
  }

  lemma {:induction false} LessIrreflexive(a: GoString)
    ensures !Less(a, a)
  {
    if a != [] {
      LessIrreflexive(a[1..]);
    }
  }

  predicate AtMost(a: GoString, b: GoString) {
    a == b || Less(a, b)
  }

  /** Non-decreasing. */
  predicate Ordered(s: seq<GoString>) {
    forall i, j :: 0 <= i < j < |s| ==> AtMost(s[i], s[j])
  }

  /** Strictly increasing: sorted and without repetition. */
  predicate Ascending(s: seq<GoString>) {
    forall i, j :: 0 <= i < j < |s| ==> Less(s[i], s[j])
  }

  function Elements(s: seq<GoString>): set<GoString> {
    set x | x in s
  }

  /** A set has only one strictly increasing list. */
  lemma {:induction false} AscendingIsUnique(a: seq<GoString>, b: seq<GoString>)
    requires Ascending(a) && Ascending(b) && Elements(a) == Elements(b)
    ensures a == b
  {
    NoElements(a);
    NoElements(b);
    if a != [] {
      FirstIsLeast(a, b);
      FirstIsLeast(b, a);
      AtMostAntisymmetric(a[0], b[0]);
      TailElements(a);
      TailElements(b);
      AscendingIsUnique(a[1..], b[1..]);
    }
  }

  lemma NoElements(s: seq<GoString>)
    ensures Elements(s) == {} <==> s == []
  {
    if s != [] {
      assert s[0] in Elements(s);
    }
  }

  lemma ElementsOfConcat(a: seq<GoString>, b: seq<GoString>)
    ensures Elements(a + b) == Elements(a) + Elements(b)
  {
  }

  lemma AtMostAntisymmetric(a: GoString, b: GoString)
    requires AtMost(a, b) && AtMost(b, a)
    ensures a == b
  {
    if a != b {
      LessTransitive(a, b, a);
      LessIrreflexive(a);
    }
  }

  lemma FirstIsLeast(a: seq<GoString>, b: seq<GoString>)
    requires Ascending(a) && a != [] && b != [] && Elements(a) == Elements(b)
    ensures AtMost(a[0], b[0])
  {
    assert b[0] in Elements(a);
    var i :| 0 <= i < |a| && a[i] == b[0];
  }

  lemma TailElements(a: seq<GoString>)
    requires a != [] && Ascending(a)
    ensures Elements(a[1..]) == Elements(a) - {a[0]} && Ascending(a[1..])
  {
    LessIrreflexive(a[0]);
    forall x | x in Elements(a) && x != a[0] ensures x in a[1..] {
      var i :| 0 <= i < |a| && a[i] == x;
      assert a[1..][i - 1] == x;
    }
    forall x | x in a[1..] ensures x != a[0] {
      var i :| 0 <= i < |a[1..]| && a[1..][i] == x;
      assert Less(a[0], a[i + 1]);
    }
  }

  // ---- sorting ---------------------------------------------------------------------------------

  /** `sort.Strings`. */
  method SortStrings(values: seq<GoString>) returns (s: seq<GoString>)
    ensures Ordered(s) && multiset(s) == multiset(values)
  {
    s := [];
    var i := 0;
    while i < |values|
      invariant 0 <= i <= |values| && Ordered(s) && multiset(s) == multiset(values[..i])
    {
      assert values[..i + 1] == values[..i] + [values[i]];
      s := InsertOrdered(s, values[i]);
      i := i + 1;
    }
    assert values[..i] == values;
  }

  method InsertOrdered(s: seq<GoString>, x: GoString) returns (r: seq<GoString>)
    requires Ordered(s)
    ensures Ordered(r) && multiset(r) == multiset(s) + multiset{x}
  {
    var n := |s|;
    while n > 0 && Less(x, s[n - 1])
      invariant 0 <= n <= |s| && forall j :: n <= j < |s| ==> Less(x, s[j])
    {
      n := n - 1;
    }
    r := s[..n] + [x] + s[n..];
    assert s == s[..n] + s[n..];
    forall j | 0 <= j < n ensures AtMost(s[j], x) {
      LessTotal(s[n - 1], x);
      if s[j] != s[n - 1] && s[n - 1] != x { LessTransitive(s[j], s[n - 1], x); }
    }
  }

  /** `uniqueSortedStrings`: sort, then drop repetitions (`slices.Compact`). */
  method UniqueSortedStrings(values: seq<GoString>) returns (r: seq<GoString>)
    ensures Ascending(r) && Elements(r) == Elements(values)
  {
    var s := SortStrings(values);
    r := [];
    var i := 0;
    while i < |s|
      invariant 0 <= i <= |s| && Ascending(r) && Elements(r) == Elements(s[..i])
      invariant if i == 0 then r == [] else r != [] && r[|r| - 1] == s[i - 1]
    {
      assert s[..i + 1] == s[..i] + [s[i]];
      ElementsOfConcat(s[..i], [s[i]]);
      if i == 0 || s[i] != s[i - 1] {
        if i > 0 {
          assert AtMost(s[i - 1], s[i]);
          LastIsGreatest(r, s[i]);
        }
        ElementsOfConcat(r, [s[i]]);
        r := r + [s[i]];
      } else {
        assert s[..i][i - 1] == s[i];
      }
      i := i + 1;
    }
    assert s[..i] == s;
    forall x ensures x in Elements(s) <==> x in Elements(values) {
      assert x in multiset(s) <==> x in multiset(values);
    }
  }

  lemma LastIsGreatest(r: seq<GoString>, x: GoString)
    requires Ascending(r) && r != [] && Less(r[|r| - 1], x)
    ensures Ascending(r + [x])
  {
    forall j | 0 <= j < |r| ensures Less(r[j], x) {
      if j < |r| - 1 { LessTransitive(r[j], r[|r| - 1], x); }
    }
  }
}

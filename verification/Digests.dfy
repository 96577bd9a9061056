/** The scope digest of the protocol model is ideal; this is what the digest of the source needs to be as good
    (`bitboxsync/engine_discovery.go:34-51`). */
module Digests {
  import opened Prelude
  import opened Ordering
  import opened Encodings
  import opened Network
  import opened Guarantees

  /** The bytes of a collection name, the item ID of a logical key, and SHA-256. */
  datatype Naming = Naming(bytes: string -> GoString, itemID: Key -> GoString, sha: Bytes -> Bytes)

  function NamesOf(n: Naming, collections: set<string>): set<GoString> {
    set x | x in collections :: n.bytes(x)
  }

  function IDsOf(n: Naming, items: set<Key>): set<GoString> {
    set k | k in items :: n.itemID(k)
  }

  /** `text` is hashed for the scope: its names and item IDs in ascending order. */
  ghost predicate IsText(n: Naming, h: ScopeHash, text: Bytes) {
    h.Hashed? && exists cs, ks :: IsSortedText(n, h, text, cs, ks)
  }

  predicate IsSortedText(n: Naming, h: ScopeHash, text: Bytes, cs: seq<GoString>, ks: seq<GoString>)
    requires h.Hashed?
  {
    && Ascending(cs) && Elements(cs) == NamesOf(n, h.collections)
    && Ascending(ks) && Elements(ks) == IDsOf(n, h.items)
    && text == SCOPE_PREFIX + ScopeText(cs, ks)
  }

  /** The digest the source saves for the scope: none without a collection. */
  ghost predicate IsDigest(n: Naming, h: ScopeHash, digest: Option<Bytes>) {
    match digest
    case None => h.NoScope?
    case Some(d) => exists text :: IsText(n, h, text) && d == n.sha(text)
  }

  /** `computeHash`. */
  method ComputeHash(n: Naming, s: Scope) returns (digest: Option<Bytes>)
    ensures IsDigest(n, HashOf(s), digest)
  {
    var text, cs, ks := HashInput(NamesOf(n, s.collections), IDsOf(n, s.items));
    if x :| x in s.collections {
      assert n.bytes(x) in NamesOf(n, s.collections);
      assert IsSortedText(n, HashOf(s), text.value, cs, ks);
      digest := Some(n.sha(text.value));
    } else {
      digest := None;
    }
  }

  /** Nothing collides between the two scopes: not the bytes of names, not item IDs, not SHA-256 on the two
      inputs. Item IDs are item IDs, and names are made of separable bytes. */
  ghost predicate Collisionless(n: Naming, alphabet: set<Byte>, h1: ScopeHash, h2: ScopeHash) {
    && Separable(alphabet) && Named(n, alphabet, h1) && Named(n, alphabet, h2)
    && (forall x, y :: n.bytes(x) == n.bytes(y) ==> x == y)
    && (h1.Hashed? && h2.Hashed? ==>
      forall j, k :: j in h1.items + h2.items && k in h1.items + h2.items && n.itemID(j) == n.itemID(k) ==> j == k)
    && (forall t1, t2 :: IsText(n, h1, t1) && IsText(n, h2, t2) && n.sha(t1) == n.sha(t2) ==> t1 == t2)
  }

  predicate Named(n: Naming, alphabet: set<Byte>, h: ScopeHash) {
    h.Hashed? ==>
      && (forall x :: x in h.collections ==> NameOver(alphabet, n.bytes(x)))
      && (forall k :: k in h.items ==> IsItemID(n.itemID(k)))
  }

  /** Then the digest determines the scope. */
  lemma DigestDeterminesScope(n: Naming, alphabet: set<Byte>, h1: ScopeHash, h2: ScopeHash, digest: Option<Bytes>)
    requires Collisionless(n, alphabet, h1, h2) && IsDigest(n, h1, digest) && IsDigest(n, h2, digest)
    ensures h1 == h2
  {
    if digest.Some? {
      var t1 :| IsText(n, h1, t1) && digest.value == n.sha(t1);
      var t2 :| IsText(n, h2, t2) && digest.value == n.sha(t2);
      var c1, k1 :| IsSortedText(n, h1, t1, c1, k1);
      var c2, k2 :| IsSortedText(n, h2, t2, c2, k2);
      SplitAt(SCOPE_PREFIX, ScopeText(c1, k1), SCOPE_PREFIX, ScopeText(c2, k2));
      ListsAreNamed(n, alphabet, h1, t1, c1, k1);
      ListsAreNamed(n, alphabet, h2, t2, c2, k2);
      TextDeterminesLists(alphabet, c1, k1, c2, k2);
      assert h1.collections == h2.collections by {
        forall x ensures x in h1.collections <==> x in h2.collections {
          assert x in h1.collections ==> n.bytes(x) in NamesOf(n, h1.collections);
          assert x in h2.collections ==> n.bytes(x) in NamesOf(n, h2.collections);
        }
      }
      assert h1.items == h2.items by {
        forall k ensures k in h1.items <==> k in h2.items {
          assert k in h1.items ==> n.itemID(k) in IDsOf(n, h1.items);
          assert k in h2.items ==> n.itemID(k) in IDsOf(n, h2.items);
        }
      }
    }
  }

  lemma ListsAreNamed(n: Naming, alphabet: set<Byte>, h: ScopeHash, text: Bytes, cs: seq<GoString>, ks: seq<GoString>)
    requires h.Hashed? && Named(n, alphabet, h) && IsSortedText(n, h, text, cs, ks)
    ensures Over(alphabet, cs) && ItemIDs(ks)
  {
    forall i | 0 <= i < |cs| ensures NameOver(alphabet, cs[i]) {
      assert cs[i] in Elements(cs);
    }
    forall i | 0 <= i < |ks| ensures IsItemID(ks[i]) {
      assert ks[i] in Elements(ks);
    }
  }

  /** Not reading the item map is sound with the digests of the source: equal head and equal digest leave every
      active item at the server's version, or queued. */
  lemma SkippingByDigestIsSound(g: Global, c: ClientId, s: Scope, k: Key, n: Naming, alphabet: set<Byte>,
          digest: Option<Bytes>)
    requires Reachable(g) && c in g.clients && Active(s, k) && g.clients[c].checkpoint.head == g.head
    requires IsDigest(n, g.clients[c].checkpoint.scope, digest) && IsDigest(n, HashOf(s), digest)
    requires Collisionless(n, alphabet, g.clients[c].checkpoint.scope, HashOf(s))
    ensures var m := RecordOf(g, c, k);
            m.version == |HistOf(g, k)| || (m.dirty && !m.conflict && m.version < |HistOf(g, k)|)
  {
    DigestDeterminesScope(n, alphabet, g.clients[c].checkpoint.scope, HashOf(s), digest);
    SkippingIsSound(g, c, s, k);
  }
}

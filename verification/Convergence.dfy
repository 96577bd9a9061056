/** What undisturbed passes achieve for a whole namespace: two sequential rounds of `SyncNow` bring all
    clients and the server together, interrupted passes are absorbed, and quiet passes do nothing
    (`bitboxsync/engine_run.go:150-177`). */
module Convergence {
  import opened Prelude
  import opened ItemState
  import opened ItemLog
  import opened Network
  import opened PassSpec
  import opened PassResults
  import opened Guarantees

  // ---- sequences of passes ---------------------------------------------------------------------

  /** From `g` to `h` client `c` ran one undisturbed pass over scope `s`. */
  ghost predicate CalmPass(g: Global, h: Global, c: ClientId, s: Scope, merge: MergeFn) {
    c in g.clients && Reaches(g, h) && PassEffect(g, h, c, s, merge)
  }

  ghost predicate PassAt(gs: seq<Global>, order: seq<ClientId>, s: Scope, merges: ClientId -> MergeFn, i: nat)
    requires i < |order| && |gs| == |order| + 1
  {
    CalmPass(gs[i], gs[i + 1], order[i], s, merges(order[i]))
  }

  /** The clients pass one after the other in this order, all with the same scope. */
  ghost predicate Passes(gs: seq<Global>, order: seq<ClientId>, s: Scope, merges: ClientId -> MergeFn) {
    |gs| == |order| + 1 && forall i :: 0 <= i < |order| ==> PassAt(gs, order, s, merges, i)
  }

  /** Every client takes part. */
  predicate Round(g: Global, order: seq<ClientId>) {
    forall c :: c in g.clients ==> c in order
  }

  lemma ReachesOn(g: Global, h: Global)
    requires Reachable(g) && Reaches(g, h)
    ensures Reachable(h)
  {
    var g0 :| Init(g0) && Reaches(g0, g);
    var gs, acts :| Run(gs, acts) && gs[0] == g0 && gs[|acts|] == g;
    var hs, more :| Run(hs, more) && hs[0] == g && hs[|more|] == h;
    ChainsCompose(gs, acts, hs, more);
    var all, steps := gs + hs[1..], acts + more;
    assert Run(all, steps) && all[0] == g0 && all[|steps|] == h;
    assert Reaches(g0, h);
  }

  lemma {:induction false} PassesReach(gs: seq<Global>, order: seq<ClientId>, s: Scope,
          merges: ClientId -> MergeFn, i: nat)
    requires Passes(gs, order, s, merges) && Reachable(gs[0]) && i <= |order|
    ensures Reachable(gs[i]) && gs[i].clients.Keys == gs[0].clients.Keys
  {
    if i > 0 {
      PassesReach(gs, order, s, merges, i - 1);
      assert PassAt(gs, order, s, merges, i - 1);
      ReachesOn(gs[i - 1], gs[i]);
    }
  }

  // ---- one pass, all items ---------------------------------------------------------------------

  /** The read of the item map is skipped only over items that need no look at it. */
  lemma FetchedOrCurrent(g: Global, c: ClientId, s: Scope, k: Key)
    requires Reachable(g) && c in g.clients && Active(s, k)
    ensures ViewInv(ViewOf(g, c, k)) && (Fetches(g, c, s) || Current(ViewOf(g, c, k)))
  {
    ReachableInv(g);
    NoFalseRollback(g, c, k);
    if !Fetches(g, c, s) {
      SkippingIsSound(g, c, s, k);
    }
  }

  /** What one pass means for client `d`'s view: its own pass, or at most new server versions. */
  lemma PassSeenBy(g: Global, h: Global, c: ClientId, s: Scope, merge: MergeFn, d: ClientId, k: Key)
    requires CalmPass(g, h, c, s, merge) && d in g.clients && Active(s, k)
    ensures HistOf(h, k) == PassItem(ViewOf(g, c, k), k, merge, Fetches(g, c, s)).hist
    ensures ViewOf(h, d, k) ==
        if d == c then PassItem(ViewOf(g, c, k), k, merge, Fetches(g, c, s)) else ViewOf(g, d, k).(hist := HistOf(h, k))
  {
    assert ViewOf(h, c, k) == PassItem(ViewOf(g, c, k), k, merge, Fetches(g, c, s));
  }

  ghost predicate AllTame(g: Global, s: Scope, enc: Domain) {
    forall c, k :: c in g.clients && Active(s, k) ==> Tame(ViewOf(g, c, k), k, enc)
  }

  ghost predicate AtRestBy(g: Global, s: Scope, cs: set<ClientId>) {
    forall c, k :: c in g.clients && c in cs && Active(s, k) ==> AtRest(ViewOf(g, c, k))
  }

  ghost predicate SyncedBy(g: Global, s: Scope, cs: set<ClientId>) {
    forall c, k :: c in g.clients && c in cs && Active(s, k) ==> Synced(ViewOf(g, c, k))
  }

  /** The server's history of every active item, and every client's count of PUTs for it. */
  ghost predicate SameUploads(g: Global, h: Global, s: Scope) {
    forall c, k :: c in g.clients && Active(s, k) ==>
      HistOf(h, k) == HistOf(g, k) && PutsOf(SlotOf(h, c, k).log) == PutsOf(SlotOf(g, c, k).log)
  }

  lemma FirstRoundStep(g: Global, h: Global, c: ClientId, s: Scope, merge: MergeFn, enc: Domain, cs: set<ClientId>)
    requires Reachable(g) && CalmPass(g, h, c, s, merge) && Resolving(merge, enc) && AllTame(g, s, enc)
        && AtRestBy(g, s, cs)
    ensures AllTame(h, s, enc) && AtRestBy(h, s, cs + {c})
  {
    forall d, k | d in h.clients && Active(s, k)
      ensures Tame(ViewOf(h, d, k), k, enc) && (d in cs + {c} ==> AtRest(ViewOf(h, d, k)))
    {
      FetchedOrCurrent(g, c, s, k);
      PassSeenBy(g, h, c, s, merge, d, k);
      assert Tame(ViewOf(g, c, k), k, enc) && Tame(ViewOf(g, d, k), k, enc);
      PassSyncs(ViewOf(g, c, k), k, merge, enc, Fetches(g, c, s));
    }
  }

  lemma SecondRoundStep(g: Global, h: Global, c: ClientId, s: Scope, merge: MergeFn, enc: Domain, cs: set<ClientId>)
    requires Reachable(g) && CalmPass(g, h, c, s, merge) && Resolving(merge, enc)
    requires AllTame(g, s, enc) && AtRestBy(g, s, g.clients.Keys) && SyncedBy(g, s, cs)
    ensures SyncedBy(h, s, cs + {c}) && SameUploads(g, h, s)
  {
    forall d, k | d in g.clients && Active(s, k)
      ensures d in cs + {c} ==> Synced(ViewOf(h, d, k))
      ensures HistOf(h, k) == HistOf(g, k) && PutsOf(SlotOf(h, d, k).log) == PutsOf(SlotOf(g, d, k).log)
    {
      FetchedOrCurrent(g, c, s, k);
      PassSeenBy(g, h, c, s, merge, d, k);
      assert Tame(ViewOf(g, c, k), k, enc) && AtRest(ViewOf(g, c, k));
      PassSyncs(ViewOf(g, c, k), k, merge, enc, Fetches(g, c, s));
      RestIsNotUploaded(ViewOf(g, c, k), k, merge, Fetches(g, c, s));
    }
  }

  // ---- convergence -----------------------------------------------------------------------------

  function SetOf(order: seq<ClientId>): set<ClientId> {
    set c | c in order
  }

  lemma SetOfNext(order: seq<ClientId>, n: nat, i: nat)
    requires n < i <= |order|
    ensures SetOf(order[n..i]) == SetOf(order[n..i - 1]) + {order[i - 1]}
  {
    assert order[n..i] == order[n..i - 1] + [order[i - 1]];
  }

  lemma {:induction false} FirstRound(gs: seq<Global>, order: seq<ClientId>, s: Scope,
          merges: ClientId -> MergeFn, enc: Domain, i: nat)
    requires Passes(gs, order, s, merges) && Reachable(gs[0]) && AllTame(gs[0], s, enc) && i <= |order|
    requires forall c :: Resolving(merges(c), enc)
    ensures AllTame(gs[i], s, enc) && AtRestBy(gs[i], s, SetOf(order[0..i]))
  {
    if i > 0 {
      FirstRound(gs, order, s, merges, enc, i - 1);
      FirstRoundNext(gs, order, s, merges, enc, i, SetOf(order[0..i - 1]));
      SetOfNext(order, 0, i);
    }
  }

  lemma FirstRoundNext(gs: seq<Global>, order: seq<ClientId>, s: Scope,
          merges: ClientId -> MergeFn, enc: Domain, i: nat, done: set<ClientId>)
    requires Passes(gs, order, s, merges) && Reachable(gs[0]) && 0 < i <= |order|
        && forall c :: Resolving(merges(c), enc)
    requires AllTame(gs[i - 1], s, enc) && AtRestBy(gs[i - 1], s, done)
    ensures AllTame(gs[i], s, enc) && AtRestBy(gs[i], s, done + {order[i - 1]})
  {
    PassesReach(gs, order, s, merges, i - 1);
    assert PassAt(gs, order, s, merges, i - 1);
    FirstRoundStep(gs[i - 1], gs[i], order[i - 1], s, merges(order[i - 1]), enc, done);
  }

  lemma RestsEverywhere(g: Global, s: Scope, order: seq<ClientId>)
    requires AtRestBy(g, s, SetOf(order)) && Round(g, order)
    ensures AtRestBy(g, s, g.clients.Keys)
  {
    assert g.clients.Keys <= SetOf(order);
  }

  /** After a whole round everybody is at rest. */
  lemma AfterFirstRound(gs: seq<Global>, order: seq<ClientId>, n: nat, s: Scope,
          merges: ClientId -> MergeFn, enc: Domain, i: nat)
    requires Passes(gs, order, s, merges) && Reachable(gs[0]) && AllTame(gs[0], s, enc) && n <= i <= |order|
    requires forall c :: Resolving(merges(c), enc)
    requires Round(gs[0], order[..n])
    ensures Reachable(gs[i]) && AllTame(gs[i], s, enc) && AtRestBy(gs[i], s, gs[i].clients.Keys)
  {
    FirstRound(gs, order, s, merges, enc, i);
    PassesReach(gs, order, s, merges, i);
    assert order[0..i] == order[..n] + order[n..i];
    RestsEverywhere(gs[i], s, order[0..i]);
  }

  lemma SameUploadsTransitive(g: Global, h: Global, h': Global, s: Scope)
    requires SameUploads(g, h, s) && SameUploads(h, h', s) && h.clients.Keys == g.clients.Keys
    ensures SameUploads(g, h', s)
  {
    forall c, k | c in g.clients && Active(s, k)
      ensures HistOf(h', k) == HistOf(g, k)
          && PutsOf(SlotOf(h', c, k).log) == PutsOf(SlotOf(g, c, k).log)
    {
      assert HistOf(h, k) == HistOf(g, k) && HistOf(h', k) == HistOf(h, k);
    }
  }

  /** In the second round everybody who passes is synced from then on. */
  lemma {:induction false} SecondRound(gs: seq<Global>, order: seq<ClientId>, n: nat, s: Scope,
          merges: ClientId -> MergeFn, enc: Domain, i: nat)
    requires Passes(gs, order, s, merges) && Reachable(gs[0]) && AllTame(gs[0], s, enc) && n <= i <= |order|
    requires forall c :: Resolving(merges(c), enc)
    requires Round(gs[0], order[..n])
    ensures SyncedBy(gs[i], s, SetOf(order[n..i]))
  {
    if i > n {
      SecondRound(gs, order, n, s, merges, enc, i - 1);
      AfterFirstRound(gs, order, n, s, merges, enc, i - 1);
      SecondRoundNext(gs, order, s, merges, enc, i, SetOf(order[n..i - 1]));
      SetOfNext(order, n, i);
    }
  }

  lemma SecondRoundNext(gs: seq<Global>, order: seq<ClientId>, s: Scope,
          merges: ClientId -> MergeFn, enc: Domain, i: nat, done: set<ClientId>)
    requires Passes(gs, order, s, merges) && 0 < i <= |order| && forall c :: Resolving(merges(c), enc)
    requires Reachable(gs[i - 1]) && AllTame(gs[i - 1], s, enc) && AtRestBy(gs[i - 1], s, gs[i - 1].clients.Keys)
        && SyncedBy(gs[i - 1], s, done)
    ensures SyncedBy(gs[i], s, done + {order[i - 1]}) && SameUploads(gs[i - 1], gs[i], s)
  {
    assert PassAt(gs, order, s, merges, i - 1);
    SecondRoundStep(gs[i - 1], gs[i], order[i - 1], s, merges(order[i - 1]), enc, done);
  }

  /** ... and nothing is uploaded any more. */
  lemma {:induction false} SecondRoundUploads(gs: seq<Global>, order: seq<ClientId>, n: nat, s: Scope,
          merges: ClientId -> MergeFn, enc: Domain, i: nat)
    requires Passes(gs, order, s, merges) && Reachable(gs[0]) && AllTame(gs[0], s, enc) && n <= i <= |order|
    requires forall c :: Resolving(merges(c), enc)
    requires Round(gs[0], order[..n])
    ensures SameUploads(gs[n], gs[i], s)
  {
    if i > n {
      SecondRoundUploads(gs, order, n, s, merges, enc, i - 1);
      assert SameUploads(gs[i - 1], gs[i], s) by {
        AfterFirstRound(gs, order, n, s, merges, enc, i - 1);
        SecondRoundNext(gs, order, s, merges, enc, i, {});
      }
      PassesReach(gs, order, s, merges, i - 1);
      PassesReach(gs, order, s, merges, n);
      SameUploadsTransitive(gs[n], gs[i - 1], gs[i], s);
    }
  }

  /** Two rounds of undisturbed passes, in any order and with any always-resolving merges, leave every
      backend, every base and the server equal on every active item, and the second round uploads
      nothing; `n` is where it starts. */
  lemma TwoRoundsConverge(gs: seq<Global>, order: seq<ClientId>, n: nat, s: Scope,
          merges: ClientId -> MergeFn, enc: Domain)
    requires Passes(gs, order, s, merges) && Reachable(gs[0]) && AllTame(gs[0], s, enc) && n <= |order|
    requires forall c :: Resolving(merges(c), enc)
    requires Round(gs[0], order[..n]) && Round(gs[0], order[n..])
    ensures forall c, k :: c in gs[0].clients && Active(s, k) ==> Synced(ViewOf(gs[|order|], c, k))
    ensures forall i :: n <= i <= |order| ==> SameUploads(gs[n], gs[i], s)
  {
    SecondRound(gs, order, n, s, merges, enc, |order|);
    PassesReach(gs, order, s, merges, |order|);
    assert order[n..|order|] == order[n..];
    forall i | n <= i <= |order| ensures SameUploads(gs[n], gs[i], s) {
      SecondRoundUploads(gs, order, n, s, merges, enc, i);
    }
  }

  // ---- exactly when ----------------------------------------------------------------------------

  /** Every backend value of an active item can be uploaded, and all values are encodings. */
  ghost predicate AllUsable(g: Global, s: Scope, enc: Domain) {
    forall c, k :: c in g.clients && Active(s, k) ==> Usable(ViewOf(g, c, k), k, enc)
  }

  ghost predicate NoConflicts(g: Global, s: Scope) {
    forall c, k :: c in g.clients && Active(s, k) ==> !RecordOf(g, c, k).conflict
  }

  lemma {:induction false} ConflictOutlastsPasses(gs: seq<Global>, order: seq<ClientId>, s: Scope,
          merges: ClientId -> MergeFn, c: ClientId, k: Key, i: nat)
    requires Passes(gs, order, s, merges) && Reachable(gs[0]) && i <= |order|
    requires c in gs[0].clients && Active(s, k) && RecordOf(gs[0], c, k).conflict
    ensures RecordOf(gs[i], c, k).conflict
  {
    if i > 0 {
      ConflictOutlastsPasses(gs, order, s, merges, c, k, i - 1);
      PassesReach(gs, order, s, merges, i - 1);
      assert PassAt(gs, order, s, merges, i - 1);
      var g, d := gs[i - 1], order[i - 1];
      PassSeenBy(g, gs[i], d, s, merges(d), c, k);
      if c == d {
        ConflictOutlastsPass(ViewOf(g, c, k), k, merges(c), Fetches(g, c, s));
      }
    }
  }

  /** With uploadable values, two rounds converge exactly if no active item was left in conflict. */
  lemma ConvergesIffNoConflict(gs: seq<Global>, order: seq<ClientId>, n: nat, s: Scope,
          merges: ClientId -> MergeFn, enc: Domain)
    requires Passes(gs, order, s, merges) && Reachable(gs[0]) && AllUsable(gs[0], s, enc) && n <= |order|
    requires forall c :: Resolving(merges(c), enc)
    requires Round(gs[0], order[..n]) && Round(gs[0], order[n..])
    ensures NoConflicts(gs[0], s) <==> forall c, k :: c in gs[0].clients && Active(s, k) ==>
        Synced(ViewOf(gs[|order|], c, k))
  {
    if NoConflicts(gs[0], s) {
      forall c, k | c in gs[0].clients && Active(s, k) ensures Tame(ViewOf(gs[0], c, k), k, enc) {
        assert !RecordOf(gs[0], c, k).conflict && Usable(ViewOf(gs[0], c, k), k, enc);
      }
      TwoRoundsConverge(gs, order, n, s, merges, enc);
    } else {
      var c, k :| c in gs[0].clients && Active(s, k) && RecordOf(gs[0], c, k).conflict;
      ConflictOutlastsPasses(gs, order, s, merges, c, k, |order|);
      PassesReach(gs, order, s, merges, |order|);
      ReachableInv(gs[|order|]);
      assert ViewInv(ViewOf(gs[|order|], c, k));
      assert !Synced(ViewOf(gs[|order|], c, k));
    }
  }

  // ---- oversized values ------------------------------------------------------------------------

  /** All values and versions of active items are encodings. */
  ghost predicate AllEncodings(g: Global, s: Scope, enc: Domain) {
    forall c, k :: c in g.clients && Active(s, k) ==> Encoded(ViewOf(g, c, k), k, enc)
  }

  ghost predicate NoneOversized(g: Global, s: Scope) {
    forall c, k :: c in g.clients && Active(s, k) ==> !Oversized(ViewOf(g, c, k))
  }

  predicate Oversized(v: View) {
    v.value.Some? && !Fits(v.value.value)
  }

  lemma EncodingsStep(g: Global, h: Global, c: ClientId, s: Scope, merge: MergeFn, enc: Domain)
    requires Reachable(g) && CalmPass(g, h, c, s, merge) && Resolving(merge, enc) && AllEncodings(g, s, enc)
    ensures AllEncodings(h, s, enc)
    ensures Stubborn(merge, enc) ==> forall d, k :: d in g.clients && Active(s, k) && Oversized(ViewOf(g, d, k)) ==>
              Oversized(ViewOf(h, d, k))
  {
    forall d, k | d in g.clients && Active(s, k)
      ensures Encoded(ViewOf(h, d, k), k, enc)
      ensures Stubborn(merge, enc) && Oversized(ViewOf(g, d, k)) ==> Oversized(ViewOf(h, d, k))
    {
      FetchedOrCurrent(g, c, s, k);
      PassSeenBy(g, h, c, s, merge, d, k);
      assert Encoded(ViewOf(g, c, k), k, enc) && Encoded(ViewOf(g, d, k), k, enc);
      PassKeepsEncoding(ViewOf(g, c, k), k, merge, enc, Fetches(g, c, s));
    }
  }

  lemma {:induction false} OversizeOutlastsPasses(gs: seq<Global>, order: seq<ClientId>, s: Scope,
          merges: ClientId -> MergeFn, enc: Domain, c: ClientId, k: Key, i: nat)
    requires Passes(gs, order, s, merges) && Reachable(gs[0]) && AllEncodings(gs[0], s, enc) && i <= |order|
    requires forall d :: Resolving(merges(d), enc) && Stubborn(merges(d), enc)
    requires c in gs[0].clients && Active(s, k) && Oversized(ViewOf(gs[0], c, k))
    ensures AllEncodings(gs[i], s, enc) && Oversized(ViewOf(gs[i], c, k))
  {
    if i > 0 {
      OversizeOutlastsPasses(gs, order, s, merges, enc, c, k, i - 1);
      PassesReach(gs, order, s, merges, i - 1);
      assert PassAt(gs, order, s, merges, i - 1);
      var d := order[i - 1];
      assert Resolving(merges(d), enc) && Stubborn(merges(d), enc);
      EncodingsStep(gs[i - 1], gs[i], d, s, merges(d), enc);
    }
  }

  /** With merges that never shrink an oversized local value, as `PreferLocal`, two rounds converge exactly if
      no active item was in conflict and no value was too large to upload. */
  lemma ConvergesExactly(gs: seq<Global>, order: seq<ClientId>, n: nat, s: Scope, merges: ClientId -> MergeFn,
          enc: Domain)
    requires Passes(gs, order, s, merges) && Reachable(gs[0]) && AllEncodings(gs[0], s, enc) && n <= |order|
    requires forall c :: Resolving(merges(c), enc) && Stubborn(merges(c), enc)
    requires Round(gs[0], order[..n]) && Round(gs[0], order[n..])
    ensures NoConflicts(gs[0], s) && NoneOversized(gs[0], s)
            <==> forall c, k :: c in gs[0].clients && Active(s, k) ==> Synced(ViewOf(gs[|order|], c, k))
  {
    forall c ensures Resolving(merges(c), enc) {
      assert Resolving(merges(c), enc) && Stubborn(merges(c), enc);
    }
    if NoneOversized(gs[0], s) {
      forall c, k | c in gs[0].clients && Active(s, k) ensures Usable(ViewOf(gs[0], c, k), k, enc) {
        assert Encoded(ViewOf(gs[0], c, k), k, enc) && !Oversized(ViewOf(gs[0], c, k));
      }
      ConvergesIffNoConflict(gs, order, n, s, merges, enc);
    } else {
      var c, k :| c in gs[0].clients && Active(s, k) && Oversized(ViewOf(gs[0], c, k));
      OversizeOutlastsPasses(gs, order, s, merges, enc, c, k, |order|);
      OversizedIsNotSynced(gs, order, s, merges, c, k);
    }
  }

  lemma OversizedIsNotSynced(gs: seq<Global>, order: seq<ClientId>, s: Scope, merges: ClientId -> MergeFn,
          c: ClientId, k: Key)
    requires Passes(gs, order, s, merges) && Reachable(gs[0]) && c in gs[0].clients
    requires Oversized(ViewOf(gs[|order|], c, k))
    ensures !Synced(ViewOf(gs[|order|], c, k))
  {
    PassesReach(gs, order, s, merges, |order|);
    ReachableInv(gs[|order|]);
    assert ViewInv(ViewOf(gs[|order|], c, k));
  }

  /** Such states occur: an application may store what is too large. */
  lemma OversizedOccurs() returns (g: Global, c: ClientId, k: Key)
    ensures Reachable(g) && c in g.clients && Oversized(ViewOf(g, c, k)) && !RecordOf(g, c, k).conflict
    ensures |SlotOf(g, c, k).value.value| == 65_521
  {
    var big: Bytes := seq(MAX_UPLOAD + 1, _ => 0);
    c, k := 0, Key("c", "k");
    var slot := Slot(None, Some(big), [AppWrote(big)]);
    g := Global(map[], 0, map[c := Client(map[k := slot], Checkpoint(0, NoScope), map[], 0)]);
    assert Init(g);
    InitIsReachable(g);
  }

  lemma InitIsReachable(g: Global)
    requires Init(g)
    ensures Reachable(g)
  {
    assert Run([g], []);
    assert Reaches(g, g);
  }

  lemma StepIsReachable(g: Global, a: Action)
    requires Reachable(g) && Enables(g, a)
    ensures Reachable(Apply(g, a))
  {
    var gs, acts := [g, Apply(g, a)], [a];
    assert StepAt(gs, acts, 0) && EnabledAt(gs, acts, 0);
    assert Run(gs, acts) && gs[|acts|] == Apply(g, a);
    ReachesOn(g, Apply(g, a));
  }

  // ---- merges that always resolve leave no conflict ----------------------------------------------

  /** The application stores encoded values, and merges resolve to encoded values. */
  predicate Proper(a: Action, enc: Domain) {
    a.OnItem? ==>
      && (a.act.AppWrite? ==> enc(a.key, a.act.value))
      && (a.act.RunMerge? ==> a.act.outcome.Resolved? ==> enc(a.key, a.act.outcome.value))
      && (a.act.RunMerge? ==> !a.act.outcome.Unresolved?)
  }

  ghost predicate ReachableProperly(g: Global, enc: Domain) {
    exists gs, acts :: Run(gs, acts) && Init(gs[0]) && InitEncoded(gs[0], enc) && gs[|acts|] == g && forall a ::
        a in acts ==> Proper(a, enc)
  }

  ghost predicate InitEncoded(g: Global, enc: Domain) {
    forall c, k :: SlotOf(g, c, k).value.Some? ==> enc(k, SlotOf(g, c, k).value.value)
  }

  predicate ProperEntry(e: Event, k: Key, enc: Domain) {
    match e
    case AppWrote(x) => enc(k, x)
    case SyncWrote(_, x) => enc(k, x)
    case MergeRan(_, _, _, _, o) => !o.Unresolved? && (o.Resolved? ==> enc(k, o.value))
    case _ => true
  }

  ghost predicate ProperView(v: View, k: Key, enc: Domain) {
    && !Loaded(v.meta).conflict && AllEncoded(v.hist, k, enc)
    && forall e :: e in v.log ==> ProperEntry(e, k, enc)
  }

  /** A step of an item that the application and the merge take properly keeps it proper. */
  lemma ActStaysProper(v: View, a: ItemAction, k: Key, enc: Domain)
    requires ViewInv(v) && Enabled(v, a) && ProperView(v, k, enc) && Proper(OnItem(0, k, a), enc)
    ensures ProperView(Act(v, a), k, enc)
  {
    var r := Act(v, a);
    if a.WriteValue? {
      OpenedIsVersion(v, a.remoteVersion, a.remote);
      if a.value != a.remote {
        var m := MergeRan(BaseOf(Loaded(v.meta)), a.replaced.value, a.remoteVersion, a.remote, Resolved(a.value));
        assert m in v.log && ProperEntry(m, k, enc);
      }
    } else if a.Put? {
      HeldSinceWasHeld(v.log, a.value);
      HeldIsEncoded(v, k, enc, a.value);
    } else if a.Save? && a.meta.conflict {
      ConflictNeedsUnresolved(v, a.meta, k, enc);
    }
    forall e | e in r.log ensures ProperEntry(e, k, enc) {
      assert e in v.log || e == r.log[|v.log|];
    }
  }

  lemma HeldIsEncoded(v: View, k: Key, enc: Domain, x: Bytes)
    requires ProperView(v, k, enc) && Held(v.log, x)
    ensures enc(k, x)
  {
    if AppWrote(x) in v.log {
      assert ProperEntry(AppWrote(x), k, enc);
    } else {
      var p :| SyncWrote(p, x) in v.log;
      assert ProperEntry(SyncWrote(p, x), k, enc);
    }
  }

  lemma ConflictNeedsUnresolved(v: View, m: Meta, k: Key, enc: Domain)
    requires ProperView(v, k, enc) && MaySave(v, m)
    ensures !m.conflict
  {
    forall l ensures MergeRan(BaseOf(Loaded(v.meta)), l, m.version, m.conflictValue, Unresolved) !in v.log {
      assert !ProperEntry(MergeRan(BaseOf(Loaded(v.meta)), l, m.version, m.conflictValue, Unresolved), k, enc);
    }
  }

  lemma StepStaysProper(g: Global, a: Action, c: ClientId, k: Key, enc: Domain)
    requires Inv(g) && Enables(g, a) && Proper(a, enc) && c in g.clients
    requires forall d, j :: d in g.clients ==> ProperView(ViewOf(g, d, j), j, enc)
    ensures ProperView(ViewOf(Apply(g, a), c, k), k, enc)
  {
    assert ProperView(ViewOf(g, c, k), k, enc);
    if a.OnItem? {
      ItemStepFrame(g, a.client, a.key, a.act);
      if a.key == k {
        assert ProperView(ViewOf(g, a.client, k), k, enc);
        ItemStepStaysProper(g, a.client, a.act, c, k, enc);
      } else {
        assert ViewOf(Apply(g, a), c, k) == ViewOf(g, c, k);
      }
    }
  }

  lemma ItemStepStaysProper(g: Global, d: ClientId, act: ItemAction, c: ClientId, k: Key, enc: Domain)
    requires Inv(g) && Enables(g, OnItem(d, k, act)) && Proper(OnItem(d, k, act), enc) && c in g.clients
    requires ProperView(ViewOf(g, c, k), k, enc) && ProperView(ViewOf(g, d, k), k, enc)
    ensures ProperView(ViewOf(ItemStep(g, d, k, act), c, k), k, enc)
  {
    var v := ViewOf(g, d, k);
    ItemStepFrame(g, d, k, act);
    assert ViewInv(v) && Proper(OnItem(0, k, act), enc);
    ActStaysProper(v, act, k, enc);
    assert c != d ==> ViewOf(ItemStep(g, d, k, act), c, k) == ViewOf(g, c, k).(hist := Act(v, act).hist);
  }

  lemma {:induction false} RunStaysProper(gs: seq<Global>, acts: seq<Action>, n: nat, enc: Domain)
    requires Run(gs, acts) && Init(gs[0]) && InitEncoded(gs[0], enc) && n <= |acts| && forall a :: a in acts ==>
        Proper(a, enc)
    ensures forall c, k :: c in gs[n].clients ==> ProperView(ViewOf(gs[n], c, k), k, enc)
  {
    if n > 0 {
      RunStaysProper(gs, acts, n - 1, enc);
      InitHolds(gs[0]);
      RunKeepsInv(gs, acts, n - 1);
      assert StepAt(gs, acts, n - 1) && EnabledAt(gs, acts, n - 1) && acts[n - 1] in acts;
      forall c, k | c in gs[n].clients ensures ProperView(ViewOf(gs[n], c, k), k, enc) {
        StepStaysProper(gs[n - 1], acts[n - 1], c, k, enc);
      }
    }
  }

  /** From any state reached with encoded values and always-resolving merges, two rounds converge. */
  lemma Convergence(gs: seq<Global>, order: seq<ClientId>, n: nat, s: Scope, merges: ClientId -> MergeFn, enc: Domain)
    requires Passes(gs, order, s, merges) && ReachableProperly(gs[0], enc) && n <= |order|
    requires forall c, k :: c in gs[0].clients && Active(s, k) && SlotOf(gs[0], c, k).value.Some? ==>
        Fits(SlotOf(gs[0], c, k).value.value)
    requires forall c :: Resolving(merges(c), enc)
    requires Round(gs[0], order[..n]) && Round(gs[0], order[n..])
    ensures forall c, k :: c in gs[0].clients && Active(s, k) ==> Synced(ViewOf(gs[|order|], c, k))
    ensures forall i :: n <= i <= |order| ==> SameUploads(gs[n], gs[i], s)
  {
    var hs, acts :| Run(hs, acts) && Init(hs[0]) && InitEncoded(hs[0], enc) && hs[|acts|] == gs[0] && forall a ::
        a in acts ==> Proper(a, enc);
    assert Reaches(hs[0], gs[0]);
    ReachableInv(gs[0]);
    RunStaysProper(hs, acts, |acts|, enc);
    forall c, k | c in gs[0].clients && Active(s, k) ensures Tame(ViewOf(gs[0], c, k), k, enc) {
      var v := ViewOf(gs[0], c, k);
      assert ProperView(v, k, enc) && ViewInv(v);
      HeldValueWasHeld(v.log);
      if v.value.Some? {
        HeldIsEncoded(v, k, enc, v.value.value);
      }
    }
    TwoRoundsConverge(gs, order, n, s, merges, enc);
  }
}

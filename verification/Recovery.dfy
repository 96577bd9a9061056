/** What happens around an undisturbed pass: interrupted passes are absorbed, quiet passes do nothing,
    and items that leave the scope are left alone until they come back. */
module Recovery {
  import opened Prelude
  import opened ItemState
  import opened ItemLog
  import opened Network
  import opened PassSpec
  import opened PassResults
  import opened Guarantees
  import opened Convergence
  import opened World

  // ---- when the item map is read ---------------------------------------------------------------

  /** A version the checkpoint does not account for makes the next pass read the item map. */
  lemma UnaccountedForcesFetch(g: Global, c: ClientId, s: Scope, k: Key)
    requires Reachable(g) && c in g.clients && SeenOf(g, c, k) < |HistOf(g, k)|
    ensures Fetches(g, c, s)
  {
    ReachableInv(g);
    assert CheckpointInv(g, c);
    var seen := g.clients[c].seen;
    forall j ensures SeenIn(seen, j) <= SeenIn(VersionsOf(g.hist), j) {
      assert SeenIn(seen, j) <= |HistOf(g, j)|;
    }
    TotalBelow(seen, VersionsOf(g.hist));
    assert SeenIn(seen, k) != SeenIn(VersionsOf(g.hist), k);
  }

  /** An item that was not in scope when the checkpoint was saved makes the next pass read the item
      map, and that pass brings the item in step with the server. */
  lemma ReturnToScope(g: Global, h: Global, c: ClientId, s: Scope, k: Key, merge: MergeFn, enc: Domain)
    requires Reachable(g) && CalmPass(g, h, c, s, merge) && Active(s, k) && !Covers(g.clients[c].checkpoint.scope, k)
    ensures Fetches(g, c, s) && h.clients[c].mapReads == g.clients[c].mapReads + 1
    ensures Tame(ViewOf(g, c, k), k, enc) && Resolving(merge, enc) ==> Synced(ViewOf(h, c, k))
  {
    FetchedOrCurrent(g, c, s, k);
    PassSeenBy(g, h, c, s, merge, c, k);
    if Tame(ViewOf(g, c, k), k, enc) && Resolving(merge, enc) {
      PassSyncs(ViewOf(g, c, k), k, merge, enc, true);
    }
  }

  // ---- interrupted passes ----------------------------------------------------------------------

  /** `g` is where a pass of `c` stopped in `g0` just after the server accepted its upload of `x`: the
      store and the ledger of `c` are as they were, the backend still holds `x`, and `x` is the newest
      version. */
  ghost predicate LostAcknowledgement(g0: Global, g: Global, c: ClientId, k: Key, x: Bytes) {
    && Enables(g0, OnItem(c, k, Put(x))) && HistOf(g, k) == HistOf(g0, k) + [x]
    && SlotOf(g, c, k).meta == SlotOf(g0, c, k).meta && SlotOf(g, c, k).value == Some(x)
    && LedgerOf(g, c) == LedgerOf(g0, c)
  }

  /** Such states exist: the accepted PUT itself leads to one. */
  lemma AcceptedPutMayBeLost(g0: Global, c: ClientId, k: Key, x: Bytes)
    requires Enables(g0, OnItem(c, k, Put(x))) && SlotOf(g0, c, k).value == Some(x)
    requires RecordOf(g0, c, k).version == |HistOf(g0, k)|
    ensures LostAcknowledgement(g0, Apply(g0, OnItem(c, k, Put(x))), c, k, x)
  {
    ItemStepFrame(g0, c, k, Put(x));
  }

  /** After a lost acknowledgement the next undisturbed pass makes the item clean at the server's
      version, without a merge and without a PUT of it. */
  lemma LostAcknowledgementIsAbsorbed(g0: Global, g: Global, h: Global, c: ClientId, s: Scope, k: Key, x: Bytes,
          merge: MergeFn)
    requires Reachable(g0) && Reachable(g) && LostAcknowledgement(g0, g, c, k, x)
    requires CalmPass(g, h, c, s, merge) && Active(s, k)
    ensures HistOf(h, k) == HistOf(g, k) && Synced(ViewOf(h, c, k)) && SlotOf(h, c, k).value == Some(x)
    ensures NoMergeNoPut(SlotOf(g, c, k).log, SlotOf(h, c, k).log)
  {
    ReachableInv(g0);
    assert CheckpointInv(g0, c) && ViewInv(ViewOf(g0, c, k));
    assert SeenOf(g, c, k) == SeenIn(g0.clients[c].seen, k) <= |HistOf(g0, k)|;
    UnaccountedForcesFetch(g, c, s, k);
    FetchedOrCurrent(g, c, s, k);
    ArrivedValueIsRecorded(ViewOf(g, c, k), k, merge);
    PassSeenBy(g, h, c, s, merge, c, k);
  }

  /** A pass that stopped between writing a remote value and persisting its record is absorbed as well: the
      next undisturbed pass makes the item clean at the server's version without a merge. It does so without
      a PUT exactly if it reads the item map, as it always does when the record was clean. */
  lemma LostSaveIsAbsorbed(g: Global, h: Global, c: ClientId, s: Scope, k: Key, merge: MergeFn)
    requires Reachable(g) && CalmPass(g, h, c, s, merge) && Active(s, k)
    requires !RecordOf(g, c, k).conflict && RecordOf(g, c, k).version < |HistOf(g, k)|
    requires SlotOf(g, c, k).value == Some(HistOf(g, k)[|HistOf(g, k)| - 1])
    ensures Absorbed(ViewOf(g, c, k), ViewOf(h, c, k), Fetches(g, c, s))
    ensures !RecordOf(g, c, k).dirty ==> Fetches(g, c, s)
  {
    var v, r, fetch := ViewOf(g, c, k), ViewOf(h, c, k), Fetches(g, c, s);
    FetchedOrCurrent(g, c, s, k);
    assert r == PassItem(v, k, merge, fetch);
    ArrivedValueIsAbsorbed(v, r, k, merge, fetch);
  }

  /** Such a pass without a look at the item map occurs: after a value race left the item queued and the
      checkpoint saved, the application stores the very value the server has. */
  lemma ArrivalMayGoUnread() returns (g: Global, c: ClientId, s: Scope, k: Key)
    ensures Reachable(g) && c in g.clients && Active(s, k) && !Fetches(g, c, s)
    ensures var m := RecordOf(g, c, k); m.dirty && !m.conflict && m.version < |HistOf(g, k)|
    ensures SlotOf(g, c, k).value == Some(HistOf(g, k)[|HistOf(g, k)| - 1])
  {
    var g0;
    g0, c, k := QueuedBehind();
    s := Scope({k.collection}, {k});
    var versions: map<Key, nat> := map[][k := 1];
    TotalUpdate(map[], k, 1);
    assert Total(versions) == 1;
    var save := SaveCheckpoint(c, versions, 1, HashOf(s));
    assert Enables(g0, save);
    StepIsReachable(g0, save);
    CheckpointStepFrame(g0, save);
    g := Apply(g0, save);
  }

  /** A queued item of client `c` whose value another client has uploaded already. */
  lemma QueuedBehind() returns (g: Global, c: ClientId, k: Key)
    ensures Reachable(g) && c in g.clients && g.head == 1 && |HistOf(g, k)| == 1
    ensures RecordOf(g, c, k) == Dirtied(BLANK) && SlotOf(g, c, k).value == Some(HistOf(g, k)[0])
    ensures g.clients[c].checkpoint == Checkpoint(0, NoScope) && g.clients[c].seen == map[]
  {
    var other: ClientId, x;
    g, c, other, k, x := TwoClients();
    g := Queued(g, other, k, x);
    g := FirstVersion(g, other, k, x);
    g := Queued(g, c, k, x);
  }

  /** Two clients that hold the same value, and nothing synchronised. */
  lemma TwoClients() returns (g: Global, c: ClientId, d: ClientId, k: Key, x: Bytes)
    ensures Reachable(g) && c in g.clients && d in g.clients && c != d && g.head == 0 && HistOf(g, k) == [] && |x| == 1
    ensures SlotOf(g, c, k).meta.None? && SlotOf(g, c, k).value == Some(x)
    ensures SlotOf(g, d, k).meta.None? && SlotOf(g, d, k).value == Some(x)
    ensures g.clients[c].checkpoint == Checkpoint(0, NoScope) && g.clients[c].seen == map[]
  {
    x, c, d, k := [7], 0, 1, Key("c", "k");
    var blank := Client(map[k := Slot(None, Some(x), [AppWrote(x)])], Checkpoint(0, NoScope), map[], 0);
    g := Global(map[], 0, map[c := blank, d := blank]);
    InitIsReachable(g);
  }

  /** From `g` to `h` client `c` did something to item `k` only. */
  ghost predicate OnlyItem(g: Global, h: Global, c: ClientId, k: Key) {
    && c in g.clients && h.clients.Keys == g.clients.Keys
    && (forall d :: d != c ==> SlotOf(h, d, k) == SlotOf(g, d, k))
    && (forall d :: d in g.clients ==>
      h.clients[d].checkpoint == g.clients[d].checkpoint && h.clients[d].seen == g.clients[d].seen)
  }

  /** An item that sync has never recorded is queued by snapshot reconciliation. */
  lemma Queued(g: Global, c: ClientId, k: Key, x: Bytes) returns (h: Global)
    requires Reachable(g) && c in g.clients && SlotOf(g, c, k).meta.None? && SlotOf(g, c, k).value == Some(x)
    ensures Reachable(h) && OnlyItem(g, h, c, k) && h.head == g.head && HistOf(h, k) == HistOf(g, k)
    ensures SlotOf(h, c, k).meta == Some(Dirtied(BLANK)) && SlotOf(h, c, k).value == Some(x)
  {
    h := Apply(g, OnItem(c, k, Save(Dirtied(BLANK))));
    ItemStepFrame(g, c, k, Save(Dirtied(BLANK)));
    StepIsReachable(g, OnItem(c, k, Save(Dirtied(BLANK))));
  }

  /** ... and uploaded as the first version. */
  lemma FirstVersion(g: Global, c: ClientId, k: Key, x: Bytes) returns (h: Global)
    requires Reachable(g) && c in g.clients && SlotOf(g, c, k).meta == Some(Dirtied(BLANK))
    requires SlotOf(g, c, k).value == Some(x) && Fits(x) && HistOf(g, k) == []
    ensures Reachable(h) && OnlyItem(g, h, c, k) && h.head == g.head + 1 && HistOf(h, k) == [x]
  {
    ReachableInv(g);
    assert ViewInv(ViewOf(g, c, k));
    h := Apply(g, OnItem(c, k, Put(x)));
    ItemStepFrame(g, c, k, Put(x));
    StepIsReachable(g, OnItem(c, k, Put(x)));
  }

  // ---- quiet passes ----------------------------------------------------------------------------

  ghost predicate AllQuiet(g: Global, c: ClientId, s: Scope) {
    forall k :: Active(s, k) ==> Quiet(ViewOf(g, c, k))
  }

  ghost predicate NothingHappened(g: Global, h: Global, c: ClientId)
    requires c in g.clients && c in h.clients
  {
    && (forall k :: ViewOf(h, c, k) == ViewOf(g, c, k))
    && h.clients[c].mapReads == g.clients[c].mapReads && h.clients[c].checkpoint == g.clients[c].checkpoint
  }

  /** A pass whose head and scope match the server changes nothing, reads no item map and sends no
      request for any item (the items' histories stay as they are) exactly when every active item is quiet. */
  lemma QuietPass(g: Global, h: Global, c: ClientId, s: Scope, merge: MergeFn)
    requires Reachable(g) && CalmPass(g, h, c, s, merge)
    requires g.clients[c].checkpoint == Checkpoint(g.head, HashOf(s))
    ensures AllQuiet(g, c, s) <==> NothingHappened(g, h, c)
  {
    ReachableInv(g);
    ReachesOn(g, h);
    ReachableInv(h);
    forall k | Active(s, k) ensures ViewOf(h, c, k) == ViewOf(g, c, k) <==> Quiet(ViewOf(g, c, k)) {
      assert ViewInv(ViewOf(g, c, k));
      PassSeenBy(g, h, c, s, merge, c, k);
      QuietExactly(ViewOf(g, c, k), k, merge);
    }
    if AllQuiet(g, c, s) {
      forall k ensures ViewOf(h, c, k) == ViewOf(g, c, k) {
        assert Active(s, k) ==> Quiet(ViewOf(g, c, k));
      }
      forall k ensures SeenIn(VersionsOf(g.hist), k) == SeenIn(VersionsOf(h.hist), k) {
        assert ViewOf(h, c, k).hist == ViewOf(g, c, k).hist;
      }
      SameHistoriesSameTotal(g.hist, h.hist);
    }
  }

  lemma SameHistoriesSameTotal(a: map<Key, seq<Bytes>>, b: map<Key, seq<Bytes>>)
    requires forall k :: SeenIn(VersionsOf(a), k) == SeenIn(VersionsOf(b), k)
    ensures Total(VersionsOf(a)) == Total(VersionsOf(b))
  {
    TotalBelow(VersionsOf(a), VersionsOf(b));
    TotalBelow(VersionsOf(b), VersionsOf(a));
  }

  // ---- scope isolation -------------------------------------------------------------------------

  /** Everything added to the history was done by the application. */
  ghost predicate OnlyApp(before: Log, after: Log) {
    before <= after && forall i :: |before| <= i < |after| ==> after[i].AppWrote? || after[i].AppResolved?
  }

  lemma StepOutsideIsApp(g: Global, a: Action, c: ClientId, ks: set<Key>, k: Key)
    requires k !in ks && (Mine(c, ks, a) || Foreign(c, None, a))
    ensures OnlyApp(SlotOf(g, c, k).log, SlotOf(Apply(g, a), c, k).log)
  {
    if a.client in g.clients && a.OnItem? {
      ItemStepFrame(g, a.client, a.key, a.act);
    }
  }

  lemma {:induction false} ChainOutsideIsApp(gs: seq<Global>, acts: seq<Action>, from: nat, to: nat, c: ClientId,
          ks: set<Key>, k: Key)
    requires Chain(gs, acts) && from <= to <= |acts| && k !in ks
    requires forall i :: from <= i < to ==> Mine(c, ks, acts[i]) || Foreign(c, None, acts[i])
    ensures OnlyApp(SlotOf(gs[from], c, k).log, SlotOf(gs[to], c, k).log)
  {
    if from < to {
      ChainOutsideIsApp(gs, acts, from, to - 1, c, ks, k);
      assert StepAt(gs, acts, to - 1);
      StepOutsideIsApp(gs[to - 1], acts[to - 1], c, ks, k);
    }
  }

  /** Whatever interferes, a session of `c` on the items `ks` leaves every other item of `c` to the
      application: no record, backend value, download, merge or upload of it comes from the engine. */
  lemma ScopeIsolation(start: Global, honest: bool, s0: seq<Action>, g0: Global, s1: seq<Action>, g1: Global,
          c: ClientId, ks: set<Key>, calm: bool, k: Key)
    requires Past(start, honest, s0, g0) && Past(start, honest, s1, g1) && Session(c, ks, calm, s0, s1) && k !in ks
    ensures OnlyApp(SlotOf(g0, c, k).log, SlotOf(g1, c, k).log)
    ensures MetaDrift(SlotOf(g0, c, k).meta, SlotOf(g1, c, k).meta)
    ensures calm ==> ViewOf(g1, c, k) == ViewOf(g0, c, k)
  {
    var gs :| PastOk(gs, s0, honest) && gs[0] == start && gs[|s0|] == g0;
    var hs :| PastOk(hs, s1, honest) && hs[0] == start && hs[|s1|] == g1;
    PastIsRun(gs, s0, honest);
    PastIsRun(hs, s1, honest);
    ChainDetermined(gs, s0, hs, s1, |s0|);
    ChainOutsideIsApp(hs, s1, |s0|, |s1|, c, ks, k);
    Elsewhere(start, honest, s0, g0, s1, g1, c, ks, calm);
  }
}

/** What the protocol promises in every reachable state, over all interleavings of all clients,
    application writes, lost acknowledgements and aborted passes. */
module Guarantees {
  import opened Prelude
  import opened ItemState
  import opened ItemLog
  import opened Network

  /** A client's history of an item is complete: it determines the stored record and the backend value. */
  lemma HistoryIsComplete(g: Global, c: ClientId, k: Key)
    requires Reachable(g) && c in g.clients
    ensures SlotOf(g, c, k).meta == StoredMeta(SlotOf(g, c, k).log)
        && SlotOf(g, c, k).value == HeldValue(SlotOf(g, c, k).log)
  {
    ReachableInv(g);
    assert ViewInv(ViewOf(g, c, k));
  }

  // ---- heads and versions ----------------------------------------------------------------------

  /** An honest server is never ahead of itself: nothing recorded locally exceeds what it has, so no
      rollback check can fire on its answers. */
  lemma NoFalseRollback(g: Global, c: ClientId, k: Key)
    requires Reachable(g) && c in g.clients
    ensures g.clients[c].checkpoint.head <= g.head
    ensures RecordOf(g, c, k).version <= |HistOf(g, k)|
  {
    ReachableInv(g);
    assert ViewInv(ViewOf(g, c, k)) && CheckpointInv(g, c);
    var seen := g.clients[c].seen;
    forall j ensures SeenIn(seen, j) <= SeenIn(VersionsOf(g.hist), j) {
      assert SeenIn(seen, j) <= |HistOf(g, j)|;
    }
    TotalBelow(seen, VersionsOf(g.hist));
  }

  /** Not reading the item map is sound: with the server's head and the current scope saved, every
      active item is at the server's version, or will be compared with the server by its upload. */
  lemma SkippingIsSound(g: Global, c: ClientId, s: Scope, k: Key)
    requires Reachable(g) && c in g.clients && Active(s, k)
    requires g.clients[c].checkpoint == Checkpoint(g.head, HashOf(s))
    ensures var m := RecordOf(g, c, k);
            m.version == |HistOf(g, k)| || (m.dirty && !m.conflict && m.version < |HistOf(g, k)|)
  {
    ReachableInv(g);
    NoFalseRollback(g, c, k);
    assert CheckpointInv(g, c);
    var seen := g.clients[c].seen;
    forall j ensures SeenIn(seen, j) <= SeenIn(VersionsOf(g.hist), j) {
      assert SeenIn(seen, j) <= |HistOf(g, j)|;
    }
    TotalBelow(seen, VersionsOf(g.hist));
    assert SeenIn(seen, k) == |HistOf(g, k)|;
    assert UpToDateOrQueued(RecordOf(g, c, k), SeenIn(seen, k));
  }

  // ---- one client's history of an item ---------------------------------------------------------

  /** What was uploaded on top of version `v` after the history `pre`: a value the backend held at a moment
      when `v` was the stored version and already accounted for, with no record persisted since. */
  ghost predicate BuiltOn(pre: Log, v: nat, x: Bytes) {
    exists n :: BuiltOnAt(pre, v, x, n)
  }

  ghost predicate BuiltOnAt(pre: Log, v: nat, x: Bytes, n: int) {
    && 0 <= n <= |pre| && HeldValue(pre[..n]) == Some(x)
    && Loaded(StoredMeta(pre[..n])).version == v && (v > 0 ==> Accounted(pre[..n], v))
    && forall i :: n <= i < |pre| ==> !Persists(pre[i])
  }

  /** A version is accounted for by the time the record says so. */
  lemma AccountedByThen(log: Log, v: nat, n: nat)
    requires Accounted(log, v) && n <= |log| && forall i :: n <= i < |log| ==> !Persists(log[i])
    ensures Accounted(log[..n], v)
  {
    if i, w, j :| TakenCleanAt(log, v, i, w, j) {
      assert TakenCleanAt(log[..n], v, i, w, j);
    } else if i, m, w, j :| MergedInAt(log, v, i, m, w, j) {
      assert MergedInAt(log[..n], v, i, m, w, j);
    } else if i, j :| OwnUploadAt(log, v, i, j) {
      assert OwnUploadAt(log[..n], v, i, j);
    } else {
      var j :| SettledByAppAt(log, v, j);
      assert log[..n][..j] == log[..j];
      assert SettledByAppAt(log[..n], v, j);
    }
  }

  /** Whenever this client's PUT created version `v + 1` on top of an existing version `v`, it uploaded a
      value its backend held after `v` had been written there as the clean version, merged with the local
      value, uploaded from here, or shown as a conflict that the application resolved. */
  lemma NoLostUpdate(g: Global, c: ClientId, k: Key, i: nat)
    requires Reachable(g) && c in g.clients && i < |SlotOf(g, c, k).log| && SlotOf(g, c, k).log[i].PutAccepted?
    ensures var pre, e := SlotOf(g, c, k).log[..i], SlotOf(g, c, k).log[i];
            e.version >= 1 && IsVersion(HistOf(g, k), e.version, e.value) && BuiltOn(pre, e.version - 1, e.value)
  {
    ReachableInv(g);
    assert ViewInv(ViewOf(g, c, k));
    LogOkAt(SlotOf(g, c, k).log, HistOf(g, k), i);
    var pre, e := SlotOf(g, c, k).log[..i], SlotOf(g, c, k).log[i];
    var n := HeldSinceMoment(pre, e.value);
    if e.version > 1 {
      AccountedByThen(pre, e.version - 1, n);
    }
    assert BuiltOnAt(pre, e.version - 1, e.value, n);
  }

  /** A version that was only downloaded, or only recorded, is not accounted for. */
  lemma DownloadIsNotEnough(log: Log, v: nat)
    requires forall e :: e in log ==> !e.SyncWrote? && !e.PutAccepted? && !e.AppResolved?
    ensures !Accounted(log, v)
  {
    forall i, n, j ensures !TakenCleanAt(log, v, i, n, j) {
      assert 0 <= n < |log| ==> log[n] in log;
    }
    forall i, m, n, j ensures !MergedInAt(log, v, i, m, n, j) {
      assert 0 <= n < |log| ==> log[n] in log;
    }
    forall i, j ensures !OwnUploadAt(log, v, i, j) {
      assert 0 <= i < |log| ==> log[i] in log;
    }
    forall n ensures !SettledByAppAt(log, v, n) {
      assert 0 <= n < |log| ==> log[n] in log;
    }
  }

  /** Every upload is guarded by the stored version, and the server was ahead when it refused one. */
  lemma UploadsFollowTheRecord(g: Global, c: ClientId, k: Key, i: nat)
    requires Reachable(g) && c in g.clients && i < |SlotOf(g, c, k).log|
    ensures var pre, e, n := SlotOf(g, c, k).log[..i], SlotOf(g, c, k).log[i], |HistOf(g, k)|;
            && (e.PutAccepted? ==> e.version == Loaded(StoredMeta(pre)).version + 1 <= n)
            && (e.PutRefused? ==> e.version == Loaded(StoredMeta(pre)).version < e.current <= n)
            && (e.PutAccepted? || e.PutRefused? ==> Loaded(StoredMeta(pre)).dirty && !Loaded(StoredMeta(pre)).conflict)
  {
    ReachableInv(g);
    assert ViewInv(ViewOf(g, c, k));
    LogOkAt(SlotOf(g, c, k).log, HistOf(g, k), i);
  }

  /** No value disappears silently: what sync replaces was the server's plaintext at the clean base,
      equals what is written, or was the local input of the merge whose result is written. */
  lemma NoEditOverwritten(g: Global, c: ClientId, k: Key, i: nat)
    requires Reachable(g) && c in g.clients && i < |SlotOf(g, c, k).log| && SlotOf(g, c, k).log[i].SyncWrote?
    ensures LosslessWrite(SlotOf(g, c, k).log[..i], HistOf(g, k), SlotOf(g, c, k).log[i].replaced,
        SlotOf(g, c, k).log[i].value)
  {
    ReachableInv(g);
    assert ViewInv(ViewOf(g, c, k));
    LogOkAt(SlotOf(g, c, k).log, HistOf(g, k), i);
  }

  lemma MergesAreGenuine(g: Global, c: ClientId, k: Key, i: nat)
    requires Reachable(g) && c in g.clients && i < |SlotOf(g, c, k).log| && SlotOf(g, c, k).log[i].MergeRan?
    ensures var e := SlotOf(g, c, k).log[i];
            GenuineMerge(SlotOf(g, c, k).log[..i], HistOf(g, k), e.base, e.local, e.remoteVersion, e.remote)
  {
    ReachableInv(g);
    assert ViewInv(ViewOf(g, c, k));
    LogOkAt(SlotOf(g, c, k).log, HistOf(g, k), i);
  }

  /** Every record ever persisted agrees with the server, so a pass may stop after any write. */
  lemma EveryRecordSound(g: Global, c: ClientId, k: Key, i: nat)
    requires Reachable(g) && c in g.clients && i < |SlotOf(g, c, k).log|
    requires SlotOf(g, c, k).log[i].Saved? || SlotOf(g, c, k).log[i].AppResolved?
    ensures var m := SlotOf(g, c, k).log[i].meta;
            MetaOk(m, HistOf(g, k)) && (HasMergeBase(m) <==> m.baseVersion > 0)
  {
    ReachableInv(g);
    assert ViewInv(ViewOf(g, c, k));
    LogOkAt(SlotOf(g, c, k).log, HistOf(g, k), i);
  }

  // ---- conflicts freeze an item ----------------------------------------------------------------

  /** The stored record is one of those persisted. */
  lemma {:induction false} StoredRecordIsSound(log: Log, h: seq<Bytes>)
    requires LogOk(log, h) && StoredMeta(log).Some?
    ensures MetaOk(StoredMeta(log).value, h)
  {
    if !log[|log| - 1].Saved? && !log[|log| - 1].AppResolved? {
      StoredRecordIsSound(log[..|log| - 1], h);
    }
  }

  predicate Settles(e: Event) {
    e.AppResolved? || e.Forgot?
  }

  /** Between `i` and `j` the application settled no conflict of this item and nothing was reset. */
  predicate Unsettled(log: Log, i: nat, j: nat) {
    forall n :: i <= n < j && n < |log| ==> !Settles(log[n])
  }

  /** What was recorded in a conflict since `i`: application writes, downloads and newer conflict records. */
  predicate FrozenEntries(log: Log, i: nat, j: nat) {
    forall n :: i <= n < j && n < |log| ==>
      log[n].AppWrote? || log[n].Opened? || (log[n].Saved? && log[n].meta.conflict)
  }

  /** Record `m'` is `m` in conflict with a version at least as new; the base is the same. */
  predicate StillFrozen(m: Meta, m': Meta, h: seq<Bytes>) {
    && m'.conflict && MetaOk(m', h) && m.version <= m'.version
    && m'.baseVersion == m.baseVersion && m'.baseValue == m.baseValue
    && m'.conflictVersion == m'.version && IsVersion(h, m'.version, m'.conflictValue)
  }

  /** From a conflict to the application's decision the engine neither uploads the item, nor merges,
      nor writes its value; the base stays and the conflict shows the server's plaintext. */
  lemma ConflictFreezes(g: Global, c: ClientId, k: Key, i: nat, j: nat)
    requires Reachable(g) && c in g.clients && i <= j <= |SlotOf(g, c, k).log|
    requires var log := SlotOf(g, c, k).log;
             StoredMeta(log[..i]).Some? && StoredMeta(log[..i]).value.conflict && Unsettled(log, i, j)
    ensures var log := SlotOf(g, c, k).log;
            && FrozenEntries(log, i, j) && StoredMeta(log[..j]).Some?
            && StillFrozen(StoredMeta(log[..i]).value, StoredMeta(log[..j]).value, HistOf(g, k))
  {
    ReachableInv(g);
    assert ViewInv(ViewOf(g, c, k));
    FrozenInHistory(SlotOf(g, c, k).log, HistOf(g, k), i, j);
  }

  lemma {:induction false} FrozenInHistory(log: Log, h: seq<Bytes>, i: nat, j: nat)
    requires LogOk(log, h) && i <= j <= |log|
    requires StoredMeta(log[..i]).Some? && StoredMeta(log[..i]).value.conflict && Unsettled(log, i, j)
    ensures FrozenEntries(log, i, j) && StoredMeta(log[..j]).Some?
    ensures StillFrozen(StoredMeta(log[..i]).value, StoredMeta(log[..j]).value, h)
  {
    if i < j {
      FrozenInHistory(log, h, i, j - 1);
      LogOkAt(log, h, j - 1);
      assert log[..j][..j - 1] == log[..j - 1];
    } else {
      assert i == |log| ==> log[..i] == log;
      if i < |log| {
        LogOkAt(log, h, i);
      }
      StoredRecordIsSound(log[..i], h);
    }
  }

  /** After a resolution the next upload is guarded by exactly the version the application saw, unless
      a newer record was persisted first. */
  lemma ResolvedUploadIsGuarded(g: Global, c: ClientId, k: Key, i: nat, j: nat)
    requires Reachable(g) && c in g.clients && i < j < |SlotOf(g, c, k).log|
    requires var log := SlotOf(g, c, k).log;
             log[i].AppResolved? && (log[j].PutAccepted? || log[j].PutRefused?) && Unsettled(log, i + 1, j)
    ensures var log := SlotOf(g, c, k).log;
            var guard := if log[j].PutAccepted? then log[j].version - 1 else log[j].version;
            && guard == Loaded(StoredMeta(log[..j])).version
            && (guard == log[i].meta.version || NewerRecord(log, i, j, guard))
  {
    ReachableInv(g);
    assert ViewInv(ViewOf(g, c, k));
    var log := SlotOf(g, c, k).log;
    LogOkAt(log, HistOf(g, k), j);
    NewestRecord(log, HistOf(g, k), i, j);
  }

  /** Between a resolution at `i` and `j` a record of the newer version `v` was persisted. */
  predicate NewerRecord(log: Log, i: nat, j: nat, v: nat) {
    exists n :: i < n < j && n < |log| && log[i].AppResolved? && log[n].Saved?
      && log[n].meta.version == v > log[i].meta.version
  }

  /** The stored record is the settled one or one persisted since, and never older. */
  lemma {:induction false} NewestRecord(log: Log, h: seq<Bytes>, i: nat, j: nat)
    requires LogOk(log, h) && i < j <= |log| && log[i].AppResolved? && Unsettled(log, i + 1, j)
    ensures StoredMeta(log[..j]).Some?
    ensures var m := StoredMeta(log[..j]).value;
            m.version == log[i].meta.version || NewerRecord(log, i, j, m.version)
  {
    assert log[..j][..j - 1] == log[..j - 1];
    if i < j - 1 {
      NewestRecord(log, h, i, j - 1);
      LogOkAt(log, h, j - 1);
      if log[j - 1].Saved? && log[j - 1].meta.version > log[i].meta.version {
        assert log[j - 1].meta.version == StoredMeta(log[..j]).value.version;
      }
    }
  }

  // ---- the server's history --------------------------------------------------------------------

  ghost predicate Uploaded(g: Global, k: Key, v: nat) {
    exists c :: c in g.clients && 1 <= v <= |HistOf(g, k)| && PutAccepted(v, HistOf(g, k)[v - 1]) in SlotOf(g, c, k).log
  }

  ghost predicate Authored(g: Global) {
    forall k, v :: 1 <= v <= |HistOf(g, k)| ==> Uploaded(g, k, v)
  }

  lemma {:induction false} RunIsAuthored(gs: seq<Global>, acts: seq<Action>, n: nat)
    requires Run(gs, acts) && Init(gs[0]) && n <= |acts|
    ensures Authored(gs[n])
  {
    if n > 0 {
      RunIsAuthored(gs, acts, n - 1);
      assert StepAt(gs, acts, n - 1) && EnabledAt(gs, acts, n - 1);
      StepKeepsAuthored(gs[n - 1], acts[n - 1]);
    }
  }

  lemma StepKeepsAuthored(g: Global, a: Action)
    requires Authored(g)
    ensures Authored(Apply(g, a))
  {
    var g' := Apply(g, a);
    forall k, v | 1 <= v <= |HistOf(g', k)| ensures Uploaded(g', k, v) {
      StepKeepsLogs(g, a, a.client, k);
      if v <= |HistOf(g, k)| {
        assert Uploaded(g, k, v);
        var c :| c in g.clients && PutAccepted(v, HistOf(g, k)[v - 1]) in SlotOf(g, c, k).log;
        StepKeepsLogs(g, a, c, k);
        var i :| 0 <= i < |SlotOf(g, c, k).log| && SlotOf(g, c, k).log[i] == PutAccepted(v, HistOf(g, k)[v - 1]);
        assert SlotOf(g', c, k).log[i] == PutAccepted(v, HistOf(g', k)[v - 1]);
      } else {
        NewVersionIsLogged(g, a, k, v);
      }
    }
  }

  lemma NewVersionIsLogged(g: Global, a: Action, k: Key, v: nat)
    requires |HistOf(g, k)| < v <= |HistOf(Apply(g, a), k)|
    ensures Uploaded(Apply(g, a), k, v)
  {
    if a.client in g.clients && a.OnItem? {
      ItemStepFrame(g, a.client, a.key, a.act);
      var log := SlotOf(Apply(g, a), a.client, k).log;
      assert log[|log| - 1] == PutAccepted(v, HistOf(Apply(g, a), k)[v - 1]);
    }
  }

  /** Every version on the server was uploaded by a client whose backend held it after the version before
      had been accounted for there: the history of an item never forks. */
  lemma EveryVersionBuildsOnItsPredecessor(g: Global, k: Key, v: nat) returns (c: ClientId, i: nat)
    requires Reachable(g) && 1 <= v <= |HistOf(g, k)|
    ensures c in g.clients && i < |SlotOf(g, c, k).log| && SlotOf(g, c, k).log[i] == PutAccepted(v, HistOf(g, k)[v - 1])
    ensures BuiltOn(SlotOf(g, c, k).log[..i], v - 1, HistOf(g, k)[v - 1])
  {
    var g0 :| Init(g0) && Reaches(g0, g);
    var gs, acts :| Run(gs, acts) && gs[0] == g0 && gs[|acts|] == g;
    RunIsAuthored(gs, acts, |acts|);
    assert Uploaded(g, k, v);
    c :| c in g.clients && PutAccepted(v, HistOf(g, k)[v - 1]) in SlotOf(g, c, k).log;
    i :| 0 <= i < |SlotOf(g, c, k).log| && SlotOf(g, c, k).log[i] == PutAccepted(v, HistOf(g, k)[v - 1]);
    NoLostUpdate(g, c, k, i);
  }
}

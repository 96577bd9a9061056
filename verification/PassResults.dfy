/** What one undisturbed pass does for one item: it brings it to rest at the server's newest version,
    absorbs what an interrupted pass left behind, and does nothing where there is nothing to do. */
module PassResults {
  import opened Prelude
  import opened ItemState
  import opened ItemLog
  import opened Network
  import opened PassSpec

  /** Which byte strings encode values of the key's collection. */
  type Domain = (Key, Bytes) -> bool

  /** The merge resolves all encoded values to an encoded value, and uploadable ones to an uploadable one. */
  ghost predicate Resolving(merge: MergeFn, enc: Domain) {
    forall k, b: Option<Bytes>, l, r :: (b.Some? ==> enc(k, b.value)) && enc(k, l) && enc(k, r) ==>
      && merge(k, b, l, r).Resolved? && enc(k, merge(k, b, l, r).value)
      && (Fits(l) && Fits(r) ==> Fits(merge(k, b, l, r).value))
  }

  predicate AllEncoded(h: seq<Bytes>, k: Key, enc: Domain) {
    forall i :: 0 <= i < |h| ==> enc(k, h[i])
  }

  /** Everything is an encoding of the collection's type. */
  predicate Encoded(v: View, k: Key, enc: Domain) {
    (v.value.Some? ==> enc(k, v.value.value)) && AllEncoded(v.hist, k, enc)
  }

  /** ... and the value can be uploaded. */
  predicate Usable(v: View, k: Key, enc: Domain) {
    Encoded(v, k, enc) && (v.value.Some? ==> Fits(v.value.value))
  }

  /** ... and no conflict is outstanding. */
  predicate Tame(v: View, k: Key, enc: Domain) {
    !Loaded(v.meta).conflict && Usable(v, k, enc)
  }

  /** The record does not hide a newer server version from the flush. */
  predicate Current(v: View) {
    Loaded(v.meta).version == |v.hist| || (Loaded(v.meta).dirty && !Loaded(v.meta).conflict)
  }

  /** Backend value, base and server agree on the newest version. */
  predicate Synced(v: View) {
    if v.hist == [] then v.value.None? && !Loaded(v.meta).dirty
    else v.meta == Some(Clean(|v.hist|, v.hist[|v.hist| - 1])) && v.value == Some(v.hist[|v.hist| - 1])
  }

  /** Nothing local waits for upload. */
  predicate AtRest(v: View) {
    var m := Loaded(v.meta);
    !m.dirty && (v.value.Some? ==> HasMergeBase(m) && v.value.value == m.baseValue)
  }

  /** Snapshot reconciliation queues whatever differs from the clean base. */
  lemma ReconcileQueues(v: View, k: Key, enc: Domain)
    requires ViewInv(v)
    ensures ViewInv(ReconcileItem(v)) && ReconcileItem(v).hist == v.hist && ReconcileItem(v).value == v.value
    ensures Tame(v, k, enc) ==>
        Tame(ReconcileItem(v), k, enc) && (Loaded(ReconcileItem(v).meta).dirty || AtRest(ReconcileItem(v)))
    ensures Loaded(ReconcileItem(v).meta).version == Loaded(v.meta).version
    ensures Current(v) ==> Current(ReconcileItem(v))
  {
    var r := ReconcileItem(v);
    if r != v {
      StepKeeps(v, Save(Dirtied(Loaded(v.meta))));
    }
  }

  /** Writing the newest version and recording it as clean leaves the item in step. */
  lemma TakingSyncs(v: View, k: Key, enc: Domain, n: nat, x: Bytes)
    requires v.hist != [] && n == |v.hist| && x == v.hist[n - 1] && Usable(v, k, enc) && Fits(x)
    ensures var r := TakeRemote(v, n, x); r.hist == v.hist && Synced(r) && Tame(r, k, enc)
  {
    var r := TakeRemote(v, n, x);
    assert enc(k, v.hist[n - 1]);
    assert r.hist == v.hist && r.value == Some(x) && r.meta == Some(Clean(n, x));
  }

  /** A merge that resolves is written, and recorded on top of the newest version. */
  lemma MergingBringsUp(v: View, k: Key, merge: MergeFn, enc: Domain, l: Bytes, n: nat, x: Bytes)
    requires v.hist != [] && n == |v.hist| && x == v.hist[n - 1] && Usable(v, k, enc) && v.value == Some(l) && l != x
    requires Resolving(merge, enc) && Fits(x) && (BaseOf(Loaded(v.meta)).Some? ==> enc(k, BaseOf(Loaded(v.meta)).value))
    ensures var r := MergeRemote(v, k, merge, l, n, x);
      && r.hist == v.hist && Tame(r, k, enc) && r.value.Some? && r.meta.Some? && r.meta.value.version == n
      && (r.meta.value.dirty || Synced(r))
  {
    var y := merge(k, BaseOf(Loaded(v.meta)), l, x).value;
    assert enc(k, v.hist[n - 1]);
    assert enc(k, y) && Fits(y);
    var r := MergeRemote(v, k, merge, l, n, x);
    assert r.hist == v.hist && r.value == Some(y);
    assert r.meta == Some(if y == x then Clean(n, x) else DirtyOnBase(n, x));
  }

  /** After a download the record is at the newest version and still dirty only on top of it. */
  lemma PullBringsUp(v: View, k: Key, merge: MergeFn, enc: Domain)
    requires ViewInv(v) && Tame(v, k, enc) && Resolving(merge, enc) && Loaded(v.meta).version < |v.hist|
    ensures var r := PullItem(v, k, merge);
      && r.hist == v.hist && Tame(r, k, enc) && r.value.Some? && r.meta.Some? && r.meta.value.version == |v.hist|
      && (r.meta.value.dirty || Synced(r))
  {
    var n, x, m := |v.hist|, v.hist[|v.hist| - 1], Loaded(v.meta);
    var got := Act(v, Open(n, x));
    PullIsDownload(v, k, merge);
    if v.value.None? || v.value.value == x || (!m.dirty && HasMergeBase(m) && v.value.value == m.baseValue) {
      TakingSyncs(got, k, enc, n, x);
    } else {
      assert BaseOf(m).Some? ==> m.baseValue in v.hist;
      MergingBringsUp(got, k, merge, enc, v.value.value, n, x);
    }
  }

  /** Flushing what is at the newest version ends in step with the server. */
  lemma FlushOnTop(v: View, k: Key, merge: MergeFn, enc: Domain)
    requires Tame(v, k, enc) && Loaded(v.meta).version == |v.hist| && (Synced(v) || (v.value.Some?
        && Loaded(v.meta).dirty))
    ensures Synced(FlushItem(v, k, merge)) && Tame(FlushItem(v, k, merge), k, enc)
    ensures RetryItem(v) == FlushItem(v, k, merge)
  {
  }

  /** One undisturbed pass leaves the item in step with the server. */
  lemma PassSyncs(v: View, k: Key, merge: MergeFn, enc: Domain, fetch: bool)
    requires ViewInv(v) && Tame(v, k, enc) && Resolving(merge, enc) && (fetch || Current(v))
    ensures Synced(PassItem(v, k, merge, fetch)) && Tame(PassItem(v, k, merge, fetch), k, enc)
  {
    var r := ReconcileItem(v);
    ReconcileQueues(v, k, enc);
    if |r.hist| == Loaded(r.meta).version {
      FlushOnTop(r, k, merge, enc);
    } else if fetch {
      PullBringsUp(r, k, merge, enc);
      FlushOnTop(PullItem(r, k, merge), k, merge, enc);
    } else {
      var refused := Act(r, Put(r.value.value));
      StepKeeps(r, Put(r.value.value));
      PullBringsUp(refused, k, merge, enc);
      FlushOnTop(PullItem(refused, k, merge), k, merge, enc);
    }
  }

  /** ... and no merge fails on the way. */
  lemma PassDoesNotBreak(v: View, k: Key, merge: MergeFn, enc: Domain, fetch: bool)
    requires ViewInv(v) && Tame(v, k, enc) && Resolving(merge, enc)
    ensures !PassBreaks(v, k, merge, fetch)
  {
    var r := ReconcileItem(v);
    ReconcileQueues(v, k, enc);
    assert !PullBreaks(r, k, merge);
    if fetch && Loaded(r.meta).version < |r.hist| {
      PullBringsUp(r, k, merge, enc);
    }
  }

  lemma SilentEntry(log: Log, e: Event)
    requires !e.PutAccepted? && !e.PutRefused?
    ensures PutsOf(log + [e]) == PutsOf(log)
  {
    Appended(log, e);
  }

  /** ... and an item at rest is not uploaded. */
  lemma RestIsNotUploaded(v: View, k: Key, merge: MergeFn, fetch: bool)
    requires ViewInv(v) && AtRest(v) && (fetch || Current(v))
    ensures PassItem(v, k, merge, fetch).hist == v.hist
    ensures PutsOf(PassItem(v, k, merge, fetch).log) == PutsOf(v.log)
  {
    var n := |v.hist|;
    if fetch && Loaded(v.meta).version < n {
      var x := v.hist[n - 1];
      var got := v.log + [Opened(n, x)];
      var written := got + [SyncWrote(v.value, x)];
      assert PassItem(v, k, merge, fetch).log == written + [Saved(Clean(n, x))];
      SilentEntry(v.log, Opened(n, x));
      SilentEntry(got, SyncWrote(v.value, x));
      SilentEntry(written, Saved(Clean(n, x)));
    }
  }

  /** A conflict outlasts every undisturbed pass. */
  lemma ConflictOutlastsPass(v: View, k: Key, merge: MergeFn, fetch: bool)
    requires Loaded(v.meta).conflict
    ensures Loaded(PassItem(v, k, merge, fetch).meta).conflict && PassItem(v, k, merge, fetch).hist == v.hist
  {
  }

  // ---- oversized values ------------------------------------------------------------------------

  /** The merge never makes a local value that is too large small enough. */
  ghost predicate Stubborn(merge: MergeFn, enc: Domain) {
    forall k, b: Option<Bytes>, l, r ::
      (b.Some? ==> enc(k, b.value)) && enc(k, l) && enc(k, r) && !Fits(l) && merge(k, b, l, r).Resolved? ==>
        !Fits(merge(k, b, l, r).value)
  }

  lemma PullKeepsEncoding(v: View, k: Key, merge: MergeFn, enc: Domain)
    requires ViewInv(v) && Encoded(v, k, enc) && Resolving(merge, enc)
    ensures Encoded(PullItem(v, k, merge), k, enc) && PullItem(v, k, merge).hist == v.hist
    ensures v.value.Some? && !Fits(v.value.value) && Stubborn(merge, enc) ==>
      PullItem(v, k, merge).value.Some? && !Fits(PullItem(v, k, merge).value.value)
    ensures Loaded(PullItem(v, k, merge).meta).version >= |v.hist|
  {
  }

  lemma FlushKeepsEncoding(v: View, k: Key, merge: MergeFn, enc: Domain)
    requires Encoded(v, k, enc) && Resolving(merge, enc) && (ViewInv(v) || |v.hist| <= Loaded(v.meta).version)
    ensures Encoded(FlushItem(v, k, merge), k, enc)
    ensures !Uploadable(v) ==> FlushItem(v, k, merge) == v
  {
    if Uploadable(v) && |v.hist| > v.meta.value.version {
      var refused := Act(v, Put(v.value.value));
      StepKeeps(v, Put(v.value.value));
      PullKeepsEncoding(refused, k, merge, enc);
    }
  }

  /** A pass leaves encoded what was, and oversized what was, if the merge does. */
  lemma PassKeepsEncoding(v: View, k: Key, merge: MergeFn, enc: Domain, fetch: bool)
    requires ViewInv(v) && Encoded(v, k, enc) && Resolving(merge, enc)
    ensures Encoded(PassItem(v, k, merge, fetch), k, enc)
    ensures v.value.Some? && !Fits(v.value.value) && Stubborn(merge, enc) ==>
      PassItem(v, k, merge, fetch).value.Some? && !Fits(PassItem(v, k, merge, fetch).value.value)
  {
    var r := ReconcileItem(v);
    ReconcileQueues(v, k, enc);
    if fetch {
      PullKeepsEncoding(r, k, merge, enc);
      FlushKeepsEncoding(PullItem(r, k, merge), k, merge, enc);
    } else {
      FlushKeepsEncoding(r, k, merge, enc);
    }
  }

  // ---- interrupted passes ----------------------------------------------------------------------

  /** The entries a pass added to the history contain neither a merge nor an upload. */
  ghost predicate NoMergeNoPut(before: Log, after: Log) {
    before <= after && forall i :: |before| <= i < |after| ==>
        !after[i].MergeRan? && !after[i].PutAccepted? && !after[i].PutRefused?
  }

  /** The newest server version is already in the backend, but the record does not say so: an upload
      whose acknowledgement got lost, or a download whose record was not persisted. A pass that reads
      the item map records it without a merge and without an upload. */
  lemma ArrivedValueIsRecorded(v: View, k: Key, merge: MergeFn)
    requires ViewInv(v) && !Loaded(v.meta).conflict && Loaded(v.meta).version < |v.hist|
    requires v.value == Some(v.hist[|v.hist| - 1])
    ensures var r := PassItem(v, k, merge, true);
      Synced(r) && r.hist == v.hist && r.value == v.value && NoMergeNoPut(v.log, r.log)
  {
    var r, n, x := ReconcileItem(v), |v.hist|, v.hist[|v.hist| - 1];
    ReconcileQueues(v, k, (_, _) => true);
    ArrivedValueIsTaken(r, k, merge);
    var taken := PullItem(r, k, merge);
    assert !Uploadable(taken);
    assert taken.log == r.log + [Opened(n, x)] + [SyncWrote(Some(x), x)] + [Saved(Clean(n, x))];
    assert r.log == v.log || r.log == v.log + [Saved(Dirtied(Loaded(v.meta)))];
  }

  /** A pass that does not read the item map records it too, but only after a refused PUT. */
  lemma ArrivedValueUnread(v: View, k: Key, merge: MergeFn)
    requires ViewInv(v) && Loaded(v.meta).dirty && !Loaded(v.meta).conflict && Loaded(v.meta).version < |v.hist|
    requires v.value == Some(v.hist[|v.hist| - 1])
    ensures var r, n, x := PassItem(v, k, merge, false), |v.hist|, v.hist[|v.hist| - 1];
      && Synced(r) && r.hist == v.hist && r.value == v.value
      && r.log == v.log + [PutRefused(Loaded(v.meta).version, n), Opened(n, x), SyncWrote(Some(x), x),
                           Saved(Clean(n, x))]
  {
    var refused := Act(v, Put(v.value.value));
    assert ReconcileItem(v) == v;
    ArrivedValueIsTaken(refused, k, merge);
    assert !Uploadable(PullItem(refused, k, merge));
  }

  /** The entries a pass added to the history contain no merge. */
  ghost predicate NoMerge(before: Log, after: Log) {
    before <= after && forall i :: |before| <= i < |after| ==> !after[i].MergeRan?
  }

  /** Backend, base and server agree after the pass from `v` to `r`, without a merge, and without a PUT exactly if
      the pass read the item map. */
  ghost predicate Absorbed(v: View, r: View, fetch: bool) {
    && Synced(r) && r.hist == v.hist && r.value == v.value && NoMerge(v.log, r.log)
    && (NoMergeNoPut(v.log, r.log) <==> fetch)
  }

  /** Either way it needs no merge, and a PUT exactly if the item map is not read. */
  lemma ArrivedValueIsAbsorbed(v: View, r: View, k: Key, merge: MergeFn, fetch: bool)
    requires ViewInv(v) && !Loaded(v.meta).conflict && Loaded(v.meta).version < |v.hist| && (fetch || Current(v))
    requires r == PassItem(v, k, merge, fetch)
    requires v.value == Some(v.hist[|v.hist| - 1])
    ensures Absorbed(v, r, fetch) && (!Loaded(v.meta).dirty ==> fetch)
  {
    if fetch {
      ArrivedValueIsRecorded(v, k, merge);
    } else {
      ArrivedValueUnread(v, k, merge);
      assert PassItem(v, k, merge, false).log[|v.log|].PutRefused?;
    }
  }

  lemma ArrivedValueIsTaken(v: View, k: Key, merge: MergeFn)
    requires !Loaded(v.meta).conflict && Loaded(v.meta).version < |v.hist| && v.value == Some(v.hist[|v.hist| - 1])
    ensures PullItem(v, k, merge) == TakeRemote(Act(v, Open(|v.hist|, v.hist[|v.hist| - 1])), |v.hist|,
        v.hist[|v.hist| - 1])
  {
  }

  // ---- quiet passes ----------------------------------------------------------------------------

  /** Nothing to do for this item: in conflict, without a value, waiting with an oversized value, or
      clean and unedited. */
  predicate Quiet(v: View) {
    var m := Loaded(v.meta);
    m.conflict || v.value.None?
        || (if m.dirty then !Fits(v.value.value) else HasMergeBase(m) && v.value.value == m.baseValue)
  }

  lemma FlushGrowsLog(v: View, k: Key, merge: MergeFn)
    ensures |v.log| <= |FlushItem(v, k, merge).log| && (Uploadable(v) ==> |v.log| < |FlushItem(v, k, merge).log|)
  {
  }

  /** Without a look at the item map, a pass leaves exactly the quiet items alone. */
  lemma QuietExactly(v: View, k: Key, merge: MergeFn)
    requires ViewInv(v)
    ensures PassItem(v, k, merge, false) == v <==> Quiet(v)
  {
    if !Quiet(v) {
      FlushGrowsLog(ReconcileItem(v), k, merge);
    }
  }
}

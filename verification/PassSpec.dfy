/** What one undisturbed sync pass does to one item (`bitboxsync/engine_run.go:150-177`): no
    application write, other client or failure in between. The engine's methods are proved to compute
    these functions; what a pass achieves is proved about them here. */
module PassSpec {
  import opened Prelude
  import opened ItemState
  import opened ItemLog
  import opened Network

  /** The registered merge policy of an item's collection, in terms of encoded values. */
  type MergeFn = (Key, Option<Bytes>, Bytes, Bytes) -> MergeOutcome

  /** Snapshot reconciliation: a value that differs from the clean base is queued. */
  function ReconcileItem(v: View): View {
    var m := Loaded(v.meta);
    if v.value.None? || m.conflict || m.dirty || (HasMergeBase(m) && v.value.value == m.baseValue) then v
    else Act(v, Save(Dirtied(m)))
  }

  /** The remote value replaces the local one and becomes the clean base. */
  function TakeRemote(v: View, rv: nat, remote: Bytes): View {
    Act(Act(v, WriteValue(v.value, remote, rv, remote)), Save(Clean(rv, remote)))
  }

  function MergeRemote(v: View, k: Key, merge: MergeFn, local: Bytes, rv: nat, remote: Bytes): View {
    var m := Loaded(v.meta);
    if local == remote then TakeRemote(v, rv, remote)
    else
      var outcome := merge(k, BaseOf(m), local, remote);
      var merged := Act(v, RunMerge(BaseOf(m), local, rv, remote, outcome));
      match outcome
      case Resolved(y) =>
        Act(Act(merged, WriteValue(Some(local), y, rv, remote)),
            Save(if y == remote then Clean(rv, remote) else DirtyOnBase(rv, remote)))
      case Unresolved => Act(merged, Save(Conflicted(m, rv, remote)))
      case Broken => merged
  }

  /** One downloaded remote version is applied, merged, or recorded as a conflict. */
  function ApplyRemote(v: View, k: Key, merge: MergeFn, rv: nat, remote: Bytes): View {
    var m := Loaded(v.meta);
    if m.conflict then Act(v, Save(Conflicted(m, rv, remote)))
    else if v.value.None? then (if m.dirty then v else TakeRemote(v, rv, remote))
    else if !m.dirty && HasMergeBase(m) && v.value.value == m.baseValue then TakeRemote(v, rv, remote)
    else MergeRemote(v, k, merge, v.value.value, rv, remote)
  }

  /** Reconciliation with the item map: fetch and apply when the server is ahead. */
  function PullItem(v: View, k: Key, merge: MergeFn): View {
    var n := |v.hist|;
    if n <= Loaded(v.meta).version then v
    else ApplyRemote(Act(v, Open(n, v.hist[n - 1])), k, merge, n, v.hist[n - 1])
  }

  predicate Uploadable(v: View) {
    v.meta.Some? && v.meta.value.dirty && !v.meta.value.conflict && v.value.Some? && Fits(v.value.value)
  }

  /** An accepted upload and the record of its acknowledgement. */
  function UploadItem(v: View): View
    requires Uploadable(v)
  {
    Act(Act(v, Put(v.value.value)), Save(Clean(v.meta.value.version + 1, v.value.value)))
  }

  /** The retry after a refresh. */
  function RetryItem(v: View): View {
    if Uploadable(v) then UploadItem(v) else v
  }

  /** Flushing: upload, or have the upload refused, refresh and retry. */
  function FlushItem(v: View, k: Key, merge: MergeFn): View {
    if !Uploadable(v) then v
    else if |v.hist| <= v.meta.value.version then UploadItem(v)
    else RetryItem(PullItem(Act(v, Put(v.value.value)), k, merge))
  }

  /** A whole pass over one active item; `fetch` says whether the item map is read. */
  function PassItem(v: View, k: Key, merge: MergeFn, fetch: bool): View {
    var r := ReconcileItem(v);
    FlushItem(if fetch then PullItem(r, k, merge) else r, k, merge)
  }

  /** When the engine reads the item map: the server head moved or the active scope changed. */
  predicate Fetches(g: Global, c: ClientId, s: Scope)
    requires c in g.clients
  {
    g.head > g.clients[c].checkpoint.head || HashOf(s) != g.clients[c].checkpoint.scope
  }

  /** The effect of one undisturbed pass of client `c` with scope `s` on everything. */
  ghost predicate PassEffect(g: Global, h: Global, c: ClientId, s: Scope, merge: MergeFn)
    requires c in g.clients
  {
    && h.clients.Keys == g.clients.Keys
    && (forall d :: d in g.clients && d != c ==> h.clients[d] == g.clients[d])
    && (forall k ::
        ViewOf(h, c, k) ==
        if Active(s, k) then PassItem(ViewOf(g, c, k), k, merge, Fetches(g, c, s)) else ViewOf(g, c, k))
    && h.clients[c].checkpoint == Checkpoint(h.head, HashOf(s))
    && h.clients[c].mapReads == g.clients[c].mapReads + if Fetches(g, c, s) then 1 else 0
  }

  // ---- when the application's merge function fails -----------------------------------------------

  /** Applying `remote` asks for a merge, and that returns an error. */
  predicate ApplyBreaks(v: View, k: Key, merge: MergeFn, remote: Bytes) {
    var m := Loaded(v.meta);
    && !m.conflict && v.value.Some? && v.value.value != remote
    && !(!m.dirty && HasMergeBase(m) && v.value.value == m.baseValue)
    && merge(k, BaseOf(m), v.value.value, remote).Broken?
  }

  predicate PullBreaks(v: View, k: Key, merge: MergeFn) {
    Loaded(v.meta).version < |v.hist| && ApplyBreaks(v, k, merge, v.hist[|v.hist| - 1])
  }

  predicate FlushBreaks(v: View, k: Key, merge: MergeFn) {
    Uploadable(v) && PullBreaks(v, k, merge)
  }

  predicate PassBreaks(v: View, k: Key, merge: MergeFn, fetch: bool) {
    var r := ReconcileItem(v);
    (fetch && PullBreaks(r, k, merge)) || FlushBreaks(if fetch then PullItem(r, k, merge) else r, k, merge)
  }

  /** A pull is the download of the newest version and its application. */
  lemma PullIsDownload(v: View, k: Key, merge: MergeFn)
    requires Loaded(v.meta).version < |v.hist|
    ensures var n, x := |v.hist|, v.hist[|v.hist| - 1];
      && PullItem(v, k, merge) == ApplyRemote(Act(v, Open(n, x)), k, merge, n, x)
      && PullBreaks(v, k, merge) == ApplyBreaks(Act(v, Open(n, x)), k, merge, x)
  {
  }

  /** Applying what was downloaded, if it is news, is the pull. */
  lemma PullFromDownload(v: View, mid: View, v': View, k: Key, merge: MergeFn, n: nat, x: Bytes, ok: bool)
    requires n == |v.hist| && IsVersion(v.hist, n, x) && mid == Act(v, Open(n, x))
    requires Loaded(mid.meta).version < n ==> v' == ApplyRemote(mid, k, merge, n, x)
    requires ok == !(Loaded(mid.meta).version < n && ApplyBreaks(mid, k, merge, x))
    ensures Loaded(v.meta).version < |v.hist| ==> v' == PullItem(v, k, merge)
    ensures ok == !PullBreaks(v, k, merge)
  {
    if Loaded(v.meta).version < |v.hist| {
      PullIsDownload(v, k, merge);
    }
  }

  /** No merge that a pass of `c` over `s` asks for fails. */
  ghost predicate PassRunsClean(g: Global, c: ClientId, s: Scope, merge: MergeFn)
    requires c in g.clients
  {
    forall k :: Active(s, k) ==> !PassBreaks(ViewOf(g, c, k), k, merge, Fetches(g, c, s))
  }

  /** What is still to be uploaded after a pull builds on the newest version. */
  lemma PulledIsCurrent(v: View, k: Key, merge: MergeFn)
    requires Loaded(v.meta).version < |v.hist| && v.value.Some? && !PullBreaks(v, k, merge)
    ensures Loaded(PullItem(v, k, merge).meta).version == |v.hist| && PullItem(v, k, merge).hist == v.hist
  {
  }
}

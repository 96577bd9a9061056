/** The engine's work on one item under its logical-key lock (`bitboxsync/engine_items.go:109-478`,
    `bitboxsync/engine_snapshots.go:62-107`). */
module Engine {
  import opened Prelude
  import opened ItemState
  import opened ItemLog
  import opened Network
  import opened PassSpec
  import opened World

  datatype UploadResult =
    | Uploaded(version: nat, value: Bytes)
    | Permanent     // no current value, or too large: retrying cannot help
    | Precondition  // 412 or 428
    | Aborted(error: Error)

  /** The answer to the PUT behind an upload. */
  function OutcomeOf(res: UploadResult): PutOutcome
    requires !res.Permanent?
  {
    match res
    case Uploaded(version, _) => Accepted(version)
    case Precondition => Refused
    case Aborted(error) => Lost(error)
  }

  function StatusOf(res: UploadResult): Status {
    if res.Aborted? then Failed(res.error) else Ok
  }

  /** The record after a snapshot value was compared with it: queued if it differs from the clean base. */
  function Reconciled(m: Meta, value: Bytes): Meta {
    if m.conflict || m.dirty || (HasMergeBase(m) && value == m.baseValue) then m else Dirtied(m)
  }

  /** The record `m'` after version `rv` with plaintext `x` was applied to record `m`: clean or dirty on that
      version, or in conflict with it; only after a value race it stays as it was, and queued. */
  predicate Applied(m: Meta, m': Meta, rv: nat, x: Bytes, raced: bool) {
    if m.conflict then m' == Conflicted(m, rv, x)
    else m' == Clean(rv, x) || m' == DirtyOnBase(rv, x) || m' == Conflicted(m, rv, x) || (raced && m' == Dirtied(m))
  }

  /** ... after the merge function answered. */
  predicate Merged(m: Meta, m': Meta, outcome: MergeOutcome, rv: nat, x: Bytes, raced: bool) {
    match outcome
    case Resolved(y) => m' == if raced then Dirtied(m) else if y == x then Clean(rv, x) else DirtyOnBase(rv, x)
    case Unresolved => m' == Conflicted(m, rv, x)
    case Broken => false
  }

  /** Record `m` shows version `f` after it was downloaded: clean or dirty on top of it, or in conflict with it.
      Only if the application wrote in between may it be an older one, and is queued for upload. */
  predicate TookNote(m: Meta, f: Fetched, raced: bool) {
    || m == Clean(f.version, f.value) || m == DirtyOnBase(f.version, f.value)
    || (m.conflict && m.version == m.conflictVersion == f.version && m.conflictValue == f.value)
    || (raced && m.dirty && !m.conflict)
  }

  /** The application stored a value between the two histories. */
  predicate WroteSince(before: Log, after: Log) {
    exists i :: |before| <= i < |after| && after[i].AppWrote?
  }

  lemma WroteLater(earlier: Log, before: Log, after: Log, later: Log)
    requires WroteSince(before, after) && |earlier| <= |before| && after <= later
    ensures WroteSince(earlier, later)
  {
    var i :| |before| <= i < |after| && after[i].AppWrote?;
    assert later[i].AppWrote?;
  }

  /** Under the lock only the application changes the value. */
  lemma Overwritten(v: View, v': View)
    requires Drift(v, v', true) && v'.value != v.value
    ensures WroteSince(v.log, v'.log)
  {
    assert v'.log[|v.log|].AppWrote?;
  }

  /** Version `f` was downloaded and applied, unless the record had caught up with it. */
  predicate TakenIn(v: View, v': View, f: Fetched) {
    var m, m' := Loaded(v.meta), Loaded(v'.meta);
    if f.version <= m.version then m'.version == m.version else TookNote(m', f, WroteSince(v.log, v'.log))
  }

  lemma TakenInLater(v: View, mid: View, v': View, f: Fetched)
    requires |v.log| <= |mid.log| && Loaded(mid.meta).version == Loaded(v.meta).version
    ensures TakenIn(mid, v', f) ==> TakenIn(v, v', f)
  {
    if WroteSince(mid.log, v'.log) {
      WroteLater(v.log, mid.log, v'.log, v'.log);
    }
  }

  /** What an upload attempt asks the server: one PUT of the value it finds, guarded by the record, or none. */
  predicate UploadCalls(k: Key, v: View, res: UploadResult, cs: seq<Call>) {
    || (cs == [] && (res.Aborted? || (res.Permanent? && !Uploadable(v))))
    || (!res.Permanent? && v.value.Some? && Fits(v.value.value)
        && cs == [PutSent(k, Loaded(v.meta).version, v.value.value, OutcomeOf(res))]
        && (res.Uploaded? ==> res.value == v.value.value))
  }

  /** What one flush of item `k` asks the server: an upload, a download after a refusal, and once more. */
  predicate FlushCalls(k: Key, cs: seq<Call>) {
    && |cs| <= 4
    && (|cs| > 0 ==> cs[0].PutSent? && cs[0].key == k)
    && (|cs| > 1 ==> cs[0].outcome.Refused? && cs[1].GetSent? && cs[1].key == k)
    && (|cs| > 2 ==> cs[1].answer.Answer? && cs[1].answer.value.version >= cs[0].guard)
    && (|cs| > 2 ==> cs[2].PutSent? && cs[2].key == k)
    && (|cs| > 3 ==> cs[2].outcome.Refused? && cs[3].GetSent? && cs[3].key == k)
  }

  /** ... after the first refusal. */
  predicate RefreshCalls(k: Key, guard: nat, cs: seq<Call>) {
    && 1 <= |cs| <= 3 && cs[0].GetSent? && cs[0].key == k && FlushCalls(k, cs[1..])
    && (|cs| > 1 ==> cs[0].answer.Answer? && cs[0].answer.value.version >= guard)
  }

  /** Record `m` shows what the last call brought: an accepted upload, or a downloaded version. */
  predicate ShowsLast(m: Meta, cs: seq<Call>, raced: bool) {
    cs != [] ==>
      match cs[|cs| - 1]
      case PutSent(_, guard, x, outcome) => outcome.Accepted? && m == Clean(guard + 1, x)
      case GetSent(_, answer) => answer.Answer? && TookNote(m, answer.value, raced)
      case _ => false
  }

  /** A flush that succeeded: the record shows what the last call brought, and unless that was an upload or
      the second download, nothing is left to upload but what the application stored meanwhile. */
  predicate Flushed(v: View, v': View, cs: seq<Call>) {
    var raced := WroteSince(v.log, v'.log);
    && ShowsLast(Loaded(v'.meta), cs, raced)
    && (cs == [] || (cs[|cs| - 1].GetSent? && |cs| <= 2) ==> !Uploadable(v') || raced)
  }

  lemma FlushedLater(v: View, mid: View, v': View, first: seq<Call>, cs: seq<Call>)
    requires |v.log| <= |mid.log| && |first| <= 1 && (first == [] || cs != [])
    ensures Flushed(mid, v', cs) ==> Flushed(v, v', first + cs)
  {
    if WroteSince(mid.log, v'.log) {
      WroteLater(v.log, mid.log, v'.log, v'.log);
    }
  }

  /** A retry that succeeded: one upload, or a refused one and a download, or nothing was left to upload. */
  ghost predicate Retried(v: View, v': View, cs: seq<Call>) {
    && ShowsLast(Loaded(v'.meta), cs, WroteSince(v.log, v'.log))
    && (cs == [] ==> Drift(v, v', true) && (!Uploadable(v') || WroteSince(v.log, v'.log)))
  }

  lemma RetriedLater(v: View, mid: View, v': View, cs: seq<Call>)
    requires Drift(v, mid, true) && Retried(mid, v', cs)
    ensures Retried(v, v', cs)
  {
    if WroteSince(mid.log, v'.log) {
      WroteLater(v.log, mid.log, v'.log, v'.log);
    }
    if cs == [] {
      forall i | |v.log| <= i < |v'.log| ensures v'.log[i].AppWrote? {
        assert i < |mid.log| ==> v'.log[i] == mid.log[i];
      }
    }
  }

  /** A download that was taken note of, and then a retry. */
  lemma FlushedByRetry(v: View, mid: View, v': View, k: Key, answer: Reply<Fetched>, more: seq<Call>)
    requires v.log <= mid.log && FlushCalls(k, more) && |more| <= 2
    requires answer.Answer? && TookNote(Loaded(mid.meta), answer.value, WroteSince(v.log, mid.log))
    requires Retried(mid, v', more)
    ensures Flushed(v, v', [GetSent(k, answer)] + more)
  {
    if WroteSince(mid.log, v'.log) {
      WroteLater(v.log, mid.log, v'.log, v'.log);
    }
    if more == [] && WroteSince(v.log, mid.log) {
      WroteLater(v.log, v.log, mid.log, v'.log);
    }
  }

  /** What could not be uploaded before can be now only if the application wrote. */
  lemma StillNothingToUpload(v: View, v': View)
    requires Drift(v, v', true) && !Uploadable(v)
    ensures !Uploadable(v') || WroteSince(v.log, v'.log)
  {
    if v'.value != v.value {
      Overwritten(v, v');
    }
  }

  /** The last call downloaded a version older than the one the refused upload was guarded by. */
  predicate WentBack(cs: seq<Call>) {
    |cs| >= 2 && OlderThanGuard(cs[|cs| - 2], cs[|cs| - 1])
  }

  /** After a PUT of an item a version of it was downloaded that is older than the guard of the PUT. */
  predicate OlderThanGuard(put: Call, got: Call) {
    && put.PutSent? && got.GetSent? && got.key == put.key
    && got.answer.Answer? && got.answer.value.version < put.guard
  }

  predicate SomeWentBack(cs: seq<Call>) {
    exists i :: 0 <= i < |cs| - 1 && OlderThanGuard(cs[i], cs[i + 1])
  }

  /** An accepted PUT stays the last thing the engine did while the item is locked. */
  lemma PutIsLogged(v: View, x: Bytes, v': View)
    requires Drift(Act(v, Put(x)), v', true) && |v.hist| == Loaded(v.meta).version && v.value.Some?
    ensures AcceptedSince(v'.log, Loaded(v.meta).version + 1, x) && v'.value.Some?
  {
    SinceStays(v.log + [PutAccepted(Loaded(v.meta).version + 1, x)], v'.log);
  }

  lemma PutStops(k: Key, guard: nat, x: Bytes, res: UploadResult)
    requires !res.Permanent?
    ensures Stops([PutSent(k, guard, x, OutcomeOf(res))], StatusOf(res))
  {
  }

  /** There was nothing to upload when the past was `states`. */
  lemma IdleThen(states: seq<Global>, steps: seq<Action>, later: seq<Global>, more: seq<Action>, honest: bool,
          from: nat, c: ClientId, k: Key)
    requires PastOk(states, steps, honest) && PastOk(later, more, honest) && states[0] == later[0] && steps <= more
    requires from <= |steps| && !Uploadable(ViewOf(states[|steps|], c, k))
    ensures IdleSince(later, from, c, k)
  {
    StatesGrow(states, steps, later, more, honest);
    assert !Uploadable(ViewOf(later[|steps|], c, k));
  }

  /** A refused PUT and what followed it. */
  lemma RefusedAndRefreshed(calls: seq<Call>, k: Key, cs: seq<Call>, more: seq<Call>, st: Status)
    requires |cs| == 1 && FlushCalls(k, cs) && cs[0].outcome.Refused? && RefreshCalls(k, cs[0].guard, more)
    requires Stops(more, st) && (st == Failed(Rollback) <==> RefreshWentBack(cs[0].guard, more))
    ensures calls + cs + more == calls + (cs + more) && FlushCalls(k, cs + more) && Stops(cs + more, st)
    ensures st == Failed(Rollback) <==> WentBack(cs + more)
  {
    var all := cs + more;
    StopsLater(cs, more, st);
    assert all[0] == cs[0] && all[1] == more[0] && all[1..] == more;
    assert |more| > 1 ==> all[2] == more[1..][0] && all[|all| - 1] == more[1..][|more| - 2];
    assert |more| > 2 ==> all[|all| - 2] == more[1..][|more| - 3];
  }

  lemma FlushWentBack(k: Key, cs: seq<Call>)
    requires FlushCalls(k, cs)
    ensures WentBack(cs) <==> SomeWentBack(cs)
  {
    if WentBack(cs) {
      assert OlderThanGuard(cs[|cs| - 2], cs[|cs| - 2 + 1]);
    }
  }

  /** At some moment since there was nothing to upload. */
  ghost predicate IdleSince(states: seq<Global>, from: nat, c: ClientId, k: Key) {
    exists j :: from <= j < |states| && !Uploadable(ViewOf(states[j], c, k))
  }

  /** ... counting the PUT with this guard that was refused before. */
  predicate RefreshWentBack(guard: nat, cs: seq<Call>) {
    if |cs| == 1 then cs[0].GetSent? && cs[0].answer.Answer? && cs[0].answer.value.version < guard
    else |cs| > 1 && WentBack(cs[1..])
  }

  /** An undisturbed upload attempt against an honest server. */
  ghost predicate UploadSpec(v: View, res: UploadResult, v': View) {
    && !res.Aborted?
    && (res.Permanent? <==> v.value.None? || !Fits(v.value.value))
    && (res.Permanent? ==> v' == v)
    && (!res.Permanent? ==> v' == Act(v, Put(v.value.value)) && res.Uploaded? == (|v.hist| == Loaded(v.meta).version))
    && (res.Uploaded? ==> res.value == v.value.value)
  }

  /** ... and the record of its success. */
  ghost predicate SavedSpec(v: View, res: UploadResult, ns: Checkpoint, v': View, ns': Checkpoint) {
    && !res.Aborted? && (res.Permanent? <==> !Uploadable(v))
    && (res.Permanent? ==> v' == v && ns' == ns)
    && (res.Uploaded? ==> v' == UploadItem(v) && |v'.hist| == |v.hist| + 1 && ns' == ns.(head := ns.head + 1))
    && (res.Uploaded? ==> |v.hist| == Loaded(v.meta).version)
    && (res.Precondition? ==> v' == Act(v, Put(v.value.value)) && |v.hist| > Loaded(v.meta).version)
  }

  lemma UploadThenSave(v: View, res: UploadResult, v': View)
    requires v.meta.Some? && v.meta.value.dirty && !v.meta.value.conflict && res.Uploaded? && UploadSpec(v, res, v')
    requires res.version == v.meta.value.version + 1
    ensures Uploadable(v) && Act(v', Save(Clean(res.version, res.value))) == UploadItem(v)
    ensures |UploadItem(v).hist| == |v.hist| + 1
  {
  }

  /** An undisturbed flush of one item against an honest server. */
  ghost predicate FlushSpec(v: View, k: Key, merge: MergeFn, ns: Checkpoint, st: Status, v': View, ns': Checkpoint) {
    && st.Ok? && v' == PassSpec.FlushItem(v, k, merge)
    && |v'.hist| >= |v.hist| && ns' == ns.(head := ns.head + |v'.hist| - |v.hist|)
  }

  /** ... and of what follows a refusal. */
  ghost predicate RefreshSpec(v: View, k: Key, merge: MergeFn, ns: Checkpoint, st: Status, v': View, ns': Checkpoint) {
    && st.Ok? && v' == RetryItem(PullItem(v, k, merge))
    && |v'.hist| >= |v.hist| && ns' == ns.(head := ns.head + |v'.hist| - |v.hist|)
  }

  /** Without a refusal the first attempt is the flush. */
  lemma FlushedAtOnce(v: View, k: Key, merge: MergeFn, res: UploadResult, ns: Checkpoint, v': View, ns': Checkpoint)
    requires SavedSpec(v, res, ns, v', ns') && !res.Precondition? && v.meta.Some? && v.meta.value.dirty
    requires v.meta.value.version <= |v.hist| && (res.Uploaded? ==> |v.hist| <= v.meta.value.version)
    ensures FlushSpec(v, k, merge, ns, Ok, v', ns')
  {
  }

  /** An entry just added is found in every later history. */
  lemma EntryStays(log: Log, e: Event, later: Log)
    requires log + [e] <= later
    ensures e in later
  {
    assert later[|log|] == e;
  }

  lemma EntryKept(log: Log, e: Event, later: Log)
    requires log <= later && e in log
    ensures e in later
  {
    var i :| 0 <= i < |log| && log[i] == e;
    assert later[i] == e;
  }

  /** A downloaded version that is then written was written. */
  lemma DownloadThenWrite(log: Log, rv: nat, x: Bytes, p: Option<Bytes>, later: Log)
    requires Opened(rv, x) in log && log + [SyncWrote(p, x)] <= later
    ensures Written(later, rv, x)
  {
    var i :| 0 <= i < |log| && log[i] == Opened(rv, x);
    assert later[i] == log[i] && later[|log|] == SyncWrote(p, x);
    assert WrittenAt(later, rv, x, i, |log|);
  }

  /** A merge whose result is then written was made of a downloaded version. */
  lemma MergeThenWrite(v: View, b: Option<Bytes>, l: Bytes, rv: nat, x: Bytes, y: Bytes, later: Log)
    requires LogOk(v.log, v.hist) && MergeRan(b, l, rv, x, Resolved(y)) in v.log
    requires v.log + [SyncWrote(Some(l), y)] <= later
    ensures MergeWritten(later, b, rv, x) && (y == x ==> Written(later, rv, x))
  {
    var m :| 0 <= m < |v.log| && v.log[m] == MergeRan(b, l, rv, x, Resolved(y));
    LogOkAt(v.log, v.hist, m);
    var i :| 0 <= i < m && v.log[..m][i] == Opened(rv, x);
    var n := |v.log|;
    assert later[i] == v.log[i] && later[m] == v.log[m] && later[n] == SyncWrote(Some(l), y);
    assert MergeWrittenAt(later, b, rv, x, i, m, n) && (y == x ==> WrittenAt(later, rv, x, i, n));
  }

  lemma MaySaveClean(g: Global, c: ClientId, k: Key, rv: nat, x: Bytes)
    requires c in g.clients && !RecordOf(g, c, k).conflict && RecordOf(g, c, k).version < rv
        && SlotOf(g, c, k).value.Some? && SeenOf(g, c, k) <= rv
    requires Written(SlotOf(g, c, k).log, rv, x)
    ensures Enables(g, OnItem(c, k, Save(Clean(rv, x))))
  {
  }

  lemma MaySaveMerged(g: Global, c: ClientId, k: Key, y: Bytes, rv: nat, x: Bytes)
    requires c in g.clients && !RecordOf(g, c, k).conflict && RecordOf(g, c, k).version < rv
        && SlotOf(g, c, k).value.Some? && SeenOf(g, c, k) <= rv
    requires MergeWritten(SlotOf(g, c, k).log, BaseOf(RecordOf(g, c, k)), rv, x)
    requires y == x ==> Written(SlotOf(g, c, k).log, rv, x)
    ensures Enables(g, OnItem(c, k, Save(if y == x then Clean(rv, x) else DirtyOnBase(rv, x))))
  {
    if y == x {
      MaySaveClean(g, c, k, rv, x);
    }
  }

  lemma MaySaveConflict(g: Global, c: ClientId, k: Key, local: Bytes, rv: nat, x: Bytes)
    requires c in g.clients && RecordOf(g, c, k).version < rv && SlotOf(g, c, k).value.Some? && SeenOf(g, c, k) <= rv
    requires Opened(rv, x) in SlotOf(g, c, k).log
    requires RecordOf(g, c, k).conflict
        || MergeRan(BaseOf(RecordOf(g, c, k)), local, rv, x, Unresolved) in SlotOf(g, c, k).log
    ensures Enables(g, OnItem(c, k, Save(Conflicted(RecordOf(g, c, k), rv, x))))
  {
  }

  class Engine {
    const w: World
    const c: ClientId
    const merge: MergeFn
    const registered: seq<string>  // the collections opened so far, each once

    constructor (w: World, c: ClientId, merge: MergeFn, registered: seq<string>)
      ensures this.w == w && this.c == c && this.merge == merge && this.registered == registered
    {
      this.w, this.c, this.merge, this.registered := w, c, merge, registered;
    }

    ghost predicate Ready()
      reads w`g, w`states, w`steps
    {
      w.Valid() && c in w.g.clients
    }

    function View(k: Key): View
      reads w`g
    {
      ViewOf(w.g, c, k)
    }

    function Stored(k: Key): Meta
      reads w`g
    {
      RecordOf(w.g, c, k)
    }

    function Ledger(): (Checkpoint, map<Key, nat>, nat)
      reads w`g
    {
      LedgerOf(w.g, c)
    }

    function Seen(k: Key): nat
      reads w`g
    {
      SeenOf(w.g, c, k)
    }

    /** Version `rv` is news to the stored record. */
    ghost predicate News(k: Key, rv: nat)
      reads w`g
    {
      Stored(k).version <= rv && (w.honest ==> Stored(k).version < rv && Seen(k) <= rv)
    }

    /** Version `rv` with plaintext `x` was downloaded and is news to the stored record. */
    ghost predicate Downloaded(k: Key, rv: nat, x: Bytes)
      reads w`g
    {
      News(k, rv) && (w.honest ==> Opened(rv, x) in View(k).log)
    }

    method KeepDirtyAfterValueRace(k: Key, item: Item) returns (st: Status)
      requires Ready() && View(k).value.Some? && !Stored(k).conflict
      requires item.Record() == Stored(k) || item.Record() == Dirtied(Stored(k))
      modifies w`g, w`states, w`steps, w`faults, item
      ensures w.faults == Blamed(old(w.faults), st)
      ensures Ready() && Session(c, {k}, w.calm, old(w.steps), w.steps) && Ledger() == old(Ledger())
      ensures st.Ok? ==> Stored(k) == Dirtied(old(Stored(k)))
      ensures st.Failed? ==> st.error.Unavailable?
    {
      w.Shaped(c, k);
      item.MarkDirty();
      st := w.SaveItem(c, k, item.Record());
    }

    /** The remote value was written: the item is clean at that version. */
    method StoreClean(k: Key, item: Item, rv: nat, x: Bytes) returns (st: Status)
      requires Ready() && News(k, rv) && !Stored(k).conflict && View(k).value.Some?
      requires w.honest ==> Written(View(k).log, rv, x)
      modifies w`g, w`states, w`steps, w`faults, item
      ensures w.faults == Blamed(old(w.faults), st)
      ensures Ready() && Session(c, {k}, w.calm, old(w.steps), w.steps) && Ledger() == old(Ledger())
      ensures st.Ok? ==> Stored(k) == Clean(rv, x)
      ensures st.Failed? ==> st.error.Unavailable?
      ensures w.calm ==> st.Ok? && View(k) == Act(old(View(k)), Save(Clean(rv, x)))
    {
      if w.honest {
        MaySaveClean(w.g, c, k, rv, x);
      }
      item.MarkClean(rv, x);
      st := w.SaveItem(c, k, item.Record());
    }

    /** The merge left version `rv` unresolved, or the item was in conflict before. */
    method StoreConflict(k: Key, item: Item, rv: nat, x: Bytes, ghost local: Bytes) returns (st: Status)
      requires Ready() && Downloaded(k, rv, x) && (w.honest ==> View(k).value.Some?)
      requires item.Record() == Stored(k) || item.Record() == Dirtied(Stored(k))
      requires w.honest ==> Stored(k).conflict || MergeRan(BaseOf(Stored(k)), local, rv, x, Unresolved) in View(k).log
      modifies w`g, w`states, w`steps, w`faults, item
      ensures w.faults == Blamed(old(w.faults), st)
      ensures Ready() && Session(c, {k}, w.calm, old(w.steps), w.steps) && Ledger() == old(Ledger())
      ensures st.Ok? ==> Stored(k) == Conflicted(old(Stored(k)), rv, x)
      ensures st.Failed? ==> st.error.Unavailable?
      ensures w.calm ==> st.Ok? && View(k) == Act(old(View(k)), Save(Conflicted(old(Stored(k)), rv, x)))
    {
      if w.honest {
        MaySaveConflict(w.g, c, k, local, rv, x);
      }
      w.Shaped(c, k);
      item.MarkConflict(rv, x);
      st := w.SaveItem(c, k, item.Record());
    }

    method ApplyCleanRemoteValue(k: Key, item: Item, rv: nat, x: Bytes, current: Option<Bytes>) returns (st: Status)
      requires Ready() && Downloaded(k, rv, x) && !Stored(k).conflict
      requires item.Record() == Stored(k) || item.Record() == Dirtied(Stored(k))
      requires current.Some? ==> View(k).value.Some?
      requires current.Some? ==>
          current.value == x || (!Stored(k).dirty && HasMergeBase(Stored(k)) && current.value == Stored(k).baseValue)
      modifies w`g, w`states, w`steps, w`faults, item
      ensures w.faults == Blamed(old(w.faults), st)
      ensures Ready() && Session(c, {k}, w.calm, old(w.steps), w.steps) && Ledger() == old(Ledger())
      ensures st.Ok? ==> Stored(k) == if old(View(k)).value != current then Dirtied(old(Stored(k))) else Clean(rv, x)
      ensures st.Failed? ==> st.error.Unavailable?
      ensures w.calm && current == old(View(k).value) ==> st.Ok? && View(k) == TakeRemote(old(View(k)), rv, x)
    {
      assert w.honest ==> MayWrite(View(k).(value := current), current, x, rv, x);
      var replaced;
      st, replaced := w.SetIfCurrent(c, k, current, x, rv, x);
      if st.Failed? {
        return;
      }
      if !replaced {
        st := KeepDirtyAfterValueRace(k, item);
        return;
      }
      if w.honest {
        DownloadThenWrite(old(View(k).log), rv, x, current, View(k).log);
      }
      st := StoreClean(k, item, rv, x);
    }

    /** A resolved merge: the merged value goes to the backend, the remote one becomes the base. */
    method StoreMerged(k: Key, item: Item, rv: nat, x: Bytes, local: Bytes, y: Bytes) returns (st: Status)
      requires Ready() && Downloaded(k, rv, x) && !Stored(k).conflict && View(k).value.Some?
      requires item.Record() == Stored(k) || item.Record() == Dirtied(Stored(k))
      requires w.honest ==> MergeRan(BaseOf(Stored(k)), local, rv, x, Resolved(y)) in View(k).log
      modifies w`g, w`states, w`steps, w`faults, item
      ensures w.faults == Blamed(old(w.faults), st)
      ensures Ready() && Session(c, {k}, w.calm, old(w.steps), w.steps) && Ledger() == old(Ledger())
      ensures st.Ok? ==> Merged(old(Stored(k)), Stored(k), Resolved(y), rv, x, old(View(k)).value != Some(local))
      ensures st.Failed? ==> st.error.Unavailable?
      ensures w.calm && Some(local) == old(View(k).value) ==>
        && st.Ok?
        && View(k) == Act(Act(old(View(k)), WriteValue(Some(local), y, rv, x)),
                          Save(if y == x then Clean(rv, x) else DirtyOnBase(rv, x)))
    {
      assert w.honest ==> MayWrite(View(k).(value := Some(local)), Some(local), y, rv, x);
      ghost var before := View(k);
      if w.honest {
        w.Known(c, k);
      }
      var replaced;
      st, replaced := w.SetIfCurrent(c, k, Some(local), y, rv, x);
      if st.Failed? {
        return;
      }
      if !replaced {
        st := KeepDirtyAfterValueRace(k, item);
        return;
      }
      if w.honest {
        MergeThenWrite(before, BaseOf(Stored(k)), local, rv, x, y, View(k).log);
      }
      st := SaveMerged(k, item, rv, x, y);
    }

    /** The merge result was written: the item is queued on top of the remote version, unless it is just that. */
    method SaveMerged(k: Key, item: Item, rv: nat, x: Bytes, y: Bytes) returns (st: Status)
      requires Ready() && News(k, rv) && !Stored(k).conflict && View(k).value.Some?
      requires w.honest ==> MergeWritten(View(k).log, BaseOf(Stored(k)), rv, x)
      requires w.honest && y == x ==> Written(View(k).log, rv, x)
      modifies w`g, w`states, w`steps, w`faults, item
      ensures w.faults == Blamed(old(w.faults), st)
      ensures Ready() && Session(c, {k}, w.calm, old(w.steps), w.steps) && Ledger() == old(Ledger())
      ensures st.Ok? ==> Stored(k) == if y == x then Clean(rv, x) else DirtyOnBase(rv, x)
      ensures st.Failed? ==> st.error.Unavailable?
      ensures w.calm ==>
          st.Ok? && View(k) == Act(old(View(k)), Save(if y == x then Clean(rv, x) else DirtyOnBase(rv, x)))
    {
      if w.honest {
        MaySaveMerged(w.g, c, k, y, rv, x);
      }
      if y == x {
        item.MarkClean(rv, x);
      } else {
        item.MarkDirtyWithBase(rv, x);
      }
      st := w.SaveItem(c, k, item.Record());
    }

    /** The local value differs from the clean base, or is dirty: compare, merge or conflict. */
    method MergeRemoteValue(k: Key, item: Item, rv: nat, x: Bytes, local: Bytes) returns (st: Status, ghost raced: bool)
      requires Ready() && Downloaded(k, rv, x) && !Stored(k).conflict && View(k).value.Some?
      requires item.Record() == Stored(k) || item.Record() == Dirtied(Stored(k))
      requires w.honest ==> HeldSince(View(k).log, local)
      modifies w`g, w`states, w`steps, w`faults, item
      ensures w.faults == Blamed(old(w.faults), st)
      ensures Ready() && Session(c, {k}, w.calm, old(w.steps), w.steps) && Ledger() == old(Ledger())
      ensures st.Ok? ==> Applied(old(Stored(k)), Stored(k), rv, x, raced)
      ensures raced ==> old(View(k)).value != Some(local) || WroteSince(old(View(k).log), View(k).log)
      ensures st.Failed? ==> st.error.Unavailable? || st.error.MergeFailed?
      ensures local != x && merge(k, BaseOf(old(Stored(k))), local, x).Broken? ==> st == Failed(MergeFailed)
      ensures st == Failed(MergeFailed) ==> local != x && merge(k, BaseOf(old(Stored(k))), local, x).Broken?
      ensures w.calm && Some(local) == old(View(k).value) ==>
          View(k) == MergeRemote(old(View(k)), k, merge, local, rv, x)
      ensures w.calm && Some(local) == old(View(k).value) ==>
          st.Failed? == (local != x && merge(k, BaseOf(old(Stored(k))), local, x).Broken?)
    {
      if local == x {
        raced := View(k).value != Some(local);
        st := ApplyCleanRemoteValue(k, item, rv, x, Some(local));
      } else {
        st, raced := RunMergePolicy(k, item, rv, x, local);
      }
    }

    /** The collection's merge function decides. */
    method RunMergePolicy(k: Key, item: Item, rv: nat, x: Bytes, local: Bytes) returns (st: Status, ghost raced: bool)
      requires Ready() && Downloaded(k, rv, x) && !Stored(k).conflict && View(k).value.Some? && local != x
      requires item.Record() == Stored(k) || item.Record() == Dirtied(Stored(k))
      requires w.honest ==> HeldSince(View(k).log, local)
      modifies w`g, w`states, w`steps, w`faults, item
      ensures w.faults == Blamed(old(w.faults), st)
      ensures Ready() && Session(c, {k}, w.calm, old(w.steps), w.steps) && Ledger() == old(Ledger())
      ensures st.Ok? ==> Merged(old(Stored(k)), Stored(k), merge(k, BaseOf(old(Stored(k))), local, x), rv, x, raced)
      ensures raced ==> old(View(k)).value != Some(local) || WroteSince(old(View(k).log), View(k).log)
      ensures st.Failed? ==> st.error.Unavailable? || st.error.MergeFailed?
      ensures st == Failed(MergeFailed) <==> merge(k, BaseOf(old(Stored(k))), local, x).Broken?
      ensures w.calm && Some(local) == old(View(k).value) ==>
          View(k) == MergeRemote(old(View(k)), k, merge, local, rv, x)
      ensures w.calm && Some(local) == old(View(k).value) ==>
          st.Failed? == merge(k, BaseOf(old(Stored(k))), local, x).Broken?
    {
      raced := false;
      var base := BaseOf(item.Record());
      var outcome := merge(k, base, local, x);
      st := w.NoteMerge(c, k, base, local, rv, x, outcome);
      EntryStays(old(View(k).log), MergeRan(base, local, rv, x, outcome), View(k).log);
      if w.honest {
        EntryKept(old(View(k).log), Opened(rv, x), View(k).log);
      }
      match outcome
      case Broken =>
      case Resolved(y) =>
        ghost var merged, s0, g0 := View(k), w.steps, w.g;
        raced := merged.value != Some(local);
        w.PastHere();
        st := StoreMerged(k, item, rv, x, local, y);
        w.PastHere();
        LogGrows(w.start, w.honest, s0, g0, w.steps, w.g, c, k);
        if raced && old(View(k)).value == Some(local) {
          Overwritten(Act(old(View(k)), RunMerge(base, local, rv, x, outcome)), merged);
          WroteLater(old(View(k).log), old(View(k).log) + [MergeRan(base, local, rv, x, outcome)], merged.log,
                     View(k).log);
        }
      case Unresolved =>
        st := StoreConflict(k, item, rv, x, local);
    }

    /** The record after version `rv` was applied; it keeps an older version only if the application wrote since
        the value was read. */
    method ApplyRemoteValueLocked(k: Key, item: Item, rv: nat, x: Bytes) returns (st: Status)
      requires Ready() && Downloaded(k, rv, x) && item.Record() == Stored(k)
      modifies w`g, w`states, w`steps, w`faults, item
      ensures w.faults == Blamed(old(w.faults), st)
      ensures Ready() && Session(c, {k}, w.calm, old(w.steps), w.steps) && Ledger() == old(Ledger())
      ensures st.Ok? ==> Applied(old(Stored(k)), Stored(k), rv, x, WroteSince(old(View(k).log), View(k).log))
      ensures st == Failed(NotFound) ==> Stored(k).dirty && old(View(k)).value.None?
      ensures st.Failed? ==> (Mundane(st) && st != Failed(Unauthorized)) || st.error.NotFound?
      ensures w.honest ==> Mundane(st)
      ensures w.calm && w.honest ==> View(k) == ApplyRemote(old(View(k)), k, merge, rv, x)
      ensures w.calm && w.honest ==> st.Ok? == !ApplyBreaks(old(View(k)), k, merge, x)
    {
      w.Shaped(c, k);
      if w.honest {
        w.Known(c, k);
      }
      if item.conflict {
        st := StoreConflict(k, item, rv, x, []);
        return;
      }
      var local: Option<Bytes>;
      st, local := w.ReadValue(c, k, item.dirty);
      if st.Failed? {
        return;
      }
      ghost var read := View(k);
      if w.honest {
        EntryKept(old(View(k).log), Opened(rv, x), View(k).log);
      }
      ghost var raced;
      st, raced := ApplyToValue(k, item, rv, x, local);
      if raced && read.value != local {
        Overwritten(old(View(k)), read);
        WroteLater(old(View(k).log), old(View(k).log), read.log, View(k).log);
      } else if raced {
        WroteLater(old(View(k).log), read.log, View(k).log, View(k).log);
      }
    }

    /** ... once the value is read. */
    method ApplyToValue(k: Key, item: Item, rv: nat, x: Bytes, local: Option<Bytes>)
      returns (st: Status, ghost raced: bool)
      requires Ready() && Downloaded(k, rv, x) && item.Record() == Stored(k) && !Stored(k).conflict
      requires Stored(k).dirty ==> local.Some?
      requires local.Some? ==> View(k).value.Some? && (w.honest ==> HeldSince(View(k).log, local.value))
      modifies w`g, w`states, w`steps, w`faults, item
      ensures w.faults == Blamed(old(w.faults), st)
      ensures Ready() && Session(c, {k}, w.calm, old(w.steps), w.steps) && Ledger() == old(Ledger())
      ensures st.Ok? ==> Applied(old(Stored(k)), Stored(k), rv, x, raced)
      ensures old(View(k)).log <= View(k).log
      ensures raced ==> old(View(k)).value != local || WroteSince(old(View(k).log), View(k).log)
      ensures st.Failed? ==> st.error.Unavailable? || st.error.MergeFailed?
      ensures w.calm && w.honest && local == old(View(k)).value ==>
          View(k) == ApplyRemote(old(View(k)), k, merge, rv, x) && st.Ok? == !ApplyBreaks(old(View(k)), k, merge, x)
    {
      raced := View(k).value != local;
      ghost var s0, g0 := w.steps, w.g;
      w.PastHere();
      if !item.dirty && (local.None? || (HasMergeBase(item.Record()) && local.value == item.baseValue)) {
        st := ApplyCleanRemoteValue(k, item, rv, x, local);
      } else {
        if !item.dirty {
          item.MarkDirty();
        }
        st, raced := MergeRemoteValue(k, item, rv, x, local.value);
      }
      w.PastHere();
      LogGrows(w.start, w.honest, s0, g0, w.steps, w.g, c, k);
    }

    // ---- pulling one item ----------------------------------------------------------------------

    /** GET of one item, as the engine remembers it afterwards. */
    method Download(k: Key, locked: bool) returns (st: Status, version: nat, value: Bytes)
      requires Ready()
      modifies w`g, w`states, w`steps, w`faults, w`calls
      ensures w.faults == Blamed(old(w.faults), st)
      ensures w.calls == old(w.calls) + [GetSent(k, ReplyOf(st, Fetched(version, value)))]
      ensures Ready() && Session(c, {k}, w.calm, old(w.steps), w.steps) && Ledger() == old(Ledger())
      ensures Stored(k).version == old(Stored(k)).version && (locked ==> Stored(k) == old(Stored(k)))
      ensures st.Ok? ==> Drift(Act(old(View(k)), Open(version, value)), View(k), locked)
      ensures st.Failed? ==> st.error.Unavailable? || st.error.Unauthorized?
      ensures w.honest && st.Ok? ==> version == old(|View(k).hist|) && IsVersion(old(View(k)).hist, version, value)
      ensures w.honest && st.Ok? ==> Opened(version, value) in View(k).log && Seen(k) <= version
      ensures w.honest && st.Ok? && old(Stored(k)).version < old(|View(k).hist|) ==> Downloaded(k, version, value)
      ensures w.calm && w.honest && old(|View(k).hist|) > 0 ==>
          st.Ok? && View(k) == Act(old(View(k)), Open(version, value))
    {
      w.Shaped(c, k);
      if w.honest {
        w.Known(c, k);
      }
      ghost var before := View(k);
      st, version, value := w.GetItem(c, k, locked);
      DriftKeepsVersion(before, View(k), 0);
      if st.Ok? {
        EntryStays(before.log, Opened(version, value), View(k).log);
      }
    }

    /** `fetchAndApplyRemoteItem`: `known` is the version in the caller's list, `announced` the one in
        the item map. The download happens before the lock is taken. */
    method FetchAndApplyRemoteItem(k: Key, known: nat, announced: nat)
      returns (st: Status, ghost answer: Reply<Fetched>)
      requires Ready() && known <= Stored(k).version
      requires w.honest ==> known < announced <= |View(k).hist|
      modifies w`g, w`states, w`steps, w`faults, w`calls
      ensures w.faults == Blamed(old(w.faults), st)
      ensures w.calls == old(w.calls) + [GetSent(k, answer)] && Stops([GetSent(k, answer)], st)
      ensures st == Failed(NotFound) ==> Stored(k).dirty && old(View(k)).value.None?
      ensures Ready() && Session(c, {k}, w.calm, old(w.steps), w.steps) && Ledger() == old(Ledger())
      ensures st.Ok? ==> answer.Answer? && known <= answer.value.version && announced <= answer.value.version
      ensures st.Ok? ==> TakenIn(old(View(k)), View(k), answer.value)
      ensures st == Failed(Rollback) <==>
          answer.Answer? && (answer.value.version < known || answer.value.version < announced)
      ensures st == Failed(Rollback) ==>
          Drift(Act(old(View(k)), Open(answer.value.version, answer.value.value)), View(k), false)
      ensures w.honest ==> Mundane(st)
      ensures w.calm && w.honest && old(Stored(k).version < |View(k).hist|) ==>
          View(k) == PullItem(old(View(k)), k, merge)
      ensures w.calm && w.honest ==> st.Ok? == !PullBreaks(old(View(k)), k, merge)
    {
      if w.honest {
        w.Known(c, k);
      }
      w.Shaped(c, k);
      var version, value;
      st, version, value := Download(k, false);
      answer := ReplyOf(st, Fetched(version, value));
      if st.Failed? {
        return;
      }
      if version < known || version < announced {
        st := Failed(Rollback);
        return;
      }
      ghost var downloaded := View(k);
      st := ApplyDownload(k, version, value);
      if w.calm && w.honest {
        PullFromDownload(old(View(k)), downloaded, View(k), k, merge, version, value, st.Ok?);
      }
      TakenInLater(old(View(k)), downloaded, View(k), Fetched(version, value));
    }

    /** The rest of `fetchAndApplyRemoteItem`, under the lock: the record may have caught up meanwhile. */
    method ApplyDownload(k: Key, version: nat, value: Bytes) returns (st: Status)
      requires Ready() && (w.honest ==> Opened(version, value) in View(k).log && Seen(k) <= version)
      modifies w`g, w`states, w`steps, w`faults
      ensures w.faults == Blamed(old(w.faults), st)
      ensures Ready() && Session(c, {k}, w.calm, old(w.steps), w.steps) && Ledger() == old(Ledger())
      ensures st.Ok? ==> TakenIn(old(View(k)), View(k), Fetched(version, value))
      ensures st.Failed? ==> (Mundane(st) && st != Failed(Unauthorized)) || st.error.NotFound?
      ensures st == Failed(NotFound) ==> Stored(k).dirty && old(View(k)).value.None?
      ensures w.honest ==> Mundane(st)
      ensures w.calm && w.honest && old(Stored(k)).version < version ==>
          View(k) == ApplyRemote(old(View(k)), k, merge, version, value)
      ensures w.calm && w.honest ==>
          st.Ok? == !(old(Stored(k)).version < version && ApplyBreaks(old(View(k)), k, merge, value))
    {
      var loaded;
      st, loaded := w.LoadItem(c, k);
      if st.Failed? {
        return;
      }
      var item := new Item(Loaded(loaded));
      if item.version >= version {
        return;
      }
      if w.honest {
        EntryKept(old(View(k).log), Opened(version, value), View(k).log);
      }
      ghost var locked := View(k);
      st := ApplyRemoteValueLocked(k, item, version, value);
      if WroteSince(locked.log, View(k).log) {
        WroteLater(old(View(k).log), locked.log, View(k).log, View(k).log);
      }
    }

    /** `fetchAndApplyRemoteItemForConflictLocked`: refresh after a refused upload. */
    method FetchAndApplyForConflictLocked(k: Key, item: Item) returns (st: Status, ghost answer: Reply<Fetched>)
      requires Ready() && item.Record() == Stored(k)
      requires w.honest ==> Stored(k).version < |View(k).hist|
      modifies w`g, w`states, w`steps, w`faults, w`calls, item
      ensures w.faults == Blamed(old(w.faults), st)
      ensures w.calls == old(w.calls) + [GetSent(k, answer)] && Stops([GetSent(k, answer)], st)
      ensures st == Failed(NotFound) ==> Stored(k).dirty && old(View(k)).value.None?
      ensures Ready() && Session(c, {k}, w.calm, old(w.steps), w.steps) && Ledger() == old(Ledger())
      ensures st.Ok? ==>
          answer.Answer? && TookNote(Stored(k), answer.value, WroteSince(old(View(k).log), View(k).log))
      ensures st == Failed(Rollback) <==> answer.Answer? && answer.value.version < old(Stored(k)).version
      ensures st == Failed(Rollback) ==>
          Drift(Act(old(View(k)), Open(answer.value.version, answer.value.value)), View(k), true)
      ensures w.honest ==> Mundane(st)
      ensures w.honest && answer.Answer? ==> answer.value.version == old(|View(k).hist|)
      ensures w.calm && w.honest ==> View(k) == PullItem(old(View(k)), k, merge)
      ensures w.calm && w.honest ==> st.Ok? == !PullBreaks(old(View(k)), k, merge)
    {
      var version, value;
      st, version, value := Download(k, true);
      answer := ReplyOf(st, Fetched(version, value));
      if st.Failed? {
        return;
      }
      if version < item.version {
        st := Failed(Rollback);
        return;
      }
      ghost var downloaded := View(k);
      st := ApplyRemoteValueLocked(k, item, version, value);
      if w.calm && w.honest {
        PullFromDownload(old(View(k)), downloaded, View(k), k, merge, version, value, st.Ok?);
      }
      if WroteSince(downloaded.log, View(k).log) {
        WroteLater(old(View(k).log), downloaded.log, View(k).log, View(k).log);
      }
    }

    // ---- uploading one item --------------------------------------------------------------------

    /** One PUT of value `x`, guarded by the stored version. */
    method PutValue(k: Key, item: Item, x: Bytes) returns (res: UploadResult)
      requires Ready() && item.Record() == Stored(k) && Stored(k).dirty && !Stored(k).conflict && Fits(x)
      requires w.honest ==> HeldSince(View(k).log, x) && View(k).value.Some?
      modifies w`g, w`states, w`steps, w`faults, w`calls
      ensures w.faults == Blamed(old(w.faults), StatusOf(res))
      ensures !res.Permanent? && w.calls == old(w.calls) + [PutSent(k, Stored(k).version, x, OutcomeOf(res))]
      ensures Ready() && Session(c, {k}, w.calm, old(w.steps), w.steps)
      ensures Stored(k) == old(Stored(k)) && Ledger() == old(Ledger()) && old(View(k)).log <= View(k).log
      ensures res.Aborted? ==> res.error.Unavailable? || res.error.Unauthorized?
      ensures res.Uploaded? ==> res.version == Stored(k).version + 1 && res.value == x
      ensures w.honest && res.Uploaded? ==>
          AcceptedSince(View(k).log, res.version, x) && View(k).value.Some? && Seen(k) < res.version
      ensures w.honest && res.Precondition? ==> Stored(k).version < |View(k).hist|
      ensures w.calm && w.honest ==>
          View(k) == Act(old(View(k)), Put(x)) && res.Uploaded? == (|old(View(k)).hist| == old(Stored(k)).version)
              && !res.Aborted?
    {
      assert w.honest ==> Stored(k).version <= |View(k).hist| by {
        if w.honest {
          w.Known(c, k);
        }
      }
      ghost var before := View(k);
      var out := w.PutItem(c, k, item.version, x);
      match out
      case Accepted(version) =>
        if w.honest {
          PutIsLogged(before, x, View(k));
        }
        res := Uploaded(version, x);
      case Refused => res := Precondition;
      case Lost(error) => res := Aborted(error);
    }

    /** The `upload` closure of `flushDirtyItems`. */
    method Upload(k: Key, item: Item) returns (res: UploadResult, ghost cs: seq<Call>)
      requires Ready() && item.Record() == Stored(k) && Stored(k).dirty && !Stored(k).conflict
      modifies w`g, w`states, w`steps, w`faults, w`calls
      ensures w.faults == Blamed(old(w.faults), StatusOf(res))
      ensures w.calls == old(w.calls) + cs && UploadCalls(k, old(View(k)), res, cs)
      ensures Stops(cs, StatusOf(res))
      ensures Ready() && Session(c, {k}, w.calm, old(w.steps), w.steps)
      ensures Stored(k) == old(Stored(k)) && Ledger() == old(Ledger()) && old(View(k)).log <= View(k).log
      ensures res.Permanent? ==> Drift(old(View(k)), View(k), true)
      ensures res.Aborted? ==> res.error.Unavailable? || res.error.Unauthorized?
      ensures res.Uploaded? ==> res.version == Stored(k).version + 1
      ensures w.honest && res.Uploaded? ==>
          AcceptedSince(View(k).log, res.version, res.value) && View(k).value.Some? && Seen(k) < res.version
      ensures w.honest && res.Precondition? ==> Stored(k).version < |View(k).hist|
      ensures w.calm && w.honest ==> UploadSpec(old(View(k)), res, View(k))
    {
      cs := [];
      if w.honest {
        w.Known(c, k);
      }
      var st, current := w.ReadValue(c, k, false);
      if st.Failed? {
        res := Aborted(st.error);
        return;
      }
      if current.None? || !Fits(current.value) {
        res := Permanent;
        return;
      }
      res := PutValue(k, item, current.value);
      cs := [PutSent(k, Stored(k).version, current.value, OutcomeOf(res))];
      PutStops(k, Stored(k).version, current.value, res);
    }

    /** The `saveUpload` closure: record the acknowledged version, then count it in the saved head. */
    method SaveUpload(k: Key, item: Item, ns: Checkpoint, version: nat, value: Bytes)
      returns (st: Status, ns': Checkpoint)
      requires Ready() && Stored(k).dirty && !Stored(k).conflict && version == Stored(k).version + 1 && ns == Ledger().0
      requires w.honest ==> AcceptedSince(View(k).log, version, value) && View(k).value.Some? && Seen(k) < version
      modifies w`g, w`states, w`steps, w`faults, item
      ensures w.faults == Blamed(old(w.faults), st)
      ensures Ready() && Session(c, {k}, w.calm, old(w.steps), w.steps)
      ensures st.Ok? ==> Stored(k) == Clean(version, value)
      ensures st.Ok? ==> ns' == Ledger().0 && ns' == ns.(head := ns.head + 1)
      ensures st.Failed? ==> st.error.Unavailable?
      ensures w.calm ==> st.Ok? && View(k) == Act(old(View(k)), Save(Clean(version, value)))
      ensures Ledger().2 == old(Ledger().2)
    {
      ns' := ns;
      item.MarkClean(version, value);
      st := w.SaveItem(c, k, item.Record());
      if st.Failed? {
        return;
      }
      ns' := ns.(head := ns.head + 1);
      st := w.SaveBumpedHead(c, k, ns');
    }

    /** An upload attempt and the record of its success. */
    method UploadAndSave(k: Key, item: Item, ns: Checkpoint)
      returns (res: UploadResult, ns': Checkpoint, ghost cs: seq<Call>)
      requires Ready() && item.Record() == Stored(k) && Stored(k).dirty && !Stored(k).conflict && ns == Ledger().0
      modifies w`g, w`states, w`steps, w`faults, w`calls, item
      ensures w.faults == Blamed(old(w.faults), StatusOf(res))
      ensures w.calls == old(w.calls) + cs && FlushCalls(k, cs) && |cs| <= 1
      ensures Stops(cs, StatusOf(res))
      ensures cs == [] ==> res.Aborted? || (res.Permanent? && !Uploadable(old(View(k))))
      ensures res.Permanent? ==> Drift(old(View(k)), View(k), true)
      ensures cs != [] ==> !res.Permanent? && cs[0].guard == old(Stored(k)).version
      ensures !res.Aborted? ==> (res.Precondition? <==> cs != [] && cs[0].outcome.Refused?)
      ensures res.Uploaded? ==> ShowsLast(Stored(k), cs, false)
      ensures Ready() && Session(c, {k}, w.calm, old(w.steps), w.steps)
      ensures !res.Aborted? ==> ns' == Ledger().0
      ensures res.Aborted? ==> res.error.Unavailable? || res.error.Unauthorized?
      ensures res.Precondition? ==>
          ns' == ns && item.Record() == Stored(k) == old(Stored(k)) && old(View(k)).log <= View(k).log
      ensures w.honest && res.Precondition? ==> Stored(k).version < |View(k).hist|
      ensures Ledger().2 == old(Ledger().2)
      ensures w.calm && w.honest ==> SavedSpec(old(View(k)), res, ns, View(k), ns')
    {
      ns' := ns;
      if w.honest {
        w.Known(c, k);
      }
      ghost var before := View(k);
      res, cs := Upload(k, item);
      ghost var uploaded := View(k);
      if res.Uploaded? {
        var st;
        st, ns' := SaveUpload(k, item, ns, res.version, res.value);
        if w.calm && w.honest {
          UploadThenSave(before, res, uploaded);
        }
        if st.Failed? {
          res := Aborted(st.error);
        }
      }
    }

    /** One item of `flushDirtyItems` under its lock: upload, and after a refusal refresh, upload once
        more, and refresh again if that was refused too. `ns` is the namespace state of this flush. */
    method FlushDirtyItem(k: Key, ns: Checkpoint) returns (st: Status, ns': Checkpoint, ghost cs: seq<Call>)
      requires Ready() && ns == Ledger().0
      modifies w`g, w`states, w`steps, w`faults, w`calls
      ensures w.faults == Blamed(old(w.faults), st)
      ensures w.calls == old(w.calls) + cs && FlushCalls(k, cs)
      ensures cs != [] ==> cs[0].guard == old(Stored(k)).version
      ensures Ready() && Session(c, {k}, w.calm, old(w.steps), w.steps)
      ensures st.Ok? ==> ns' == Ledger().0
      ensures st.Ok? ==> Flushed(old(View(k)), View(k), cs)
      ensures Stops(cs, st)
      ensures st.Ok? && cs == [] ==> IdleSince(w.states, |old(w.states)| - 1, c, k)
      ensures st == Failed(Rollback) <==> WentBack(cs)
      ensures w.honest ==> Mundane(st)
      ensures w.calm && w.honest && !FlushBreaks(old(View(k)), k, merge) ==>
        FlushSpec(old(View(k)), k, merge, ns, st, View(k), ns') && Ledger().2 == old(Ledger().2)
    {
      ns', cs := ns, [];
      ghost var steps := w.steps;
      var loaded;
      st, loaded := w.LoadItem(c, k);
      if st.Failed? {
        return;
      }
      if loaded.None? || loaded.value.conflict || !loaded.value.dirty {
        IdleThen(w.states, w.steps, w.states, w.steps, w.honest, |steps|, c, k);
        return;
      }
      var item := new Item(loaded.value);
      ghost var mid, states, steps1 := View(k), w.states, w.steps;
      st, ns', cs := FlushQueued(k, item, ns);
      if st.Ok? && cs == [] {
        IdleThen(states, steps1, w.states, w.steps, w.honest, |steps|, c, k);
      }
      FlushedLater(old(View(k)), mid, View(k), [], cs);
      assert [] + cs == cs;
    }

    /** The upload of a queued item, and what follows a refusal. */
    method FlushQueued(k: Key, item: Item, ns: Checkpoint)
      returns (st: Status, ns': Checkpoint, ghost cs: seq<Call>)
      requires Ready() && ns == Ledger().0 && item.Record() == Stored(k) && Stored(k).dirty && !Stored(k).conflict
      modifies w`g, w`states, w`steps, w`faults, w`calls, item
      ensures w.faults == Blamed(old(w.faults), st)
      ensures w.calls == old(w.calls) + cs && FlushCalls(k, cs)
      ensures cs != [] ==> cs[0].guard == old(Stored(k)).version
      ensures Ready() && Session(c, {k}, w.calm, old(w.steps), w.steps)
      ensures st.Ok? ==> ns' == Ledger().0
      ensures st.Ok? ==> Flushed(old(View(k)), View(k), cs)
      ensures Stops(cs, st)
      ensures st.Ok? && cs == [] ==> !Uploadable(old(View(k)))
      ensures st == Failed(Rollback) <==> WentBack(cs)
      ensures w.honest ==> Mundane(st)
      ensures w.calm && w.honest && !FlushBreaks(old(View(k)), k, merge) ==>
        FlushSpec(old(View(k)), k, merge, ns, st, View(k), ns') && Ledger().2 == old(Ledger().2)
    {
      ghost var before := View(k);
      var res;
      res, ns', cs := UploadAndSave(k, item, ns);
      st := Ok;
      if w.calm && w.honest && !res.Precondition? {
        w.Known(c, k);
        FlushedAtOnce(before, k, merge, res, ns, View(k), ns');
      }
      match res
      case Uploaded(_, _) =>
      case Permanent =>
        StillNothingToUpload(before, View(k));
      case Aborted(error) =>
        st := Failed(error);
      case Precondition =>
        if w.calm && w.honest {
          RefusedFlush(before, k, merge);
        }
        ghost var mid, more := View(k), [];
        st, ns', more := RefreshAndRetry(k, item, ns);
        FlushedLater(before, mid, View(k), cs, more);
        RefusedAndRefreshed(old(w.calls), k, cs, more, st);
        cs := cs + more;
    }

    /** What a refused upload leaves to be done. */
    lemma RefusedFlush(v: View, k: Key, merge: MergeFn)
      requires Uploadable(v) && |v.hist| > Loaded(v.meta).version
      ensures var refused := Act(v, Put(v.value.value));
        && PassSpec.FlushItem(v, k, merge) == RetryItem(PullItem(refused, k, merge))
        && PullBreaks(refused, k, merge) == FlushBreaks(v, k, merge) && refused.value.Some? && refused.hist == v.hist
    {
    }

    lemma UndisturbedPullIsCurrent(k: Key)
      requires w.honest ==> Stored(k).version < |View(k).hist|
      ensures w.honest && !PullBreaks(View(k), k, merge) && View(k).value.Some? ==>
        Loaded(PullItem(View(k), k, merge).meta).version == |View(k).hist|
            && PullItem(View(k), k, merge).hist == View(k).hist
    {
      if w.honest && !PullBreaks(View(k), k, merge) && View(k).value.Some? {
        PulledIsCurrent(View(k), k, merge);
      }
    }

    method RefreshAndRetry(k: Key, item: Item, ns: Checkpoint)
      returns (st: Status, ns': Checkpoint, ghost cs: seq<Call>)
      requires Ready() && ns == Ledger().0 && item.Record() == Stored(k)
      requires w.honest ==> Stored(k).version < |View(k).hist|
      modifies w`g, w`states, w`steps, w`faults, w`calls, item
      ensures w.faults == Blamed(old(w.faults), st)
      ensures w.calls == old(w.calls) + cs && RefreshCalls(k, old(Stored(k)).version, cs)
      ensures Ready() && Session(c, {k}, w.calm, old(w.steps), w.steps)
      ensures st.Ok? ==> ns' == Ledger().0
      ensures st.Ok? ==> Flushed(old(View(k)), View(k), cs)
      ensures Stops(cs, st)
      ensures st == Failed(Rollback) <==> RefreshWentBack(old(Stored(k)).version, cs)
      ensures w.honest ==> Mundane(st)
      ensures w.calm && w.honest && !PullBreaks(old(View(k)), k, merge) && old(View(k)).value.Some? ==>
        RefreshSpec(old(View(k)), k, merge, ns, st, View(k), ns') && Ledger().2 == old(Ledger().2)
    {
      ns' := ns;
      UndisturbedPullIsCurrent(k);
      ghost var answer, s0, g0 := NoAnswer(Unavailable), w.steps, w.g;
      w.PastHere();
      st, answer := FetchAndApplyForConflictLocked(k, item);
      cs := [GetSent(k, answer)];
      if st.Ok? {
        ghost var mid, more := View(k), [];
        w.PastHere();
        LogGrows(w.start, w.honest, s0, g0, w.steps, w.g, c, k);
        st, ns', more := RetryUpload(k, ns);
        if st.Ok? {
          FlushedByRetry(old(View(k)), mid, View(k), k, answer, more);
        }
        CallsCompose(old(w.calls), cs, more);
        StopsLater(cs, more, st);
        cs := cs + more;
        assert cs[1..] == more;
      }
    }

    /** The single retry after a refused upload was refreshed. */
    method RetryUpload(k: Key, ns: Checkpoint) returns (st: Status, ns': Checkpoint, ghost cs: seq<Call>)
      requires Ready() && ns == Ledger().0
      modifies w`g, w`states, w`steps, w`faults, w`calls
      ensures w.faults == Blamed(old(w.faults), st)
      ensures w.calls == old(w.calls) + cs && FlushCalls(k, cs) && |cs| <= 2
      ensures cs != [] ==> cs[0].guard == old(Stored(k)).version
      ensures Ready() && Session(c, {k}, w.calm, old(w.steps), w.steps)
      ensures st.Ok? ==> ns' == Ledger().0 && Retried(old(View(k)), View(k), cs)
      ensures Stops(cs, st)
      ensures st == Failed(Rollback) <==> WentBack(cs)
      ensures w.honest ==> Mundane(st)
      ensures w.honest && |cs| == 2 && cs[1].answer.Answer? ==> cs[1].answer.value.version > cs[0].guard
      ensures w.calm && w.honest && (Uploadable(old(View(k))) ==> |old(View(k)).hist| == old(Stored(k)).version) ==>
        && st.Ok? && View(k) == (if Uploadable(old(View(k))) then UploadItem(old(View(k))) else old(View(k)))
        && ns' == ns.(head := ns.head + |View(k).hist| - |old(View(k)).hist|) && Ledger().2 == old(Ledger().2)
    {
      ns', cs := ns, [];
      var loaded;
      st, loaded := w.LoadItem(c, k);
      if st.Failed? || loaded.None? {
        return;
      }
      var item := new Item(loaded.value);
      if item.conflict || !item.dirty {
        return;
      }
      ghost var mid := View(k);
      st, ns', cs := RetryQueued(k, item, ns);
      if st.Ok? {
        RetriedLater(old(View(k)), mid, View(k), cs);
      }
    }

    /** ... if the item still is queued. */
    method RetryQueued(k: Key, item: Item, ns: Checkpoint) returns (st: Status, ns': Checkpoint, ghost cs: seq<Call>)
      requires Ready() && ns == Ledger().0 && item.Record() == Stored(k) && Stored(k).dirty && !Stored(k).conflict
      modifies w`g, w`states, w`steps, w`faults, w`calls, item
      ensures w.faults == Blamed(old(w.faults), st)
      ensures w.calls == old(w.calls) + cs && FlushCalls(k, cs) && |cs| <= 2
      ensures cs != [] ==> cs[0].guard == old(Stored(k)).version
      ensures Ready() && Session(c, {k}, w.calm, old(w.steps), w.steps)
      ensures st.Ok? ==> ns' == Ledger().0 && Retried(old(View(k)), View(k), cs)
      ensures Stops(cs, st)
      ensures st == Failed(Rollback) <==> WentBack(cs)
      ensures w.honest ==> Mundane(st)
      ensures w.honest && |cs| == 2 && cs[1].answer.Answer? ==> cs[1].answer.value.version > cs[0].guard
      ensures w.calm && w.honest && (Uploadable(old(View(k))) ==> |old(View(k)).hist| == old(Stored(k)).version) ==>
        && st.Ok? && View(k) == (if Uploadable(old(View(k))) then UploadItem(old(View(k))) else old(View(k)))
        && ns' == ns.(head := ns.head + |View(k).hist| - |old(View(k)).hist|) && Ledger().2 == old(Ledger().2)
    {
      ghost var before := View(k);
      var res;
      res, ns', cs := UploadAndSave(k, item, ns);
      st := Ok;
      match res
      case Uploaded(_, _) =>
      case Permanent =>
        StillNothingToUpload(before, View(k));
      case Aborted(error) =>
        st := Failed(error);
      case Precondition =>
        ghost var refused, answer := View(k), NoAnswer(Unavailable);
        st, answer := FetchAndApplyForConflictLocked(k, item);
        CallsCompose(old(w.calls), cs, [GetSent(k, answer)]);
        StopsLater(cs, [GetSent(k, answer)], st);
        cs := cs + [GetSent(k, answer)];
        if WroteSince(refused.log, View(k).log) {
          WroteLater(before.log, refused.log, View(k).log, View(k).log);
        }
    }

    /** `reconcileSnapshotValue`: `value` is what the snapshot held for `k`. */
    method ReconcileSnapshotValue(k: Key, value: Bytes) returns (st: Status)
      requires Ready() && View(k).value.Some?
      modifies w`g, w`states, w`steps, w`faults
      ensures w.faults == Blamed(old(w.faults), st)
      ensures Ready() && Session(c, {k}, w.calm, old(w.steps), w.steps) && Ledger() == old(Ledger())
      ensures st.Failed? ==> st.error.Unavailable?
      ensures st.Ok? ==> View(k).value.Some?
      ensures st.Ok? ==> Stored(k) == Reconciled(old(Stored(k)), value)
      ensures w.calm && Some(value) == old(View(k).value) ==> st.Ok? && View(k) == ReconcileItem(old(View(k)))
    {
      var loaded;
      st, loaded := w.LoadItem(c, k);
      if st.Failed? {
        return;
      }
      var item := new Item(Loaded(loaded));
      if item.conflict || item.dirty {
        return;
      }
      if HasMergeBase(item.Record()) && value == item.baseValue {
        return;
      }
      w.Shaped(c, k);
      item.MarkDirty();
      st := w.SaveItem(c, k, item.Record());
    }
  }
}

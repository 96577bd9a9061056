/** One item as one client sees it, as a step system (`bitboxsync/engine_items.go`).
    A view joins the client's own record, backend value and history of the item with the server's
    history of it. The steps are the durable or observable actions the engine, the application and
    the server perform; the history records them, and what the engine promises about an item is
    stated about that history. */
module ItemLog {
  import opened Prelude
  import opened ItemState

  /** `MaxItemCiphertextSize` less the AEAD overhead. */
  const MAX_UPLOAD := 64 * 1024 - 16

  predicate Fits(x: Bytes) {
    |x| <= MAX_UPLOAD
  }

  datatype MergeOutcome = Resolved(value: Bytes) | Unresolved | Broken

  datatype Event =
    | AppWrote(value: Bytes)                        // the application stored a value
    | Opened(version: nat, value: Bytes)            // GET answered and decrypted
    | MergeRan(base: Option<Bytes>, local: Bytes, remoteVersion: nat, remote: Bytes, outcome: MergeOutcome)
    | SyncWrote(replaced: Option<Bytes>, value: Bytes)  // sync replaced the backend value
    | Saved(meta: Meta)                             // the engine persisted the record
    | AppResolved(meta: Meta)                       // a ResolveConflict call persisted the record
    | PutAccepted(version: nat, value: Bytes)       // the server created this version
    | PutRefused(version: nat, current: nat)        // 412 or 428: guarded by `version` when the server had `current`
    | Forgot                                        // the sync state was reset

  type Log = seq<Event>

  // ---- what a history says --------------------------------------------------------------------

  /** The record the store holds after this history. */
  function StoredMeta(log: Log): Option<Meta> {
    if log == [] then None
    else match log[|log| - 1]
      case Saved(m) => Some(m)
      case AppResolved(m) => Some(m)
      case Forgot => None
      case _ => StoredMeta(log[..|log| - 1])
  }

  /** The value the backend holds after this history. */
  function HeldValue(log: Log): Option<Bytes> {
    if log == [] then None
    else match log[|log| - 1]
      case AppWrote(x) => Some(x)
      case SyncWrote(_, x) => Some(x)
      case _ => HeldValue(log[..|log| - 1])
  }

  /** The record as loaded: items unknown to the store start blank. */
  function Loaded(m: Option<Meta>): Meta {
    if m.Some? then m.value else BLANK
  }

  /** The backend held `x` at some point. */
  ghost predicate Held(log: Log, x: Bytes) {
    AppWrote(x) in log || exists p :: SyncWrote(p, x) in log
  }

  /** Entries that change the stored record. */
  predicate Persists(e: Event) {
    e.Saved? || e.AppResolved? || e.Forgot?
  }

  /** The backend held `x` at some moment since the stored record was persisted. */
  predicate HeldSince(log: Log, x: Bytes) {
    HeldValue(log) == Some(x)
    || (log != [] && !Persists(log[|log| - 1]) && HeldSince(log[..|log| - 1], x))
  }

  /** The server created version `v` with plaintext `x` here since the stored record was persisted. */
  predicate AcceptedSince(log: Log, v: nat, x: Bytes) {
    log != [] && !Persists(log[|log| - 1])
    && (log[|log| - 1] == PutAccepted(v, x) || AcceptedSince(log[..|log| - 1], v, x))
  }

  /** Between the two histories only the application wrote the value. */
  predicate OnlyWrites(log: Log, later: Log) {
    log <= later && forall i :: |log| <= i < |later| ==> later[i].AppWrote?
  }

  /** How many answered PUTs the history records. */
  function PutsOf(log: Log): nat {
    if log == [] then 0
    else PutsOf(log[..|log| - 1]) + if log[|log| - 1].PutAccepted? || log[|log| - 1].PutRefused? then 1 else 0
  }

  /** `x` is the plaintext of version `v` in the server history `h`. */
  predicate IsVersion(h: seq<Bytes>, v: nat, x: Bytes) {
    1 <= v <= |h| && h[v - 1] == x
  }

  // ---- how a version came to be taken into account ---------------------------------------------

  /** Version `v` with plaintext `x` was decrypted and then written to the backend. */
  ghost predicate Written(log: Log, v: nat, x: Bytes) {
    exists i, n :: WrittenAt(log, v, x, i, n)
  }

  predicate WrittenAt(log: Log, v: nat, x: Bytes, i: int, n: int) {
    0 <= i < n < |log| && log[i] == Opened(v, x) && log[n].SyncWrote? && log[n].value == x
  }

  /** Version `v` with plaintext `x` was decrypted, then merged over base `b` with a local value, and then the
      merged value replaced that local value. */
  ghost predicate MergeWritten(log: Log, b: Option<Bytes>, v: nat, x: Bytes) {
    exists i, m, n :: MergeWrittenAt(log, b, v, x, i, m, n)
  }

  predicate MergeWrittenAt(log: Log, b: Option<Bytes>, v: nat, x: Bytes, i: int, m: int, n: int) {
    && 0 <= i < m < n < |log| && log[i] == Opened(v, x)
    && log[m].MergeRan? && log[m].outcome.Resolved?
    && log[m] == MergeRan(b, log[m].local, v, x, log[m].outcome)
    && log[n] == SyncWrote(Some(log[m].local), log[m].outcome.value)
  }

  /** Version `v` was decrypted, written to the backend, and then recorded as the clean version. */
  ghost predicate TakenClean(log: Log, v: nat) {
    exists i, n, j :: TakenCleanAt(log, v, i, n, j)
  }

  predicate TakenCleanAt(log: Log, v: nat, i: int, n: int, j: int) {
    && 0 <= i < n < j < |log| && log[i].Opened? && WrittenAt(log, v, log[i].value, i, n)
    && log[j] == Saved(Clean(v, log[i].value))
  }

  /** Version `v` was decrypted and merged, the merged value replaced the local one, and then `v` was recorded
      as the base of the merged value. */
  ghost predicate MergedIn(log: Log, v: nat) {
    exists i, m, n, j :: MergedInAt(log, v, i, m, n, j)
  }

  predicate MergedInAt(log: Log, v: nat, i: int, m: int, n: int, j: int) {
    && 0 <= i < m < n < j < |log| && log[i].Opened? && log[m].MergeRan?
    && MergeWrittenAt(log, log[m].base, v, log[i].value, i, m, n)
    && log[j] == Saved(DirtyOnBase(v, log[i].value))
  }

  /** Version `v` was uploaded from here and its acknowledgement recorded. */
  ghost predicate OwnUpload(log: Log, v: nat) {
    exists i, j :: OwnUploadAt(log, v, i, j)
  }

  predicate OwnUploadAt(log: Log, v: nat, i: int, j: int) {
    && 0 <= i < j < |log| && log[i].PutAccepted? && log[i].version == v
    && log[j].Saved? && log[j].meta == Clean(v, log[i].value)
  }

  /** Version `v` was decrypted and recorded as the remote side of a conflict. */
  ghost predicate ShownAsConflict(log: Log, v: nat) {
    exists i, j :: ShownAsConflictAt(log, v, i, j)
  }

  predicate ShownAsConflictAt(log: Log, v: nat, i: int, j: int) {
    && 0 <= i < j < |log| && log[i].Opened? && log[i].version == v
    && log[j].Saved? && log[j].meta.conflict
    && log[j].meta.conflictVersion == v && log[j].meta.conflictValue == log[i].value
  }

  /** ... and the application resolved that conflict afterwards. */
  ghost predicate SettledByApp(log: Log, v: nat) {
    exists n :: SettledByAppAt(log, v, n)
  }

  ghost predicate SettledByAppAt(log: Log, v: nat, n: int) {
    && 0 <= n < |log| && log[n].AppResolved? && log[n].meta.version == v
    && ShownAsConflict(log[..n], v)
  }

  ghost predicate Accounted(log: Log, v: nat) {
    TakenClean(log, v) || MergedIn(log, v) || OwnUpload(log, v) || SettledByApp(log, v)
  }

  // ---- what every entry of a history must satisfy ----------------------------------------------

  /** A merge ran on genuine inputs: the base is the server's plaintext at the recorded base version,
      older than the remote version merged in, and absent exactly when no base version is known. */
  ghost predicate GenuineMerge(pre: Log, h: seq<Bytes>, base: Option<Bytes>, local: Bytes, rv: nat, remote: Bytes) {
    var m := Loaded(StoredMeta(pre));
    && !m.conflict
    && HeldSince(pre, local)
    && Opened(rv, remote) in pre && IsVersion(h, rv, remote)
    && m.baseVersion <= m.version < rv
    && (base.None? <==> m.baseVersion == 0)
    && (base.Some? ==> IsVersion(h, m.baseVersion, base.value))
  }

  /** Nothing is lost when sync replaces `replaced` by `x`: there was no value, or it is the server's
      plaintext at the clean base version, or it is what is written, or it was the local input of
      the merge that produced `x`. In the first three cases `x` was decrypted from the server. */
  ghost predicate LosslessWrite(pre: Log, h: seq<Bytes>, replaced: Option<Bytes>, x: Bytes) {
    var m := Loaded(StoredMeta(pre));
    && !m.conflict
    && replaced == HeldValue(pre)
    && (|| (replaced.None? && exists v :: Opened(v, x) in pre)
        || (replaced.Some? && !m.dirty && IsVersion(h, m.baseVersion, replaced.value)
            && exists v :: Opened(v, x) in pre)
        || (replaced == Some(x) && exists v :: Opened(v, x) in pre)
        || (replaced.Some? && exists b, rv, r :: MergeRan(b, replaced.value, rv, r, Resolved(x)) in pre))
  }

  /** A conflicted record only ever moves on to a newer conflict; its base stays put. */
  predicate SaveRespectsConflict(m: Meta, m': Meta) {
    m.conflict ==>
      m'.conflict && m.version < m'.version && m'.baseVersion == m.baseVersion && m'.baseValue == m.baseValue
  }

  ghost predicate EventOk(pre: Log, e: Event, h: seq<Bytes>) {
    var m := Loaded(StoredMeta(pre));
    match e
    case AppWrote(_) => true
    case Forgot => true
    case Opened(v, x) => IsVersion(h, v, x)
    case MergeRan(base, local, rv, remote, _) => GenuineMerge(pre, h, base, local, rv, remote)
    case SyncWrote(replaced, x) => LosslessWrite(pre, h, replaced, x)
    case Saved(m') => MetaOk(m', h) && m.version <= m'.version && SaveRespectsConflict(m, m')
    case AppResolved(m') => m.conflict && MetaOk(m', h)
        && (m' == Dirtied(Cleared(m)) || m' == Clean(m.conflictVersion, m.conflictValue))
    case PutAccepted(v, x) =>
      && m.dirty && !m.conflict && v == m.version + 1 && IsVersion(h, v, x) && HeldSince(pre, x)
      && (m.version > 0 ==> Accounted(pre, m.version))
    case PutRefused(v, current) => m.dirty && !m.conflict && v == m.version < current <= |h|
  }

  ghost predicate LogOk(log: Log, h: seq<Bytes>) {
    log == [] || (LogOk(log[..|log| - 1], h) && EventOk(log[..|log| - 1], log[|log| - 1], h))
  }

  /** A stored record agrees with the server history. */
  predicate MetaOk(m: Meta, h: seq<Bytes>) {
    && Shape(m)
    && m.version <= |h|
    && (m.baseVersion == 0 ==> m.baseValue == [])
    && (m.baseVersion > 0 ==> IsVersion(h, m.baseVersion, m.baseValue))
    && (m.conflict ==> IsVersion(h, m.conflictVersion, m.conflictValue))
  }

  // ---- the step system of one item -------------------------------------------------------------

  datatype View = View(meta: Option<Meta>, value: Option<Bytes>, log: Log, hist: seq<Bytes>)

  datatype ItemAction =
    | AppWrite(value: Bytes)
    | AppResolve(takeRemote: bool)
    | Open(version: nat, value: Bytes)
    | RunMerge(base: Option<Bytes>, local: Bytes, remoteVersion: nat, remote: Bytes, outcome: MergeOutcome)
    | WriteValue(replaced: Option<Bytes>, value: Bytes, remoteVersion: nat, remote: Bytes)
    | Save(meta: Meta)
    | Put(value: Bytes)

  /** The record `ResolveConflict*` persists. */
  function ResolvedMeta(m: Meta, takeRemote: bool): Meta {
    if takeRemote then Clean(m.conflictVersion, m.conflictValue) else Dirtied(Cleared(m))
  }

  function Noted(v: View, e: Event): View {
    v.(log := v.log + [e])
  }

  function Act(v: View, a: ItemAction): (r: View)
    ensures v.hist <= r.hist && |r.hist| <= |v.hist| + 1
  {
    match a
    case AppWrite(x) => Noted(v, AppWrote(x)).(value := Some(x))
    case AppResolve(take) =>
      if v.meta.Some? && v.meta.value.conflict then
        var m := ResolvedMeta(v.meta.value, take);
        Noted(v, AppResolved(m)).(meta := Some(m))
      else v
    case Open(n, x) => Noted(v, Opened(n, x))
    case RunMerge(b, l, rv, r, o) => Noted(v, MergeRan(b, l, rv, r, o))
    case WriteValue(p, x, _, _) => Noted(v, SyncWrote(p, x)).(value := Some(x))
    case Save(m) => Noted(v, Saved(m)).(meta := Some(m))
    case Put(x) =>
      var m := Loaded(v.meta);
      if |v.hist| == m.version
      then Noted(v, PutAccepted(m.version + 1, x)).(hist := v.hist + [x])
      else Noted(v, PutRefused(m.version, |v.hist|))
  }

  /** The engine may replace the backend value: it holds what was read, and it is absent, the clean
      base, already the remote value, or was merged with the remote value. */
  predicate MayWrite(v: View, replaced: Option<Bytes>, x: Bytes, rv: nat, remote: Bytes) {
    var m := Loaded(v.meta);
    && !m.conflict && v.value == replaced
    && Opened(rv, remote) in v.log
    && (|| (replaced.None? && x == remote)
        || (replaced.Some? && !m.dirty && HasMergeBase(m) && replaced.value == m.baseValue && x == remote)
        || (replaced == Some(x) && x == remote)
        || (replaced.Some? && MergeRan(BaseOf(m), replaced.value, rv, remote, Resolved(x)) in v.log))
  }

  /** The records the engine may persist over the stored one. */
  ghost predicate MaySave(v: View, m': Meta) {
    var m := Loaded(v.meta);
    && v.value.Some?
    && (|| (!m.conflict && m' == Dirtied(m))
        || (!m.conflict && m.version < m'.version && m' == Clean(m'.version, m'.baseValue)
            && Written(v.log, m'.version, m'.baseValue))
        || (!m.conflict && m.version < m'.version && m' == DirtyOnBase(m'.version, m'.baseValue)
            && MergeWritten(v.log, BaseOf(m), m'.version, m'.baseValue))
        || (m.version < m'.version && m' == Conflicted(m, m'.version, m'.conflictValue)
            && Opened(m'.version, m'.conflictValue) in v.log
            && (m.conflict || exists l :: MergeRan(BaseOf(m), l, m'.version, m'.conflictValue, Unresolved) in v.log))
        || (m.dirty && !m.conflict && m' == Clean(m.version + 1, m'.baseValue)
            && AcceptedSince(v.log, m.version + 1, m'.baseValue)))
  }

  ghost predicate Enabled(v: View, a: ItemAction) {
    var m := Loaded(v.meta);
    match a
    case AppWrite(_) => true
    case AppResolve(_) => m.conflict
    case Open(n, x) => n == |v.hist| && IsVersion(v.hist, n, x)
    case RunMerge(b, l, rv, r, _) =>
      !m.conflict && b == BaseOf(m) && m.version < rv && Opened(rv, r) in v.log && HeldSince(v.log, l)
    case WriteValue(p, x, rv, r) => MayWrite(v, p, x, rv, r)
    case Save(m') => MaySave(v, m')
    case Put(x) => m.dirty && !m.conflict && HeldSince(v.log, x) && Fits(x)
  }

  // ---- the invariant of one item ---------------------------------------------------------------

  ghost predicate ViewInv(v: View) {
    && v.meta == StoredMeta(v.log)
    && v.value == HeldValue(v.log)
    && (v.meta.Some? ==> RecordInv(v, v.meta.value))
    && LogOk(v.log, v.hist)
    && AllFit(v.hist)
  }

  predicate AllFit(h: seq<Bytes>) {
    forall i :: 0 <= i < |h| ==> Fits(h[i])
  }

  ghost predicate RecordInv(v: View, m: Meta) {
    && MetaOk(m, v.hist)
    && (m.dirty || m.version > 0 ==> v.value.Some?)
    && (m.version > 0 ==> if m.conflict then ShownAsConflict(v.log, m.version) else Accounted(v.log, m.version))
  }

  // ---- histories only grow ---------------------------------------------------------------------

  lemma HeldStays(log: Log, more: Log, x: Bytes)
    requires Held(log, x)
    ensures Held(log + more, x)
  {
    if p :| SyncWrote(p, x) in log {
      assert SyncWrote(p, x) in log + more;
    }
  }

  lemma ShownStays(log: Log, e: Event, v: nat)
    requires ShownAsConflict(log, v)
    ensures ShownAsConflict(log + [e], v)
  {
    var i, j :| ShownAsConflictAt(log, v, i, j);
    assert ShownAsConflictAt(log + [e], v, i, j);
  }

  lemma AccountedStays(log: Log, e: Event, v: nat)
    requires Accounted(log, v)
    ensures Accounted(log + [e], v)
  {
    if i, n, j :| TakenCleanAt(log, v, i, n, j) {
      assert TakenCleanAt(log + [e], v, i, n, j);
    } else if i, m, n, j :| MergedInAt(log, v, i, m, n, j) {
      assert MergedInAt(log + [e], v, i, m, n, j);
    } else if i, j :| OwnUploadAt(log, v, i, j) {
      assert OwnUploadAt(log + [e], v, i, j);
    } else {
      var n :| SettledByAppAt(log, v, n);
      assert (log + [e])[..n] == log[..n];
      assert SettledByAppAt(log + [e], v, n);
    }
  }

  /** Application writes leave what was held, or accepted, since the record was persisted. */
  lemma {:induction false} SinceStays(log: Log, later: Log)
    requires OnlyWrites(log, later)
    ensures forall x :: HeldSince(log, x) ==> HeldSince(later, x)
    ensures forall v, x :: AcceptedSince(log, v, x) ==> AcceptedSince(later, v, x)
    ensures StoredMeta(later) == StoredMeta(log)
    decreases |later|
  {
    if |log| < |later| {
      SinceStays(log, later[..|later| - 1]);
    } else {
      assert later == log;
    }
  }

  /** What was held since the record was persisted was held. */
  lemma {:induction false} HeldSinceWasHeld(log: Log, x: Bytes)
    requires HeldSince(log, x)
    ensures Held(log, x)
  {
    if HeldValue(log) == Some(x) {
      HeldValueWasHeld(log);
    } else {
      HeldSinceWasHeld(log[..|log| - 1], x);
      HeldStays(log[..|log| - 1], [log[|log| - 1]], x);
      assert log == log[..|log| - 1] + [log[|log| - 1]];
    }
  }

  /** ... at a moment when the record was the stored one. */
  lemma {:induction false} HeldSinceMoment(log: Log, x: Bytes) returns (n: nat)
    requires HeldSince(log, x)
    ensures n <= |log| && HeldValue(log[..n]) == Some(x) && StoredMeta(log[..n]) == StoredMeta(log)
    ensures forall i :: n <= i < |log| ==> !Persists(log[i])
  {
    if HeldValue(log) == Some(x) {
      n := |log|;
      assert log[..n] == log;
    } else {
      n := HeldSinceMoment(log[..|log| - 1], x);
      assert log[..|log| - 1][..n] == log[..n];
    }
  }

  lemma {:induction false} AcceptedSinceIsLogged(log: Log, v: nat, x: Bytes)
    requires AcceptedSince(log, v, x)
    ensures PutAccepted(v, x) in log
  {
    if log[|log| - 1] != PutAccepted(v, x) {
      AcceptedSinceIsLogged(log[..|log| - 1], v, x);
    }
  }

  /** The value a backend holds is one it was given. */
  lemma {:induction false} HeldValueWasHeld(log: Log)
    ensures HeldValue(log).Some? ==> Held(log, HeldValue(log).value)
  {
    if log != [] {
      var pre, e := log[..|log| - 1], log[|log| - 1];
      HeldValueWasHeld(pre);
      assert log == pre + [e];
      if HeldValue(pre).Some? {
        HeldStays(pre, [e], HeldValue(pre).value);
      }
      assert e in log;
    }
  }

  lemma Appended(log: Log, e: Event)
    ensures (log + [e])[..|log|] == log && (log + [e])[|log|] == e
  {
  }

  /** An entry stays justified when other clients extend the server history. */
  lemma {:induction false} LogOkGrows(log: Log, h: seq<Bytes>, h': seq<Bytes>)
    requires LogOk(log, h) && h <= h'
    ensures LogOk(log, h')
  {
    if log != [] {
      LogOkGrows(log[..|log| - 1], h, h');
    }
  }

  lemma {:induction false} LogOkAt(log: Log, h: seq<Bytes>, i: nat)
    requires LogOk(log, h) && i < |log|
    ensures LogOk(log[..i], h) && EventOk(log[..i], log[i], h)
  {
    if i < |log| - 1 {
      LogOkAt(log[..|log| - 1], h, i);
      assert log[..|log| - 1][..i] == log[..i];
    }
  }

  /** Writes of other clients keep everything this client knows. */
  lemma HistoryGrows(v: View, h: seq<Bytes>)
    requires ViewInv(v) && v.hist <= h && AllFit(h)
    ensures ViewInv(v.(hist := h))
  {
    LogOkGrows(v.log, v.hist, h);
  }

  // ---- every step keeps the invariant ----------------------------------------------------------

  lemma StepKeeps(v: View, a: ItemAction)
    requires ViewInv(v) && Enabled(v, a)
    ensures ViewInv(Act(v, a))
  {
    match a
    case Save(m') => SaveKeeps(v, m');
    case Put(x) => PutKeeps(v, x);
    case AppResolve(take) => ResolveKeeps(v, take);
    case _ => ObservationKeeps(v, a);
  }

  /** Entries that leave the record alone. */
  lemma NotedKeepsRecord(v: View, e: Event)
    requires ViewInv(v) && v.meta.Some?
    requires !Persists(e)
    ensures StoredMeta(v.log + [e]) == v.meta
    ensures var m := v.meta.value;
            m.version > 0 ==>
                if m.conflict then ShownAsConflict(v.log + [e], m.version) else Accounted(v.log + [e], m.version)
  {
    Appended(v.log, e);
    var m := v.meta.value;
    if m.version > 0 {
      if m.conflict { ShownStays(v.log, e, m.version); } else { AccountedStays(v.log, e, m.version); }
    }
  }

  lemma ObservationKeeps(v: View, a: ItemAction)
    requires ViewInv(v) && Enabled(v, a)
    requires a.AppWrite? || a.Open? || a.RunMerge? || a.WriteValue?
    ensures ViewInv(Act(v, a))
  {
    var r := Act(v, a);
    var e := r.log[|v.log|];
    Appended(v.log, e);
    assert r.log == v.log + [e];
    if v.meta.Some? {
      NotedKeepsRecord(v, e);
    }
    if a.RunMerge? {
      OpenedIsVersion(v, a.remoteVersion, a.remote);
    } else if a.WriteValue? {
      WriteIsLossless(v, a.replaced, a.value, a.remoteVersion, a.remote);
    }
    assert EventOk(v.log, e, v.hist);
  }

  /** What was decrypted is in the server history. */
  lemma {:induction false} OpenedIsVersion(v: View, n: nat, x: Bytes)
    requires LogOk(v.log, v.hist) && Opened(n, x) in v.log
    ensures IsVersion(v.hist, n, x)
  {
    var i :| 0 <= i < |v.log| && v.log[i] == Opened(n, x);
    LogOkAt(v.log, v.hist, i);
  }

  lemma {:induction false} AcceptedIsVersion(v: View, n: nat, x: Bytes)
    requires LogOk(v.log, v.hist) && PutAccepted(n, x) in v.log
    ensures IsVersion(v.hist, n, x)
  {
    var i :| 0 <= i < |v.log| && v.log[i] == PutAccepted(n, x);
    LogOkAt(v.log, v.hist, i);
  }

  lemma WriteIsLossless(v: View, replaced: Option<Bytes>, x: Bytes, rv: nat, remote: Bytes)
    requires ViewInv(v) && MayWrite(v, replaced, x, rv, remote)
    ensures LosslessWrite(v.log, v.hist, replaced, x)
  {
    assert Opened(rv, remote) in v.log;
    if x != remote {
      assert MergeRan(BaseOf(Loaded(v.meta)), replaced.value, rv, remote, Resolved(x)) in v.log;
    }
  }

  lemma PutKeeps(v: View, x: Bytes)
    requires ViewInv(v) && Enabled(v, Put(x))
    ensures ViewInv(Act(v, Put(x)))
  {
    var r := Act(v, Put(x));
    var e := r.log[|v.log|];
    Appended(v.log, e);
    assert r.log == v.log + [e];
    NotedKeepsRecord(v, e);
    LogOkGrows(v.log, v.hist, r.hist);
    assert EventOk(v.log, e, r.hist);
  }

  lemma ResolveKeeps(v: View, take: bool)
    requires ViewInv(v) && Enabled(v, AppResolve(take))
    ensures ViewInv(Act(v, AppResolve(take)))
  {
    var m := v.meta.value;
    var m' := ResolvedMeta(m, take);
    var e := AppResolved(m');
    Appended(v.log, e);
    assert EventOk(v.log, e, v.hist);
    assert SettledByAppAt(v.log + [e], m.version, |v.log|);
  }

  lemma SaveKeeps(v: View, m': Meta)
    requires ViewInv(v) && MaySave(v, m')
    ensures ViewInv(Act(v, Save(m')))
  {
    var e := Saved(m');
    Appended(v.log, e);
    SavedRecordOk(v, m');
    if m'.version > 0 {
      SavedRecordAccounted(v, m');
    }
    assert EventOk(v.log, e, v.hist);
  }

  lemma SavedRecordOk(v: View, m': Meta)
    requires ViewInv(v) && MaySave(v, m')
    ensures MetaOk(m', v.hist) && Loaded(v.meta).version <= m'.version && SaveRespectsConflict(Loaded(v.meta), m')
  {
    var m := Loaded(v.meta);
    if Opened(m'.version, m'.baseValue) in v.log {
      OpenedIsVersion(v, m'.version, m'.baseValue);
    }
    if Opened(m'.version, m'.conflictValue) in v.log {
      OpenedIsVersion(v, m'.version, m'.conflictValue);
    }
    if AcceptedSince(v.log, m.version + 1, m'.baseValue) {
      AcceptedSinceIsLogged(v.log, m.version + 1, m'.baseValue);
      AcceptedIsVersion(v, m.version + 1, m'.baseValue);
    }
  }

  /** The record just persisted is accounted for. */
  lemma SavedRecordAccounted(v: View, m': Meta)
    requires ViewInv(v) && MaySave(v, m') && m'.version > 0
    ensures if m'.conflict then ShownAsConflict(v.log + [Saved(m')], m'.version)
            else Accounted(v.log + [Saved(m')], m'.version)
  {
    var m, e, n := Loaded(v.meta), Saved(m'), |v.log|;
    var log := v.log + [e];
    if m'.conflict {
      var i :| 0 <= i < n && v.log[i] == Opened(m'.version, m'.conflictValue);
      assert ShownAsConflictAt(log, m'.version, i, n);
    } else if m' == Dirtied(m) {
      AccountedStays(v.log, e, m.version);
    } else if AcceptedSince(v.log, m.version + 1, m'.baseValue) && m' == Clean(m.version + 1, m'.baseValue) {
      AcceptedSinceIsLogged(v.log, m.version + 1, m'.baseValue);
      var i :| 0 <= i < n && v.log[i] == PutAccepted(m.version + 1, m'.baseValue);
      assert OwnUploadAt(log, m'.version, i, n);
    } else if m' == Clean(m'.version, m'.baseValue) {
      var i, w :| WrittenAt(v.log, m'.version, m'.baseValue, i, w);
      assert TakenCleanAt(log, m'.version, i, w, n);
    } else {
      var i, k, w :| MergeWrittenAt(v.log, BaseOf(m), m'.version, m'.baseValue, i, k, w);
      assert MergedInAt(log, m'.version, i, k, w, n);
    }
  }
}

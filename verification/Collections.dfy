/** How the application settles a conflict (`bitboxsync/collection.go:73-149`). */
module Collections {
  import opened Prelude
  import opened ItemState
  import opened ItemLog
  import opened Network
  import opened PassSpec
  import opened PassResults
  import opened World

  /** The store failed exactly if that is the error. */
  function Faulted(faults: seq<Error>, st: Status): seq<Error> {
    if st == Failed(Unavailable) then faults + [Unavailable] else faults
  }

  class Collection<T> {
    const w: World
    const c: ClientId
    const name: string
    const encode: T -> Bytes            // the bytes that stand for a typed value in the backend
    const decode: Bytes -> Option<T>    // `codec.Decode`

    constructor (w: World, c: ClientId, name: string, encode: T -> Bytes, decode: Bytes -> Option<T>)
      ensures this.w == w && this.c == c && this.name == name && this.encode == encode && this.decode == decode
    {
      this.w, this.c, this.name, this.encode, this.decode := w, c, name, encode, decode;
    }

    function View(key: string): View
      reads w`g
    {
      ViewOf(w.g, c, Key(name, key))
    }

    function Stored(key: string): Meta
      reads w`g
    {
      RecordOf(w.g, c, Key(name, key))
    }

    /** What a resolution may do to the item: nothing, or settle the conflict on record `m`, whose base is
        the old one or the version shown in the conflict. */
    ghost predicate Settled(before: View, st: Status, takeRemote: bool, now: View) {
      var m := Loaded(before.meta);
      && (!m.conflict || st.Failed? ==>
          Loaded(now.meta) == m || (m.conflict && Loaded(now.meta) == ResolvedMeta(m, takeRemote)))
      && (m.conflict && st.Ok? ==> now.meta == Some(ResolvedMeta(m, takeRemote)))
    }

    /** `SaveItem` of a settled record. */
    method SaveSettled(key: string, item: Item, takeRemote: bool) returns (st: Status)
      requires w.Valid() && c in w.g.clients && Stored(key).conflict
      requires item.Record() == ResolvedMeta(Stored(key), takeRemote)
      modifies w`g, w`states, w`steps, w`faults
      ensures w.faults == Faulted(old(w.faults), st) && (st.Failed? ==> st.error.Unavailable?)
      ensures w.Valid() && c in w.g.clients && AppSession(c, old(w.steps), w.steps)
      ensures Settled(old(View(key)), st, takeRemote, View(key))
      ensures old(View(key)).log <= View(key).log
      ensures w.calm ==> st.Ok? && View(key) == Act(old(View(key)), AppResolve(takeRemote))
    {
      st := w.StoreFault();
      if st.Failed? {
        return;
      }
      w.TakeAppStep(c, Key(name, key), AppResolve(takeRemote));
      st := w.StoreFault();
    }

    /** `Backend.Set`, in terms of the encoded value. */
    method SetValue(key: string, x: Bytes) returns (st: Status)
      requires w.Valid() && c in w.g.clients
      modifies w`g, w`states, w`steps, w`faults
      ensures w.faults == Faulted(old(w.faults), st) && (st.Failed? ==> st.error.Unavailable?)
      ensures w.Valid() && c in w.g.clients && AppSession(c, old(w.steps), w.steps)
      ensures View(key).meta == old(View(key).meta)
      ensures st.Ok? ==> Wrote(old(View(key)).log, View(key).log, x)
      ensures w.calm ==> st.Ok? && View(key) == Act(old(View(key)), AppWrite(x))
    {
      st := w.StoreFault();
      if st.Failed? {
        return;
      }
      w.TakeAppStep(c, Key(name, key), AppWrite(x));
      assert View(key).log[|old(View(key)).log|..][0] == AppWrote(x);
      st := w.StoreFault();
    }

    /** The stored record, if it is in conflict. */
    method LoadConflict(key: string) returns (st: Status, item: Item?)
      requires w.Valid() && c in w.g.clients
      modifies w`g, w`states, w`steps, w`faults
      ensures w.faults == Faulted(old(w.faults), st)
      ensures st != Failed(Unavailable) ==> st == if View(key).meta.None? then Failed(NotFound) else Ok
      ensures w.Valid() && c in w.g.clients && AppSession(c, old(w.steps), w.steps)
      ensures Drift(old(View(key)), View(key), true)
      ensures st.Failed? ==> item == null
      ensures item != null ==> fresh(item) && item.Record() == Stored(key) && Stored(key).conflict
      ensures st.Ok? && item == null ==> !Stored(key).conflict
      ensures w.calm ==> (st.Ok? <==> View(key).meta.Some?) && View(key) == old(View(key))
    {
      item := null;
      var loaded;
      st, loaded := w.LoadItem(c, Key(name, key));
      if st.Ok? {
        if loaded.None? {
          st := Failed(NotFound);
        } else if loaded.value.conflict {
          item := new Item(loaded.value);
        }
      }
    }

    /** The chosen value replaces the local one and is queued; the base stays. */
    method ResolveConflictWithValue(key: string, value: T) returns (st: Status)
      requires w.Valid() && c in w.g.clients
      modifies w`g, w`states, w`steps, w`faults
      ensures w.faults == Faulted(old(w.faults), st)
      ensures st != Failed(Unavailable) ==> st == if old(View(key)).meta.None? then Failed(NotFound) else Ok
      ensures w.Valid() && c in w.g.clients && AppSession(c, old(w.steps), w.steps)
      ensures Settled(old(View(key)), st, false, View(key))
      ensures st.Ok? && old(Stored(key)).conflict ==> Wrote(old(View(key)).log, View(key).log, encode(value))
      ensures w.calm ==> View(key) == if old(Stored(key).conflict)
        then Act(Act(old(View(key)), AppWrite(encode(value))), AppResolve(false)) else old(View(key))
    {
      var item;
      st, item := LoadConflict(key);
      if item == null {
        return;
      }
      ghost var loaded := View(key).log;
      st := SettleWith(key, item, encode(value), false);
      WroteFrom(old(View(key)).log, loaded, View(key).log, encode(value));
    }

    /** The value `x` is written and the record settled: clean on the remote side, or queued on the old base. */
    method SettleWith(key: string, item: Item, x: Bytes, takeRemote: bool) returns (st: Status)
      requires w.Valid() && c in w.g.clients && item.Record() == Stored(key) && Stored(key).conflict
      modifies w`g, w`states, w`steps, w`faults, item
      ensures w.faults == Faulted(old(w.faults), st) && (st.Failed? ==> st.error.Unavailable?)
      ensures w.Valid() && c in w.g.clients && AppSession(c, old(w.steps), w.steps)
      ensures Settled(old(View(key)), st, takeRemote, View(key))
      ensures st.Ok? ==> Wrote(old(View(key)).log, View(key).log, x)
      ensures w.calm ==> st.Ok? && View(key) == Act(Act(old(View(key)), AppWrite(x)), AppResolve(takeRemote))
    {
      st := SetValue(key, x);
      if st.Failed? {
        return;
      }
      if takeRemote {
        item.MarkClean(item.conflictVersion, item.conflictValue);
      } else {
        item.ClearConflict();
        item.MarkDirty();
      }
      ghost var mid := View(key).log;
      st := SaveSettled(key, item, takeRemote);
      WroteStays(old(View(key)).log, mid, View(key).log, x);
    }

    /** The local value is kept and queued; the base stays. */
    method ResolveConflictPreferLocal(key: string) returns (st: Status)
      requires w.Valid() && c in w.g.clients
      modifies w`g, w`states, w`steps, w`faults
      ensures w.faults == Faulted(old(w.faults), st)
      ensures st.Failed? ==> st.error.Unavailable? || st.error.NotFound?
      ensures old(View(key)).meta.None? ==> st.Failed?
      ensures st == Failed(NotFound) ==>
        old(View(key)).meta.None? || (old(Stored(key)).conflict && old(View(key)).value.None?)
      ensures w.Valid() && c in w.g.clients && AppSession(c, old(w.steps), w.steps)
      ensures Settled(old(View(key)), st, false, View(key))
      ensures w.calm ==> View(key) == if old(Stored(key).conflict && View(key).value.Some?)
        then Act(old(View(key)), AppResolve(false)) else old(View(key))
    {
      var item;
      st, item := LoadConflict(key);
      if item == null {
        return;
      }
      var current;
      st, current := w.ReadValue(c, Key(name, key), false);
      if st.Failed? {
        return;
      }
      if current.None? {
        st := Failed(NotFound);
        return;
      }
      item.ClearConflict();
      item.MarkDirty();
      st := SaveSettled(key, item, false);
    }

    /** The item after its remote side was taken over, undisturbed: nothing if that cannot be decoded. */
    function TakenOver(v: View): View {
      var remote := decode(Loaded(v.meta).conflictValue);
      if !Loaded(v.meta).conflict || remote.None? then v
      else Act(Act(v, AppWrite(encode(remote.value))), AppResolve(true))
    }

    /** How taking over the remote side ends if the store does not fail. */
    function RemoteStatus(v: View): Status {
      if v.meta.None? then Failed(NotFound)
      else if v.meta.value.conflict && decode(v.meta.value.conflictValue).None? then Failed(BadEncoding)
      else Ok
    }

    /** The remote value replaces the local one and becomes the clean base. */
    method ResolveConflictPreferRemote(key: string) returns (st: Status)
      requires w.Valid() && c in w.g.clients
      modifies w`g, w`states, w`steps, w`faults
      ensures w.faults == Faulted(old(w.faults), st)
      ensures st != Failed(Unavailable) ==> st == RemoteStatus(old(View(key)))
      ensures w.Valid() && c in w.g.clients && AppSession(c, old(w.steps), w.steps)
      ensures Settled(old(View(key)), st, true, View(key))
      ensures st.Ok? && old(Stored(key)).conflict ==> decode(old(Stored(key)).conflictValue).Some?
      ensures st.Ok? && old(Stored(key)).conflict ==>
        Wrote(old(View(key)).log, View(key).log, encode(decode(old(Stored(key)).conflictValue).value))
      ensures w.calm ==> View(key) == TakenOver(old(View(key)))
    {
      var item;
      st, item := LoadConflict(key);
      if item == null {
        return;
      }
      var value := decode(item.conflictValue);
      if value.None? {
        return Failed(BadEncoding);
      }
      ghost var loaded := View(key).log;
      st := SettleWith(key, item, encode(value.value), true);
      WroteFrom(old(View(key)).log, loaded, View(key).log, encode(value.value));
    }
  }

  /** From `before` to `now` the application stored `x`. */
  predicate Wrote(before: Log, now: Log, x: Bytes) {
    before <= now && AppWrote(x) in now[|before|..]
  }

  lemma WroteFrom(before: Log, loaded: Log, now: Log, x: Bytes)
    requires before <= loaded
    ensures Wrote(loaded, now, x) ==> Wrote(before, now, x)
  {
    if Wrote(loaded, now, x) {
      var i :| 0 <= i < |now[|loaded|..]| && now[|loaded|..][i] == AppWrote(x);
      assert now[|before|..][i + |loaded| - |before|] == AppWrote(x);
    }
  }

  lemma WroteStays(before: Log, mid: Log, now: Log, x: Bytes)
    requires Wrote(before, mid, x) && mid <= now
    ensures Wrote(before, now, x)
  {
    var i :| 0 <= i < |mid[|before|..]| && mid[|before|..][i] == AppWrote(x);
    assert now[|before|..][i] == AppWrote(x);
  }

  /** Settling a conflict by a value or by the local value never moves the base, and leaves the version
      that the application was shown as the guard of the next upload. */
  lemma SettlingKeepsBase(m: Meta)
    requires Shape(m) && m.conflict
    ensures var r := ResolvedMeta(m, false);
      r.baseVersion == m.baseVersion && r.baseValue == m.baseValue && r.version == m.conflictVersion && r.dirty
          && !r.conflict && Shape(r)
    ensures var r := ResolvedMeta(m, true);
      r.baseVersion == r.version == m.conflictVersion && r.baseValue == m.conflictValue && !r.dirty && !r.conflict
          && Shape(r)
  {
  }

  /** A conflict taken over from the server leaves nothing to upload exactly if the value written, `x`, encodes
      to the very bytes of the remote side. */
  lemma PreferRemoteRests(v: View, x: Bytes)
    requires ViewInv(v) && v.meta.Some? && v.meta.value.conflict
    ensures var r := Act(Act(v, AppWrite(x)), AppResolve(true));
      ViewInv(r) && IsVersion(r.hist, r.meta.value.version, r.meta.value.baseValue)
          && (AtRest(r) <==> x == v.meta.value.conflictValue)
  {
    StepKeeps(v, AppWrite(x));
    StepKeeps(Act(v, AppWrite(x)), AppResolve(true));
  }

  /** A chosen value is uploaded by the next undisturbed pass as the version after the one the application
      was shown, without a further merge, unless the server has moved on by then. */
  lemma ChosenValueIsUploaded(v: View, x: Bytes, k: Key, merge: MergeFn, fetch: bool)
    requires ViewInv(v) && v.meta.Some? && v.meta.value.conflict && v.meta.value.conflictVersion == |v.hist| && Fits(x)
    ensures var settled := Act(Act(v, AppWrite(x)), AppResolve(false));
      var r := PassItem(settled, k, merge, fetch);
      r.hist == v.hist + [x] && Synced(r)
          && r.log == settled.log + [PutAccepted(|v.hist| + 1, x), Saved(Clean(|v.hist| + 1, x))]
  {
  }
}

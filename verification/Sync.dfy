/** One sync pass (`bitboxsync/engine_run.go:150-177`): snapshot reconciliation, reconciliation with
    the server, upload of what is queued. */
module Sync {
  import opened Prelude
  import opened ItemState
  import opened ItemLog
  import opened Network
  import opened PassSpec
  import opened World
  import opened Engine

  /** `loadActiveScope` derives every active item from a registered collection. */
  predicate WellScoped(s: Scope) {
    forall k :: k in s.items ==> k.collection in s.collections
  }

  /** The engine's registrations agree with the scope the application keeps returning. */
  ghost predicate Configured(e: Engine) {
    && (forall i, j :: 0 <= i < j < |e.registered| ==> e.registered[i] != e.registered[j])
    && (e.w.fixedScope.Some? ==>
        WellScoped(e.w.fixedScope.value) && e.w.fixedScope.value.collections == set x | x in e.registered)
  }

  lemma SessionsCompose(c: ClientId, ks: set<Key>, ks': set<Key>, calm: bool, a: seq<Action>, b: seq<Action>,
          d: seq<Action>)
    requires Session(c, ks, calm, a, b) && Session(c, ks', calm, b, d)
    ensures Session(c, ks + ks', calm, a, d)
  {
    forall i | |a| <= i < |d| ensures Mine(c, ks + ks', d[i]) || (!calm && Foreign(c, None, d[i])) {
      if i < |b| {
        assert d[i] == b[i];
      }
    }
  }

  lemma SessionsJoin(c: ClientId, ks: set<Key>, calm: bool, a: seq<Action>, b: seq<Action>, d: seq<Action>)
    requires Session(c, ks, calm, a, b) && Session(c, {}, calm, b, d)
    ensures Session(c, ks, calm, a, d)
  {
    SessionsCompose(c, ks, {}, calm, a, b, d);
    assert ks + {} == ks;
  }

  /** Calling `Keys` of every registered collection. */
  method LoadActiveScope(e: Engine) returns (st: Status, scope: Scope)
    requires Configured(e)
    modifies e.w`faults
    ensures e.w.faults == Blamed(old(e.w.faults), st)
    ensures st.Failed? ==> st.error.Unavailable?
    ensures e.w.calm ==> st.Ok?
    ensures st.Ok? ==> WellScoped(scope) && scope.collections == set x | x in e.registered
    ensures st.Ok? && e.w.fixedScope.Some? ==> scope == e.w.fixedScope.value
  {
    st, scope := Ok, Scope({}, {});
    ghost var faults := e.w.faults;
    var i := 0;
    while i < |e.registered|
      invariant 0 <= i <= |e.registered| && st.Ok? && e.w.faults == faults
      invariant scope.collections == set x | x in e.registered[..i]
      invariant WellScoped(scope)
      invariant e.w.fixedScope.Some? ==>
          forall k :: k in scope.items <==> k in e.w.fixedScope.value.items && k.collection in scope.collections
    {
      var collection, names := e.registered[i], [];
      st, names := e.w.Keys(e.c, collection);
      if st.Failed? {
        return;
      }
      assert e.registered[..i + 1] == e.registered[..i] + [collection];
      scope := Scope(scope.collections + {collection}, scope.items + set n | n in names :: Key(collection, n));
      i := i + 1;
    }
    assert e.registered[..i] == e.registered;
  }

  /** A pass phase loads the scope when it first needs it and keeps it. */
  method LoadScopeOnce(e: Engine, cache: Option<Scope>) returns (st: Status, cache': Option<Scope>)
    requires Configured(e) && (cache.Some? && e.w.fixedScope.Some? ==> cache == e.w.fixedScope)
    modifies e.w`faults
    ensures e.w.faults == Blamed(old(e.w.faults), st)
    ensures st.Failed? ==> st.error.Unavailable?
    ensures e.w.calm ==> st.Ok?
    ensures st.Ok? ==> cache'.Some? && (cache.Some? ==> cache' == cache)
    ensures cache'.Some? && e.w.fixedScope.Some? ==> cache' == e.w.fixedScope
  {
    st, cache' := Ok, cache;
    if cache.None? {
      var scope;
      st, scope := LoadActiveScope(e);
      if st.Ok? {
        cache' := Some(scope);
      }
    }
  }

  /** From `g` to `h` client `c`'s view of the items `ks` changed by `f`, and no other view of its. */
  ghost predicate Changed(g: Global, h: Global, c: ClientId, ks: set<Key>, f: (Key, View) -> View) {
    forall k :: ViewOf(h, c, k) == if k in ks then f(k, ViewOf(g, c, k)) else ViewOf(g, c, k)
  }

  lemma ChangedFurther(g: Global, h: Global, h': Global, c: ClientId, ks: set<Key>, k: Key, f: (Key, View) -> View)
    requires Changed(g, h, c, ks, f) && Changed(h, h', c, {k}, f) && k !in ks
    ensures Changed(g, h', c, ks + {k}, f)
  {
  }

  ghost predicate PullsClean(g: Global, c: ClientId, s: Scope, merge: MergeFn) {
    forall k :: Active(s, k) ==> !PullBreaks(ViewOf(g, c, k), k, merge)
  }

  ghost predicate FlushesClean(g: Global, c: ClientId, s: Scope, merge: MergeFn) {
    forall k :: Active(s, k) ==> !FlushBreaks(ViewOf(g, c, k), k, merge)
  }

  function Reconciling(): (Key, View) -> View {
    (k, v) => ReconcileItem(v)
  }

  function Pulling(merge: MergeFn): (Key, View) -> View {
    (k, v) => PullItem(v, k, merge)
  }

  function Flushing(merge: MergeFn): (Key, View) -> View {
    (k, v) => PassSpec.FlushItem(v, k, merge)
  }

  function ActiveOf(s: Scope, ks: set<Key>): set<Key> {
    set k | k in ks && Active(s, k)
  }

  lemma ActiveOfMore(s: Scope, ks: set<Key>, todo: set<Key>, k: Key)
    requires todo <= ks && k in todo
    ensures ActiveOf(s, ks - (todo - {k})) == ActiveOf(s, ks - todo) + if Active(s, k) then {k} else {}
  {
  }

  // ---- what was answered -----------------------------------------------------------------------

  /** Only requests for items of `ks`. */
  predicate ItemCalls(cs: seq<Call>, ks: set<Key>) {
    forall i :: 0 <= i < |cs| ==> (cs[i].GetSent? || cs[i].PutSent?) && cs[i].key in ks
  }

  predicate ItemGets(cs: seq<Call>, ks: set<Key>) {
    forall i :: 0 <= i < |cs| ==> cs[i].GetSent? && cs[i].key in ks
  }

  predicate NoPuts(cs: seq<Call>) {
    forall i :: 0 <= i < |cs| ==> !cs[i].PutSent?
  }

  /** The item map drops or lowers an item the client knows. */
  ghost predicate Regressive(g: Global, c: ClientId, versions: map<Key, nat>) {
    exists k :: SeenIn(versions, k) < RecordOf(g, c, k).version
  }

  /** The answer takes back something that client `c` has recorded in `g`. */
  ghost predicate Backwards(g: Global, c: ClientId, call: Call) {
    match call
    case HeadRead(head) => head.Answer? && head.value < LedgerOf(g, c).0.head
    case MapRead(items) =>
      items.Answer? && (items.value.head < LedgerOf(g, c).0.head || Regressive(g, c, items.value.versions))
    case _ => false
  }

  ghost predicate TookBack(g: Global, c: ClientId, cs: seq<Call>) {
    exists i :: 0 <= i < |cs| && Backwards(g, c, cs[i])
  }

  /** How a pass ends that meets such an answer: with the rollback error, or without the list of stored items
      to compare with. */
  predicate StoppedBy(st: Status, cs: seq<Call>) {
    st == Failed(Rollback) || (st == Failed(Unavailable) && cs != [] && cs[|cs| - 1] == ItemsListed(st))
  }

  /** Nothing is uploaded after an answer that takes something back. */
  ghost predicate NoPutAfter(g: Global, c: ClientId, cs: seq<Call>) {
    forall i, j :: 0 <= i < j < |cs| && Backwards(g, c, cs[i]) ==> !cs[j].PutSent?
  }

  /** What is taken back earlier is taken back later. */
  lemma BackwardsLater(g: Global, h: Global, c: ClientId, cs: seq<Call>)
    requires Forward(g, h, c)
    ensures forall i :: 0 <= i < |cs| && Backwards(g, c, cs[i]) ==> Backwards(h, c, cs[i])
    ensures TookBack(g, c, cs) ==> TookBack(h, c, cs)
  {
    forall i | 0 <= i < |cs| && Backwards(g, c, cs[i]) ensures Backwards(h, c, cs[i]) {
      if cs[i].MapRead? && Regressive(g, c, cs[i].items.value.versions) {
        var k :| SeenIn(cs[i].items.value.versions, k) < RecordOf(g, c, k).version;
        assert RecordOf(g, c, k).version <= RecordOf(h, c, k).version;
      }
    }
  }

  // ---- snapshot reconciliation -----------------------------------------------------------------

  /** All values in the snapshot are present, and stay so. */
  ghost predicate Present(e: Engine, values: map<Key, Bytes>)
    reads e.w`g
  {
    forall k :: k in values ==> e.View(k).value.Some?
  }

  /** The engine was not asked to leave the scope the application fixed. */
  predicate InScope(fixedScope: Option<Scope>, ks: set<Key>) {
    fixedScope.Some? ==> forall k :: k in ks ==> Active(fixedScope.value, k)
  }

  /** Record `m` was compared with the value `x`: it is in conflict, queued, or has that value as its clean base. */
  predicate Compared(m: Meta, x: Bytes) {
    m.conflict || m.dirty || (HasMergeBase(m) && x == m.baseValue)
  }

  /** ... at some moment since. */
  ghost predicate ComparedSince(states: seq<Global>, from: nat, c: ClientId, k: Key, x: Bytes) {
    exists j :: from <= j < |states| && Compared(RecordOf(states[j], c, k), x)
  }

  ghost predicate AllCompared(states: seq<Global>, from: nat, c: ClientId, values: map<Key, Bytes>, ks: set<Key>) {
    forall k :: k in ks && k in values ==> ComparedSince(states, from, c, k, values[k])
  }

  lemma ComparedLater(states: seq<Global>, from: nat, later: seq<Global>, earlier: nat, c: ClientId,
          values: map<Key, Bytes>, ks: set<Key>)
    requires AllCompared(states, from, c, values, ks) && states <= later && earlier <= from
    ensures AllCompared(later, earlier, c, values, ks)
  {
    forall k | k in ks && k in values ensures ComparedSince(later, earlier, c, k, values[k]) {
      assert ComparedSince(states, from, c, k, values[k]);
      var j :| from <= j < |states| && Compared(RecordOf(states[j], c, k), values[k]);
      assert Compared(RecordOf(later[j], c, k), values[k]);
    }
  }

  /** One snapshot of every registered collection, in order. */
  predicate Taken(registered: seq<string>, shots: seq<Shot>) {
    |shots| == |registered| && forall i :: 0 <= i < |shots| ==> shots[i].collection == registered[i]
  }

  /** Every active item found in a snapshot was compared with the value found there. */
  ghost predicate ShotsCompared(states: seq<Global>, from: nat, c: ClientId, scope: Scope, shots: seq<Shot>) {
    forall i :: 0 <= i < |shots| ==>
      AllCompared(states, from, c, shots[i].values, ActiveOf(scope, shots[i].values.Keys))
  }

  lemma ShotsComparedLater(states: seq<Global>, from: nat, later: seq<Global>, earlier: nat, c: ClientId, scope: Scope,
          shots: seq<Shot>)
    requires ShotsCompared(states, from, c, scope, shots) && states <= later && earlier <= from
    ensures ShotsCompared(later, earlier, c, scope, shots)
  {
    forall i | 0 <= i < |shots|
      ensures AllCompared(later, earlier, c, shots[i].values, ActiveOf(scope, shots[i].values.Keys))
    {
      ComparedLater(states, from, later, earlier, c, shots[i].values, ActiveOf(scope, shots[i].values.Keys));
    }
  }

  method ReconcileLocked(e: Engine, k: Key, value: Bytes, ghost values: map<Key, Bytes>) returns (st: Status)
    requires e.Ready() && e.View(k).value.Some? && Present(e, values)
    modifies e.w`g, e.w`states, e.w`steps, e.w`faults
    ensures e.w.faults == Blamed(old(e.w.faults), st)
    ensures e.Ready() && Session(e.c, {k}, e.w.calm, old(e.w.steps), e.w.steps) && e.Ledger() == old(e.Ledger())
    ensures st.Failed? ==> st.error.Unavailable?
    ensures st.Ok? ==> Present(e, values) && Compared(e.Stored(k), value)
    ensures e.w.calm && Some(value) == old(e.View(k).value) ==>
        st.Ok? && Changed(old(e.w.g), e.w.g, e.c, {k}, Reconciling())
  {
    e.w.PastHere();
    ghost var s0, g0 := e.w.steps, e.w.g;
    st := e.ReconcileSnapshotValue(k, value);
    e.w.PastHere();
    Elsewhere(e.w.start, e.w.honest, s0, g0, e.w.steps, e.w.g, e.c, {k}, e.w.calm);
    if st.Ok? {
      forall j | j in values ensures e.View(j).value.Some? {
        if j != k {
          assert Drift(ViewOf(g0, e.c, j), ViewOf(e.w.g, e.c, j), false);
        }
      }
    }
  }

  /** The snapshot values are those of state `g`. */
  ghost predicate Fresh(g: Global, c: ClientId, values: map<Key, Bytes>) {
    forall k :: k in values ==> Some(values[k]) == ViewOf(g, c, k).value
  }

  /** One more active item of a collection whose reconciliation started in `g0` after the steps `s0` and has handled
      `touched`. */
  method ReconcileNext(e: Engine, k: Key, values: map<Key, Bytes>, ghost g0: Global, ghost s0: seq<Action>,
                       ghost touched: set<Key>)
    returns (st: Status)
    requires e.Ready() && Present(e, values) && k in values && k !in touched && |s0| <= |e.w.steps|
    requires AllCompared(e.w.states, |s0|, e.c, values, touched)
    requires Session(e.c, touched, e.w.calm, s0, e.w.steps) && e.Ledger() == LedgerOf(g0, e.c)
    requires e.w.calm && Fresh(g0, e.c, values) ==> Changed(g0, e.w.g, e.c, touched, Reconciling())
    modifies e.w`g, e.w`states, e.w`steps, e.w`faults
    ensures e.w.faults == Blamed(old(e.w.faults), st)
    ensures e.Ready() && Session(e.c, touched + {k}, e.w.calm, s0, e.w.steps) && e.Ledger() == LedgerOf(g0, e.c)
    ensures st.Ok? ==> Present(e, values) && AllCompared(e.w.states, |s0|, e.c, values, touched + {k})
    ensures st.Failed? ==> st.error.Unavailable?
    ensures e.w.calm && Fresh(g0, e.c, values) ==>
      st.Ok? && Changed(g0, e.w.g, e.c, touched + {k}, Reconciling())
  {
    ghost var g1, s1, states := e.w.g, e.w.steps, e.w.states;
    st := ReconcileLocked(e, k, values[k], values);
    StatesGrow(states, s1, e.w.states, e.w.steps, e.w.honest);
    ComparedLater(states, |s0|, e.w.states, |s0|, e.c, values, touched);
    assert e.w.states[|e.w.steps|] == e.w.g;
    SessionsCompose(e.c, touched, {k}, e.w.calm, s0, s1, e.w.steps);
    if e.w.calm && Fresh(g0, e.c, values) {
      assert Some(values[k]) == ViewOf(g1, e.c, k).value;
      ChangedFurther(g0, g1, e.w.g, e.c, touched, k, Reconciling());
    }
  }

  /** Where the reconciliation of a collection's values stands that started in `g0`: `todo` is left. */
  ghost predicate ReconcileLoop(e: Engine, values: map<Key, Bytes>, g0: Global, s0: seq<Action>, todo: set<Key>,
                                touched: set<Key>)
    reads e.w`g, e.w`states, e.w`steps
  {
    && todo <= values.Keys && touched <= values.Keys - todo && InScope(e.w.fixedScope, touched)
    && e.Ready() && Session(e.c, touched, e.w.calm, s0, e.w.steps) && e.Ledger() == LedgerOf(g0, e.c)
    && Present(e, values) && AllCompared(e.w.states, |s0|, e.c, values, touched)
    && (e.w.fixedScope.Some? ==> touched == ActiveOf(e.w.fixedScope.value, values.Keys - todo))
    && (e.w.calm && Fresh(g0, e.c, values) ==> Changed(g0, e.w.g, e.c, touched, Reconciling()))
  }

  /** One turn of it; the scope is loaded when first needed. */
  method ReconcileTurn(e: Engine, k: Key, values: map<Key, Bytes>, cache: Option<Scope>, ghost g0: Global,
                       ghost s0: seq<Action>, ghost todo: set<Key>, ghost touched: set<Key>)
    returns (st: Status, cache': Option<Scope>, ghost touched': set<Key>)
    requires Configured(e) && ReconcileLoop(e, values, g0, s0, todo, touched) && k in todo
    requires cache.Some? && e.w.fixedScope.Some? ==> cache == e.w.fixedScope
    modifies e.w`g, e.w`states, e.w`steps, e.w`faults
    ensures e.w.faults == Blamed(old(e.w.faults), st) && (st.Failed? ==> st.error.Unavailable?)
    ensures st.Ok? ==> ReconcileLoop(e, values, g0, s0, todo - {k}, touched')
    ensures cache'.Some? && e.w.fixedScope.Some? ==> cache' == e.w.fixedScope
    ensures e.Ready() && Session(e.c, touched', e.w.calm, s0, e.w.steps) && e.Ledger() == LedgerOf(g0, e.c)
    ensures InScope(e.w.fixedScope, touched') && (e.w.calm && Fresh(g0, e.c, values) ==> st.Ok?)
  {
    touched' := touched;
    st, cache' := LoadScopeOnce(e, cache);
    if st.Failed? {
      return;
    }
    ActiveOfMore(cache'.value, values.Keys, todo, k);
    if Active(cache'.value, k) {
      st := ReconcileNext(e, k, values, g0, s0, touched);
      touched' := touched + {k};
    }
  }

  /** One collection of `reconcileLocalSnapshots`. */
  method ReconcileCollection(e: Engine, values: map<Key, Bytes>, cache: Option<Scope>)
    returns (st: Status, cache': Option<Scope>, ghost touched: set<Key>)
    requires Configured(e) && e.Ready() && Present(e, values)
    requires cache.Some? && e.w.fixedScope.Some? ==> cache == e.w.fixedScope
    modifies e.w`g, e.w`states, e.w`steps, e.w`faults
    ensures e.w.faults == Blamed(old(e.w.faults), st)
    ensures e.Ready() && Session(e.c, touched, e.w.calm, old(e.w.steps), e.w.steps) && e.Ledger() == old(e.Ledger())
    ensures InScope(e.w.fixedScope, touched)
    ensures cache'.Some? && e.w.fixedScope.Some? ==> cache' == e.w.fixedScope
    ensures st.Failed? ==> st.error.Unavailable?
    ensures st.Ok? && e.w.fixedScope.Some? ==>
      AllCompared(e.w.states, |old(e.w.steps)|, e.c, values, ActiveOf(e.w.fixedScope.value, values.Keys))
    ensures e.w.calm && Fresh(old(e.w.g), e.c, values) ==>
      && st.Ok? && Changed(old(e.w.g), e.w.g, e.c, touched, Reconciling())
      && touched == ActiveOf(e.w.fixedScope.value, values.Keys)
  {
    st, cache', touched := Ok, cache, {};
    ghost var g0, s0, faults := e.w.g, e.w.steps, e.w.faults;
    var todo := values.Keys;
    while todo != {}
      invariant ReconcileLoop(e, values, g0, s0, todo, touched) && st.Ok? && e.w.faults == faults
      invariant cache'.Some? && e.w.fixedScope.Some? ==> cache' == e.w.fixedScope
    {
      var k :| k in todo;
      st, cache', touched := ReconcileTurn(e, k, values, cache', g0, s0, todo, touched);
      todo := todo - {k};
      if st.Failed? {
        return;
      }
    }
    assert values.Keys - todo == values.Keys;
  }

  /** The items of the scope in the first `n` registered collections. */
  function ItemsIn(scope: Scope, registered: seq<string>, n: nat): set<Key>
    requires n <= |registered|
  {
    set k | k in scope.items && k.collection in registered[..n]
  }

  /** A collection's present values stand for all its items: absent ones need no reconciliation. */
  lemma CollectionReconciled(g: Global, g1: Global, h: Global, c: ClientId, scope: Scope, registered: seq<string>,
          n: nat, values: map<Key, Bytes>, ks: set<Key>)
    requires n < |registered| && WellScoped(scope) && registered[n] !in registered[..n]
    requires Changed(g, g1, c, ItemsIn(scope, registered, n), Reconciling())
    requires forall k :: k in values <==> k.collection == registered[n] && ViewOf(g1, c, k).value.Some?
    requires ks == ActiveOf(scope, values.Keys)
    requires Changed(g1, h, c, ks, Reconciling())
    ensures Changed(g, h, c, ItemsIn(scope, registered, n + 1), Reconciling())
  {
    forall k
      ensures ViewOf(h, c, k) ==
          if k in ItemsIn(scope, registered, n + 1) then ReconcileItem(ViewOf(g, c, k)) else ViewOf(g, c, k)
    {
      assert registered[..n + 1] == registered[..n] + [registered[n]];
      assert ViewOf(g1, c, k) ==
          if k in ItemsIn(scope, registered, n) then ReconcileItem(ViewOf(g, c, k)) else ViewOf(g, c, k);
      assert ViewOf(h, c, k) == if k in ks then ReconcileItem(ViewOf(g1, c, k)) else ViewOf(g1, c, k);
    }
  }

  /** What `reconcileLocalSnapshots` has achieved since the steps `s0`: the snapshots `shots` were taken and their
      active items compared. */
  ghost predicate ReconciledSince(e: Engine, s0: seq<Action>, old_: seq<Shot>, shots: seq<Shot>)
    reads e.w`states, e.w`shots
  {
    && e.w.shots == old_ + shots
    && (e.w.fixedScope.Some? ==> ShotsCompared(e.w.states, |s0|, e.c, e.w.fixedScope.value, shots))
  }

  method ReconcileLocalSnapshots(e: Engine) returns (st: Status, ghost touched: set<Key>, ghost shots: seq<Shot>)
    requires Configured(e) && e.Ready()
    modifies e.w`g, e.w`states, e.w`steps, e.w`faults, e.w`shots
    ensures e.w.faults == Blamed(old(e.w.faults), st)
    ensures old(e.w.shots) <= e.w.shots
    ensures st.Ok? ==> Taken(e.registered, shots) && ReconciledSince(e, old(e.w.steps), old(e.w.shots), shots)
    ensures e.Ready() && Session(e.c, touched, e.w.calm, old(e.w.steps), e.w.steps) && e.Ledger() == old(e.Ledger())
    ensures InScope(e.w.fixedScope, touched)
    ensures st.Failed? ==> st.error.Unavailable?
    ensures e.w.calm ==> st.Ok? && Changed(old(e.w.g), e.w.g, e.c, e.w.fixedScope.value.items, Reconciling())
  {
    st, touched, shots := Ok, {}, [];
    ghost var g0, s0, faults, taken := e.w.g, e.w.steps, e.w.faults, e.w.shots;
    var cache: Option<Scope> := None;
    var i := 0;
    while i < |e.registered|
      invariant 0 <= i <= |e.registered| && st.Ok? && e.w.faults == faults
      invariant taken <= e.w.shots && Taken(e.registered[..i], shots) && ReconciledSince(e, s0, taken, shots)
      invariant e.Ready() && Session(e.c, touched, e.w.calm, s0, e.w.steps) && e.Ledger() == LedgerOf(g0, e.c)
      invariant InScope(e.w.fixedScope, touched)
      invariant cache.Some? && e.w.fixedScope.Some? ==> cache == e.w.fixedScope
      invariant e.w.calm ==> Changed(g0, e.w.g, e.c, ItemsIn(e.w.fixedScope.value, e.registered, i), Reconciling())
    {
      ghost var g1, s1, more := e.w.g, e.w.steps, {};
      ghost var shot;
      st, cache, more, shot := ReconcileRegistered(e, e.registered[i], cache, s0, taken, shots);
      SessionsCompose(e.c, touched, more, e.w.calm, s0, s1, e.w.steps);
      touched := touched + more;
      if st.Failed? {
        return;
      }
      shots := shots + [shot];
      if e.w.calm {
        CollectionReconciled(g0, g1, e.w.g, e.c, e.w.fixedScope.value, e.registered, i, shot.values, more);
      }
      assert e.registered[..i + 1] == e.registered[..i] + [e.registered[i]];
      i := i + 1;
    }
    assert e.registered[..i] == e.registered;
    if e.w.calm {
      assert ItemsIn(e.w.fixedScope.value, e.registered, i) == e.w.fixedScope.value.items;
    }
  }

  /** The snapshot of one registered collection and its reconciliation, after the snapshots `shots`. */
  method ReconcileRegistered(e: Engine, collection: string, cache: Option<Scope>, ghost s0: seq<Action>,
                             ghost taken: seq<Shot>, ghost shots: seq<Shot>)
    returns (st: Status, cache': Option<Scope>, ghost touched: set<Key>, ghost shot: Shot)
    requires Configured(e) && e.Ready() && |s0| <= |e.w.steps| && ReconciledSince(e, s0, taken, shots)
    requires cache.Some? && e.w.fixedScope.Some? ==> cache == e.w.fixedScope
    modifies e.w`g, e.w`states, e.w`steps, e.w`faults, e.w`shots
    ensures e.w.faults == Blamed(old(e.w.faults), st)
    ensures old(e.w.shots) <= e.w.shots
    ensures st.Ok? ==> shot.collection == collection && ReconciledSince(e, s0, taken, shots + [shot])
    ensures e.Ready() && Session(e.c, touched, e.w.calm, old(e.w.steps), e.w.steps) && e.Ledger() == old(e.Ledger())
    ensures InScope(e.w.fixedScope, touched)
    ensures cache'.Some? && e.w.fixedScope.Some? ==> cache' == e.w.fixedScope
    ensures st.Failed? ==> st.error.Unavailable?
    ensures e.w.calm ==>
      && st.Ok? && Changed(old(e.w.g), e.w.g, e.c, touched, Reconciling())
      && touched == ActiveOf(e.w.fixedScope.value, shot.values.Keys)
      && (forall k ::
          k in shot.values <==> k.collection == collection && ViewOf(old(e.w.g), e.c, k).value.Some?)
  {
    ghost var s1, states := e.w.steps, e.w.states;
    cache', touched := cache, {};
    var values;
    st, values := e.w.Snapshot(e.c, collection);
    shot := Shot(collection, values);
    if st.Failed? {
      return;
    }
    ghost var s2 := e.w.steps;
    st, cache', touched := ReconcileCollection(e, values, cache);
    SessionsCompose(e.c, {}, touched, e.w.calm, s1, s2, e.w.steps);
    assert {} + touched == touched;
    StatesGrow(states, s1, e.w.states, e.w.steps, e.w.honest);
    if st.Ok? && e.w.fixedScope.Some? {
      var scope := e.w.fixedScope.value;
      ShotsComparedLater(states, |s0|, e.w.states, |s0|, e.c, scope, shots);
      ComparedLater(e.w.states, |s2|, e.w.states, |s0|, e.c, values, ActiveOf(scope, values.Keys));
    }
  }

  // ---- reconciliation with the server ----------------------------------------------------------

  /** Stored records are well shaped and, with an honest server, within its history. */
  ghost predicate Sound(honest: bool, g: Global, c: ClientId) {
    && (forall k :: Shape(RecordOf(g, c, k)))
    && (honest ==> forall k :: RecordOf(g, c, k).version <= |HistOf(g, k)|)
    && (honest ==> LedgerOf(g, c).0.head <= g.head == Total(VersionsOf(g.hist)))
  }

  lemma RecordsAreSound(e: Engine)
    requires e.Ready()
    ensures Sound(e.w.honest, e.w.g, e.c)
  {
    forall k
      ensures Shape(RecordOf(e.w.g, e.c, k))
      ensures e.w.honest ==> RecordOf(e.w.g, e.c, k).version <= |HistOf(e.w.g, k)|
    {
      e.w.Shaped(e.c, k);
      if e.w.honest {
        e.w.Known(e.c, k);
      }
    }
    if e.w.honest {
      e.w.Known(e.c, Key("", ""));
      var seen := e.w.g.clients[e.c].seen;
      forall j ensures SeenIn(seen, j) <= SeenIn(VersionsOf(e.w.g.hist), j) {
        assert SeenIn(seen, j) <= |HistOf(e.w.g, j)|;
      }
      TotalBelow(seen, VersionsOf(e.w.g.hist));
    }
  }

  /** A saved head that has reached the server's accounts for every version. */
  lemma EqualHeadAccounts(e: Engine)
    requires e.Ready()
    ensures e.w.honest && e.w.g.head <= e.Ledger().0.head ==> Below(VersionsOf(e.w.g.hist), e.Ledger().1)
  {
    if e.w.honest && e.w.g.head <= e.Ledger().0.head {
      e.w.Known(e.c, Key("", ""));
      var seen := e.w.g.clients[e.c].seen;
      forall j ensures SeenIn(seen, j) <= SeenIn(VersionsOf(e.w.g.hist), j) {
        assert SeenIn(seen, j) <= |HistOf(e.w.g, j)|;
      }
      TotalBelow(seen, VersionsOf(e.w.g.hist));
    }
  }

  ghost predicate KnownKeys(scope: Scope, local: map<Key, nat>) {
    scope.items <= local.Keys
  }

  /** `local` holds the known version of every active item. */
  ghost predicate KnownVersions(g: Global, c: ClientId, scope: Scope, local: map<Key, nat>) {
    && KnownKeys(scope, local)
    && (forall k :: k in local ==> Active(scope, k) && local[k] == RecordOf(g, c, k).version)
  }

  /** The first loop of `syncNamespaceItems`: check the map against every stored item, active or not,
      and collect the active ones. */
  method CollectLocalItems(items: map<Key, Meta>, versions: map<Key, nat>, scope: Scope)
    returns (ok: bool, local: map<Key, nat>)
    requires WellScoped(scope)
    ensures ok <==> forall k :: k in items ==> items[k].version <= SeenIn(versions, k)
    ensures ok ==> forall k :: k in local <==> k in scope.items || (k in items && Active(scope, k))
    ensures ok ==> forall k :: k in local ==> local[k] == if k in items then items[k].version else 0
  {
    local := map k | k in scope.items :: 0;
    var todo := items.Keys;
    while todo != {}
      invariant todo <= items.Keys
      invariant forall k :: k in items && k !in todo ==> items[k].version <= SeenIn(versions, k)
      invariant forall k :: k in local <==> k in scope.items || (k in items && k !in todo && Active(scope, k))
      invariant forall k :: k in local ==> local[k] == if k in items && k !in todo then items[k].version else 0
    {
      var k :| k in todo;
      todo := todo - {k};
      if k in versions && versions[k] < items[k].version {
        return false, local;
      }
      if k !in versions && items[k].version > 0 {
        return false, local;
      }
      if Active(scope, k) {
        local := local[k := items[k].version];
      }
    }
    ok := true;
  }

  ghost predicate SameViews(g: Global, h: Global, c: ClientId) {
    forall k :: ViewOf(h, c, k) == ViewOf(g, c, k)
  }

  /** The head is determined by the histories. */
  lemma SameHistoriesSameHead(g: Global, h: Global, c: ClientId)
    requires Sound(true, g, c) && Sound(true, h, c)
    requires forall k :: |ViewOf(h, c, k).hist| == |ViewOf(g, c, k).hist|
    ensures h.head == g.head
  {
    forall k ensures SeenIn(VersionsOf(g.hist), k) == SeenIn(VersionsOf(h.hist), k) {
      assert |ViewOf(h, c, k).hist| == |ViewOf(g, c, k).hist|;
    }
    TotalBelow(VersionsOf(g.hist), VersionsOf(h.hist));
    TotalBelow(VersionsOf(h.hist), VersionsOf(g.hist));
  }

  /** The stored items were listed, or the store failed. */
  predicate Listed(call: Call) {
    call == ItemsListed(Ok) || call == ItemsListed(Failed(Unavailable))
  }

  /** The item map came, its head is not below `least`, and the stored items could be listed: none of them is
      dropped or lowered. */
  ghost predicate MapAccepted(g: Global, c: ClientId, least: nat, cs: seq<Call>) {
    && |cs| >= 2 && cs[0].MapRead? && cs[0].items.Answer? && cs[1] == ItemsListed(Ok)
    && least <= cs[0].items.value.head && !Regressive(g, c, cs[0].items.value.versions)
  }

  /** The item map came, and its head is below `least` or it drops or lowers a listed item. */
  ghost predicate MapRejected(g: Global, c: ClientId, least: nat, cs: seq<Call>) {
    && |cs| >= 1 && cs[0].MapRead? && cs[0].items.Answer?
    && (cs[0].items.value.head < least
        || (|cs| >= 2 && cs[1] == ItemsListed(Ok) && Regressive(g, c, cs[0].items.value.versions)))
  }

  function Larger(a: nat, b: nat): nat {
    if a < b then b else a
  }

  /** No recorded version of client `c` differs. */
  ghost predicate SameVersions(g: Global, h: Global, c: ClientId) {
    forall k :: RecordOf(h, c, k).version == RecordOf(g, c, k).version
  }

  /** Interference changes no recorded version. */
  lemma DriftKeepsVersions(g: Global, h: Global, c: ClientId)
    requires forall k :: Shape(RecordOf(g, c, k)) && Drift(ViewOf(g, c, k), ViewOf(h, c, k), false)
    ensures SameVersions(g, h, c)
  {
    forall k ensures RecordOf(h, c, k).version == RecordOf(g, c, k).version {
      assert Shape(RecordOf(g, c, k)) && Drift(ViewOf(g, c, k), ViewOf(h, c, k), false);
      DriftKeepsVersion(ViewOf(g, c, k), ViewOf(h, c, k), 0);
    }
  }

  lemma SameRegressive(g: Global, h: Global, c: ClientId, versions: map<Key, nat>)
    requires SameVersions(g, h, c)
    ensures Regressive(g, c, versions) <==> Regressive(h, c, versions)
  {
    if k :| SeenIn(versions, k) < RecordOf(g, c, k).version {
      assert RecordOf(h, c, k).version == RecordOf(g, c, k).version;
    }
    if k :| SeenIn(versions, k) < RecordOf(h, c, k).version {
      assert RecordOf(h, c, k).version == RecordOf(g, c, k).version;
    }
  }

  /** `GetNamespaceItems`, as the client finds itself afterwards. */
  method ReadItemMap(e: Engine) returns (st: Status, versions: map<Key, nat>, head: nat)
    requires e.Ready()
    modifies e.w`g, e.w`states, e.w`steps, e.w`faults, e.w`calls
    ensures e.w.faults == Blamed(old(e.w.faults), st)
    ensures e.w.calls == old(e.w.calls) + [MapRead(ReplyOf(st, ItemMap(versions, head)))]
    ensures e.Ready() && Session(e.c, {}, e.w.calm, old(e.w.steps), e.w.steps)
    ensures e.Ledger().0 == old(e.Ledger().0) && e.Ledger().1 == old(e.Ledger().1)
    ensures SameVersions(old(e.w.g), e.w.g, e.c)
    ensures st.Failed? ==> st.error.Unauthorized? || st.error.Unavailable?
    ensures e.w.honest && st.Ok? ==> versions == VersionsOf(old(e.w.g.hist)) && head == old(e.w.g.head)
    ensures e.w.honest && st.Ok? ==> head == Total(versions) && forall k :: SeenIn(versions, k) <= |HistOf(e.w.g, k)|
    ensures e.w.honest ==> e.Ledger().0.head <= old(e.w.g.head)
    ensures e.w.honest && st.Ok? ==> Below(e.Ledger().1, versions)
    ensures e.w.calm ==>
      st.Ok? && SameViews(old(e.w.g), e.w.g, e.c) && e.w.g.hist == old(e.w.g.hist)
      && e.Ledger().2 == old(e.Ledger().2) + 1
  {
    RecordsAreSound(e);
    e.w.PastHere();
    ghost var s0, g0 := e.w.steps, e.w.g;
    st, versions, head := e.w.GetNamespaceItems(e.c);
    e.w.PastHere();
    Elsewhere(e.w.start, e.w.honest, s0, g0, e.w.steps, e.w.g, e.c, {}, e.w.calm);
    DriftKeepsVersions(g0, e.w.g, e.c);
  }

  /** How listing the stored items ended, if what follows ends with `st`. */
  function Listing(st: Status): Status {
    if st == Failed(Unavailable) then st else Ok
  }

  /** The list of stored items, compared with the map. */
  method CheckItemMap(e: Engine, versions: map<Key, nat>, scope: Scope) returns (st: Status, local: map<Key, nat>)
    requires e.Ready() && WellScoped(scope)
    modifies e.w`g, e.w`states, e.w`steps, e.w`faults, e.w`calls
    ensures e.w.faults == Blamed(old(e.w.faults), st)
    ensures e.w.calls == old(e.w.calls) + [ItemsListed(Listing(st))]
    ensures st.Ok? ==> !Regressive(old(e.w.g), e.c, versions) && KnownVersions(e.w.g, e.c, scope, local)
    ensures st.Failed? ==> st.error.Unavailable? || (st.error.Rollback? && Regressive(old(e.w.g), e.c, versions))
    ensures e.Ready() && Session(e.c, {}, e.w.calm, old(e.w.steps), e.w.steps)
    ensures e.Ledger() == old(e.Ledger()) && SameVersions(old(e.w.g), e.w.g, e.c)
    ensures forall k :: HistOf(old(e.w.g), k) <= HistOf(e.w.g, k)
    ensures e.w.calm ==> !st.Failed? || st.error.Rollback?
    ensures e.w.calm ==> e.w.g == old(e.w.g)
  {
    local := map[];
    RecordsAreSound(e);
    e.w.PastHere();
    ghost var s0, g0 := e.w.steps, e.w.g;
    var items;
    st, items := e.w.ListItems(e.c);
    e.w.PastHere();
    Elsewhere(e.w.start, e.w.honest, s0, g0, e.w.steps, e.w.g, e.c, {}, e.w.calm);
    DriftKeepsVersions(g0, e.w.g, e.c);
    if st.Failed? {
      return;
    }
    var ok;
    ok, local := CollectLocalItems(items, versions, scope);
    ListedMapIsRegressive(g0, e.c, items, versions);
    if !ok {
      st := Failed(Rollback);
    }
  }

  /** Download of the item map and the checks that come before anything is changed. */
  method FetchItemMap(e: Engine, cp: Checkpoint, expectedHead: nat, scope: Scope)
    returns (st: Status, versions: map<Key, nat>, head: nat, local: map<Key, nat>, ghost cs: seq<Call>)
    requires e.Ready() && WellScoped(scope) && cp == e.Ledger().0
    requires e.w.honest ==> expectedHead <= e.w.g.head
    modifies e.w`g, e.w`states, e.w`steps, e.w`faults, e.w`calls
    ensures e.w.faults == Blamed(old(e.w.faults), st)
    ensures e.w.calls == old(e.w.calls) + cs && 1 <= |cs| <= 2
    ensures cs[0].MapRead? && (|cs| == 2 ==> Listed(cs[1]))
    ensures cs[0].items.Answer? && Larger(cp.head, expectedHead) <= cs[0].items.value.head ==> |cs| == 2
    ensures st.Ok? <==> MapAccepted(old(e.w.g), e.c, Larger(cp.head, expectedHead), cs)
    ensures st == Failed(Rollback) <==> MapRejected(old(e.w.g), e.c, Larger(cp.head, expectedHead), cs)
    ensures Stops(cs, st)
    ensures st.Ok? ==> cs[0].items == Answer(ItemMap(versions, head))
    ensures e.Ready() && Session(e.c, {}, e.w.calm, old(e.w.steps), e.w.steps)
    ensures e.Ledger().0 == old(e.Ledger().0) && e.Ledger().1 == old(e.Ledger().1)
    ensures SameVersions(old(e.w.g), e.w.g, e.c)
    ensures st.Ok? ==> KnownVersions(e.w.g, e.c, scope, local)
    ensures e.w.honest ==> Mundane(st)
    ensures e.w.honest && st.Ok? ==> head == Total(versions) && forall k :: SeenIn(versions, k) <= |HistOf(e.w.g, k)|
    ensures e.w.honest && st.Ok? ==> Below(e.Ledger().1, versions) && Below(VersionsOf(old(e.w.g.hist)), versions)
    ensures e.w.calm && e.w.honest ==>
      && st.Ok? && SameViews(old(e.w.g), e.w.g, e.c) && versions == VersionsOf(e.w.g.hist) && head == old(e.w.g.head)
      && e.Ledger().2 == old(e.Ledger().2) + 1
  {
    local := map[];
    RecordsAreSound(e);
    ghost var g0, s0 := e.w.g, e.w.steps;
    st, versions, head := ReadItemMap(e);
    cs := [MapRead(ReplyOf(st, ItemMap(versions, head)))];
    SameRegressive(g0, e.w.g, e.c, versions);
    if st.Failed? {
      return;
    }
    if head < cp.head || head < expectedHead {
      st := Failed(Rollback);
      return;
    }
    ghost var g1, s1 := e.w.g, e.w.steps;
    if e.w.honest {
      AcceptableMap(g0, g1, e.c, versions);
    }
    st, local := CheckItemMap(e, versions, scope);
    cs := cs + [ItemsListed(Listing(st))];
    SessionsCompose(e.c, {}, {}, e.w.calm, s0, s1, e.w.steps);
  }

  /** The map of an honest server is not regressive. */
  lemma AcceptableMap(g: Global, h: Global, c: ClientId, versions: map<Key, nat>)
    requires versions == VersionsOf(g.hist) && SameVersions(g, h, c)
    requires forall k :: RecordOf(g, c, k).version <= |HistOf(g, k)|
    ensures !Regressive(h, c, versions)
  {
    forall k ensures RecordOf(h, c, k).version <= SeenIn(versions, k) {
      assert RecordOf(h, c, k).version == RecordOf(g, c, k).version <= |HistOf(g, k)|;
    }
  }

  /** Items that are not listed have no recorded version. */
  lemma ListedMapIsRegressive(g: Global, c: ClientId, items: map<Key, Meta>, versions: map<Key, nat>)
    requires forall k :: k in items <==> SlotOf(g, c, k).meta.Some?
    requires forall k :: k in items ==> items[k] == RecordOf(g, c, k)
    ensures Regressive(g, c, versions) <==> exists k :: k in items && SeenIn(versions, k) < items[k].version
  {
    if k :| SeenIn(versions, k) < RecordOf(g, c, k).version {
      assert k in items;
    }
    if k :| k in items && SeenIn(versions, k) < items[k].version {
      assert SeenIn(versions, k) < RecordOf(g, c, k).version;
    }
  }

  /** Where the second loop of `syncNamespaceItems` stands: `todo` is left, everything else active is
      as new as the item map says or queued. */
  ghost predicate Pulled(honest: bool, g: Global, c: ClientId, scope: Scope, versions: map<Key, nat>,
          local: map<Key, nat>, todo: set<Key>) {
    && (forall k :: k in local && k in todo ==> local[k] <= RecordOf(g, c, k).version)
    && (honest ==> forall k :: SeenIn(versions, k) <= |HistOf(g, k)|)
    && (forall k :: k in scope.items && k !in todo ==> UpToDateOrQueued(RecordOf(g, c, k), SeenIn(versions, k)))
  }

  /** Work on item `k` brought it up to date; the rest only saw interference. */
  lemma PulledFurther(honest: bool, g: Global, h: Global, c: ClientId, scope: Scope, versions: map<Key, nat>,
          local: map<Key, nat>, todo: set<Key>, k: Key)
    requires Pulled(honest, g, c, scope, versions, local, todo + {k}) && Sound(honest, g, c)
    requires k !in todo && UpToDateOrQueued(RecordOf(h, c, k), SeenIn(versions, k))
    requires forall j :: j != k ==> Drift(ViewOf(g, c, j), ViewOf(h, c, j), false)
    requires forall j :: HistOf(g, j) <= HistOf(h, j)
    ensures Pulled(honest, h, c, scope, versions, local, todo)
  {
    forall j | j != k
      ensures RecordOf(h, c, j).version == RecordOf(g, c, j).version
      ensures UpToDateOrQueued(RecordOf(g, c, j), SeenIn(versions, j)) ==>
          UpToDateOrQueued(RecordOf(h, c, j), SeenIn(versions, j))
    {
      assert Shape(RecordOf(g, c, j));
      DriftKeepsVersion(ViewOf(g, c, j), ViewOf(h, c, j), SeenIn(versions, j));
    }
    forall j | honest ensures SeenIn(versions, j) <= |HistOf(h, j)| {
      assert SeenIn(versions, j) <= |HistOf(g, j)| && HistOf(g, j) <= HistOf(h, j);
    }
  }

  lemma NothingToPull(honest: bool, g: Global, c: ClientId, scope: Scope, versions: map<Key, nat>,
          local: map<Key, nat>, todo: set<Key>, k: Key)
    requires Pulled(honest, g, c, scope, versions, local, todo + {k}) && KnownKeys(scope, local)
    requires k in versions && k !in todo && (k in local ==> versions[k] <= local[k])
    ensures Pulled(honest, g, c, scope, versions, local, todo)
  {
    assert k in local ==> local[k] <= RecordOf(g, c, k).version;
  }

  /** An item not pulled yet is as far behind as it was when the map was read. */
  lemma StillBehind(g: Global, g1: Global, c: ClientId, scope: Scope, local: map<Key, nat>, touched: set<Key>,
          k: Key, merge: MergeFn)
    requires KnownVersions(g, c, scope, local) && Changed(g, g1, c, touched, Pulling(merge))
    requires k in local && k in g.hist && local[k] < |g.hist[k]| && k !in touched
    ensures RecordOf(g1, c, k).version < |HistOf(g1, k)| && ViewOf(g1, c, k) == ViewOf(g, c, k)
  {
    assert ViewOf(g1, c, k) == ViewOf(g, c, k);
  }

  /** The download brought an older version than the map announced. */
  predicate Lagging(call: Call, versions: map<Key, nat>) {
    call.GetSent? && call.answer.Answer? && call.answer.value.version < SeenIn(versions, call.key)
  }

  method PullLocked(e: Engine, k: Key, scope: Scope, versions: map<Key, nat>, local: map<Key, nat>,
          ghost todo: set<Key>) returns (st: Status, ghost answer: Reply<Fetched>)
    requires e.Ready() && k in local && k in versions && local[k] < versions[k] && k !in todo
    requires Pulled(e.w.honest, e.w.g, e.c, scope, versions, local, todo + {k})
    modifies e.w`g, e.w`states, e.w`steps, e.w`faults, e.w`calls
    ensures e.w.faults == Blamed(old(e.w.faults), st)
    ensures e.w.calls == old(e.w.calls) + [GetSent(k, answer)] && Stops([GetSent(k, answer)], st)
    ensures st == Failed(Rollback) <==> Lagging(GetSent(k, answer), versions)
    ensures e.Ready() && Session(e.c, {k}, e.w.calm, old(e.w.steps), e.w.steps) && e.Ledger() == old(e.Ledger())
    ensures st.Ok? ==> Pulled(e.w.honest, e.w.g, e.c, scope, versions, local, todo)
    ensures e.w.honest ==> Mundane(st)
    ensures e.w.calm && e.w.honest && old(e.Stored(k).version < |e.View(k).hist|) ==>
        Changed(old(e.w.g), e.w.g, e.c, {k}, Pulling(e.merge))
    ensures e.w.calm && e.w.honest ==> st.Ok? == !PullBreaks(old(e.View(k)), k, e.merge)
  {
    RecordsAreSound(e);
    e.w.PastHere();
    ghost var s0, g0 := e.w.steps, e.w.g;
    st, answer := e.FetchAndApplyRemoteItem(k, local[k], versions[k]);
    e.w.PastHere();
    Elsewhere(e.w.start, e.w.honest, s0, g0, e.w.steps, e.w.g, e.c, {k}, e.w.calm);
    if st.Ok? {
      PulledFurther(e.w.honest, g0, e.w.g, e.c, scope, versions, local, todo, k);
    }
  }

  /** The items of the map that the second loop downloads. */
  function Stale(versions: map<Key, nat>, local: map<Key, nat>, todo: set<Key>): set<Key> {
    set k | k in versions && k !in todo && k in local && local[k] < versions[k]
  }

  /** A state of the world to look back at. */
  ghost predicate Since(e: Engine, g0: Global, s0: seq<Action>, calls: seq<Call>, touched: set<Key>, cs: seq<Call>)
    reads e.w`g, e.w`states, e.w`steps, e.w`calls
  {
    && e.Ready() && Session(e.c, touched, e.w.calm, s0, e.w.steps) && e.Ledger() == LedgerOf(g0, e.c)
    && e.w.calls == calls + cs
  }

  /** The pull that started in `g0` is undisturbed and meets no failing merge. */
  ghost predicate ExactPull(e: Engine, g0: Global, scope: Scope, versions: map<Key, nat>) {
    e.w.calm && e.w.honest && PullsClean(g0, e.c, scope, e.merge) && versions == VersionsOf(g0.hist)
  }

  /** One more item of a pull that started in `g0` after the steps `s0` and has handled `touched`. */
  method PullNext(e: Engine, k: Key, scope: Scope, versions: map<Key, nat>, local: map<Key, nat>, ghost todo: set<Key>,
                  ghost g0: Global, ghost s0: seq<Action>, ghost calls: seq<Call>, ghost touched: set<Key>,
                  ghost cs: seq<Call>)
    returns (st: Status, ghost touched': set<Key>, ghost cs': seq<Call>)
    requires Since(e, g0, s0, calls, touched, cs) && KnownVersions(g0, e.c, scope, local)
    requires k in versions && k !in todo && touched == Stale(versions, local, todo + {k})
    requires PullCalls(cs, touched, versions, Ok) && Pulled(e.w.honest, e.w.g, e.c, scope, versions, local, todo + {k})
    requires ExactPull(e, g0, scope, versions) ==> Changed(g0, e.w.g, e.c, touched, Pulling(e.merge))
    modifies e.w`g, e.w`states, e.w`steps, e.w`faults, e.w`calls
    ensures e.w.faults == Blamed(old(e.w.faults), st)
    ensures Since(e, g0, s0, calls, touched', cs') && touched' == Stale(versions, local, todo)
    ensures PullCalls(cs', touched', versions, st)
    ensures st.Ok? ==> Pulled(e.w.honest, e.w.g, e.c, scope, versions, local, todo)
    ensures e.w.honest ==> Mundane(st)
    ensures ExactPull(e, g0, scope, versions) ==> st.Ok? && Changed(g0, e.w.g, e.c, touched', Pulling(e.merge))
  {
    st, touched', cs' := Ok, touched, cs;
    if k !in local || versions[k] <= local[k] {
      NothingToPull(e.w.honest, e.w.g, e.c, scope, versions, local, todo, k);
      return;
    }
    ghost var g1, s1, answer := e.w.g, e.w.steps, NoAnswer(Unavailable);
    if ExactPull(e, g0, scope, versions) {
      StillBehind(g0, g1, e.c, scope, local, touched, k, e.merge);
    }
    st, answer := PullLocked(e, k, scope, versions, local, todo);
    SessionsCompose(e.c, touched, {k}, e.w.calm, s0, s1, e.w.steps);
    CallsCompose(calls, cs, [GetSent(k, answer)]);
    PullCallsFurther(cs, touched, versions, st, k, answer);
    if ExactPull(e, g0, scope, versions) {
      ChangedFurther(g0, g1, e.w.g, e.c, touched, k, Pulling(e.merge));
    }
    touched', cs' := touched + {k}, cs + [GetSent(k, answer)];
  }

  /** The second loop of `syncNamespaceItems`, in any order of the item map: one download of each stale item. */
  method PullItems(e: Engine, scope: Scope, versions: map<Key, nat>, local: map<Key, nat>)
    returns (st: Status, ghost touched: set<Key>, ghost cs: seq<Call>)
    requires e.Ready() && WellScoped(scope) && KnownVersions(e.w.g, e.c, scope, local)
    requires e.w.honest ==> forall k :: SeenIn(versions, k) <= |HistOf(e.w.g, k)|
    modifies e.w`g, e.w`states, e.w`steps, e.w`faults, e.w`calls
    ensures e.w.faults == Blamed(old(e.w.faults), st)
    ensures Since(e, old(e.w.g), old(e.w.steps), old(e.w.calls), touched, cs) && PullCalls(cs, touched, versions, st)
    ensures touched <= Stale(versions, local, {}) && (st.Ok? ==> touched == Stale(versions, local, {}))
    ensures st.Ok? ==> Pulled(e.w.honest, e.w.g, e.c, scope, versions, local, {})
    ensures e.w.honest ==> Mundane(st)
    ensures ExactPull(e, old(e.w.g), scope, versions) ==>
      st.Ok? && Changed(old(e.w.g), e.w.g, e.c, Stale(versions, local, {}), Pulling(e.merge))
  {
    st, touched, cs := Ok, {}, [];
    ghost var g0, s0, calls, faults := e.w.g, e.w.steps, e.w.calls, e.w.faults;
    var todo := versions.Keys;
    while todo != {}
      invariant todo <= versions.Keys && touched == Stale(versions, local, todo) && st.Ok? && e.w.faults == faults
      invariant Since(e, g0, s0, calls, touched, cs) && PullCalls(cs, touched, versions, Ok)
      invariant Pulled(e.w.honest, e.w.g, e.c, scope, versions, local, todo)
      invariant ExactPull(e, g0, scope, versions) ==> Changed(g0, e.w.g, e.c, touched, Pulling(e.merge))
    {
      var k :| k in todo;
      assert todo - {k} + {k} == todo;
      todo := todo - {k};
      st, touched, cs := PullNext(e, k, scope, versions, local, todo, g0, s0, calls, touched, cs);
      if st.Failed? {
        return;
      }
    }
  }

  /** One GET of each item in `touched`; they end with the first that fails or lags behind the map. */
  ghost predicate PullCalls(cs: seq<Call>, touched: set<Key>, versions: map<Key, nat>, st: Status) {
    && |cs| == |touched|
    && ItemGets(cs, touched)
    && Stops(cs, st) && (st == Failed(Rollback) <==> SomeLagging(cs, versions))
  }

  predicate SomeLagging(cs: seq<Call>, versions: map<Key, nat>) {
    exists i :: 0 <= i < |cs| && Lagging(cs[i], versions)
  }

  lemma PullCallsFurther(cs: seq<Call>, touched: set<Key>, versions: map<Key, nat>, st: Status, k: Key,
          answer: Reply<Fetched>)
    requires PullCalls(cs, touched, versions, Ok) && k !in touched && Stops([GetSent(k, answer)], st)
    requires st == Failed(Rollback) <==> Lagging(GetSent(k, answer), versions)
    ensures PullCalls(cs + [GetSent(k, answer)], touched + {k}, versions, st)
  {
    var more := cs + [GetSent(k, answer)];
    StopsLater(cs, [GetSent(k, answer)], st);
    if st == Failed(Rollback) {
      assert Lagging(more[|cs|], versions);
    } else {
      forall i | 0 <= i < |more| ensures !Lagging(more[i], versions) {
        assert i < |cs| ==> !Lagging(cs[i], versions);
      }
    }
  }

  /** What is not stale needs no pull, so pulling the stale items is pulling all active ones. */
  lemma PulledEverything(g: Global, h: Global, c: ClientId, scope: Scope, local: map<Key, nat>, merge: MergeFn)
    requires WellScoped(scope) && KnownVersions(g, c, scope, local)
    requires forall k :: RecordOf(g, c, k).version <= |HistOf(g, k)|
    requires Changed(g, h, c, Stale(VersionsOf(g.hist), local, {}), Pulling(merge))
    ensures Changed(g, h, c, scope.items, Pulling(merge))
  {
    forall k
      ensures ViewOf(h, c, k) == if k in scope.items then PullItem(ViewOf(g, c, k), k, merge) else ViewOf(g, c, k)
    {
      assert ViewOf(h, c, k) ==
        if k in Stale(VersionsOf(g.hist), local, {}) then PullItem(ViewOf(g, c, k), k, merge) else ViewOf(g, c, k);
      assert k in local ==> local[k] == RecordOf(g, c, k).version;
      assert k in scope.items ==> k in local;
    }
  }

  /** Every active item is as new as the item map says, or queued. */
  ghost predicate Abreast(g: Global, c: ClientId, scope: Scope, versions: map<Key, nat>) {
    forall k :: Active(scope, k) ==> UpToDateOrQueued(RecordOf(g, c, k), SeenIn(versions, k))
  }

  /** The active items that the map says are newer. */
  ghost function StaleItems(g: Global, c: ClientId, scope: Scope, versions: map<Key, nat>): set<Key> {
    set k | k in versions && Active(scope, k) && RecordOf(g, c, k).version < versions[k]
  }

  lemma AbreastLater(g: Global, h: Global, c: ClientId, scope: Scope, versions: map<Key, nat>)
    requires Abreast(g, c, scope, versions)
    requires forall k :: Shape(RecordOf(g, c, k)) && Drift(ViewOf(g, c, k), ViewOf(h, c, k), false)
    ensures Abreast(h, c, scope, versions)
  {
    forall k | Active(scope, k) ensures UpToDateOrQueued(RecordOf(h, c, k), SeenIn(versions, k)) {
      assert Shape(RecordOf(g, c, k)) && UpToDateOrQueued(RecordOf(g, c, k), SeenIn(versions, k));
      DriftKeepsVersion(ViewOf(g, c, k), ViewOf(h, c, k), SeenIn(versions, k));
    }
  }

  /** The checkpoint is saved after the items were brought up to date. */
  method SaveReconciledCheckpoint(e: Engine, scope: Scope, versions: map<Key, nat>, local: map<Key, nat>,
          cp: Checkpoint) returns (st: Status)
    requires e.Ready() && WellScoped(scope) && Pulled(e.w.honest, e.w.g, e.c, scope, versions, local, {})
    requires e.Ledger().0.head <= cp.head && cp.scope == HashOf(scope)
    requires e.w.honest ==> cp.head == Total(versions) && Below(e.Ledger().1, versions)
    modifies e.w`g, e.w`states, e.w`steps, e.w`faults
    ensures e.w.faults == Blamed(old(e.w.faults), st)
    ensures e.Ready() && Session(e.c, {}, e.w.calm, old(e.w.steps), e.w.steps)
    ensures st.Ok? ==> e.Ledger().0 == cp && e.Ledger().1 == versions
    ensures Abreast(e.w.g, e.c, scope, versions)
    ensures st.Failed? ==> st.error.Unavailable?
    ensures e.w.calm ==> st.Ok? && SameViews(old(e.w.g), e.w.g, e.c) && e.Ledger().2 == old(e.Ledger().2)
  {
    RecordsAreSound(e);
    e.w.PastHere();
    ghost var s0, g0 := e.w.steps, e.w.g;
    st := e.w.SaveReconciled(e.c, versions, cp);
    e.w.PastHere();
    Elsewhere(e.w.start, e.w.honest, s0, g0, e.w.steps, e.w.g, e.c, {}, e.w.calm);
    AbreastLater(g0, e.w.g, e.c, scope, versions);
  }

  /** How the item map is dealt with from `g` to `h`, if the head was read as `head`: what it takes back, or a failed
      request, ends the pass before any item or checkpoint is changed. */
  ghost predicate MapCalls(g: Global, h: Global, c: ClientId, head: nat, st: Status, touched: set<Key>, cs: seq<Call>) {
    var cp, cp' := LedgerOf(g, c).0, LedgerOf(h, c).0;
    && cs != [] && cs[0].MapRead?
    && (st == Failed(Rollback) <==>
        || MapRejected(g, c, Larger(cp.head, head), cs)
        || (cs[0].items.Answer? && SomeLagging(cs, cs[0].items.value.versions)))
    && (!MapAccepted(g, c, Larger(cp.head, head), cs) ==> st.Failed? && touched == {} && cp' == cp && |cs| <= 2)
    && Stops(cs, st)
    && (cs[0].items.Answer? && Larger(cp.head, head) <= cs[0].items.value.head ==> |cs| > 1)
    && (|cs| > 1 ==> Listed(cs[1]) && ItemGets(cs[2..], touched))
    && (!AllAnswered(cs) ==> cp' == cp)
    && (st.Ok? ==> cp'.head == cs[0].items.value.head)
  }

  /** Exactly the stale active items are downloaded, each once, before the new checkpoint is saved. */
  ghost predicate MapFollowed(g: Global, h: Global, c: ClientId, scope: Scope, st: Status, touched: set<Key>,
          cs: seq<Call>) {
    cs != [] && cs[0].MapRead? && (|cs| > 1 ==> |cs| == 2 + |touched|) &&
    match cs[0].items
    case NoAnswer(_) => st.Failed? && touched == {}
    case Answer(m) =>
      && touched <= StaleItems(g, c, scope, m.versions)
      && (st.Ok? ==>
          && touched == StaleItems(g, c, scope, m.versions) && Abreast(h, c, scope, m.versions)
          && LedgerOf(h, c).0 == Checkpoint(m.head, HashOf(scope)))
  }

  /** The downloads after an accepted item map. */
  lemma AcceptedMapFollowed(g: Global, h: Global, c: ClientId, head: nat, st: Status, touched: set<Key>,
          fetched: seq<Call>, more: seq<Call>)
    requires |fetched| == 2 && MapAccepted(g, c, Larger(LedgerOf(g, c).0.head, head), fetched)
    requires ItemGets(more, touched) && Stops(more, st)
    requires st == Failed(Rollback) <==> SomeLagging(more, fetched[0].items.value.versions)
    requires !AllAnswered(more) ==> LedgerOf(h, c).0 == LedgerOf(g, c).0
    requires st.Ok? ==> LedgerOf(h, c).0.head == fetched[0].items.value.head
    ensures MapCalls(g, h, c, head, st, touched, fetched + more)
  {
    var cs := fetched + more;
    assert cs[0] == fetched[0] && cs[1] == fetched[1] && cs[2..] == more;
    StopsLater(fetched, more, st);
    SameLagging(fetched, more, fetched[0].items.value.versions);
  }

  /** Before the downloads nothing lags behind the map. */
  lemma SameLagging(fetched: seq<Call>, more: seq<Call>, versions: map<Key, nat>)
    requires forall i :: 0 <= i < |fetched| ==> !fetched[i].GetSent?
    ensures SomeLagging(fetched + more, versions) <==> SomeLagging(more, versions)
  {
    var cs := fetched + more;
    if i :| 0 <= i < |cs| && Lagging(cs[i], versions) {
      assert Lagging(more[i - |fetched|], versions);
    }
    if i :| 0 <= i < |more| && Lagging(more[i], versions) {
      assert Lagging(cs[i + |fetched|], versions);
    }
  }

  /** With the same views the same merges fail, and the same changes were made. */
  lemma SameStart(g: Global, g1: Global, h: Global, c: ClientId, scope: Scope, merge: MergeFn)
    requires SameViews(g, g1, c)
    ensures PullsClean(g, c, scope, merge) ==> PullsClean(g1, c, scope, merge)
    ensures Changed(g1, h, c, scope.items, Pulling(merge)) ==> Changed(g, h, c, scope.items, Pulling(merge))
  {
    forall k ensures ViewOf(g1, c, k) == ViewOf(g, c, k) {}
  }

  /** `syncNamespaceItems`: `cp` is the saved checkpoint, `expectedHead` the head just listed. The map
      is checked against every stored item before anything is changed; the new checkpoint is saved
      after the items. */
  method SyncNamespaceItems(e: Engine, cp: Checkpoint, expectedHead: nat, scope: Scope)
    returns (st: Status, ghost touched: set<Key>, ghost cs: seq<Call>)
    requires e.Ready() && WellScoped(scope) && cp == e.Ledger().0
    requires e.w.honest ==> expectedHead <= e.w.g.head
    modifies e.w`g, e.w`states, e.w`steps, e.w`faults, e.w`calls
    ensures e.w.faults == Blamed(old(e.w.faults), st)
    ensures e.w.calls == old(e.w.calls) + cs
    ensures MapCalls(old(e.w.g), e.w.g, e.c, expectedHead, st, touched, cs)
    ensures MapFollowed(old(e.w.g), e.w.g, e.c, scope, st, touched, cs)
    ensures forall k :: k in touched ==> Active(scope, k)
    ensures e.Ready() && Session(e.c, touched, e.w.calm, old(e.w.steps), e.w.steps)
    ensures e.w.honest && st.Ok? ==> Below(VersionsOf(old(e.w.g.hist)), e.Ledger().1)
    ensures e.w.honest ==> Mundane(st)
    ensures e.w.calm && e.w.honest && PullsClean(old(e.w.g), e.c, scope, e.merge) ==>
      && st.Ok? && Changed(old(e.w.g), e.w.g, e.c, scope.items, Pulling(e.merge))
      && e.Ledger().0 == Checkpoint(old(e.w.g.head), HashOf(scope)) && e.Ledger().2 == old(e.Ledger().2) + 1
  {
    ghost var g0, s0 := e.w.g, e.w.steps;
    touched := {};
    var versions, head, local;
    st, versions, head, local, cs := FetchItemMap(e, cp, expectedHead, scope);
    if st.Failed? {
      return;
    }
    ghost var g1, s1, fetched, more := e.w.g, e.w.steps, cs, [];
    StaleIsStale(g0, g1, e.c, scope, versions, local);
    st, touched, more := PullAndSave(e, scope, versions, head, local);
    if e.w.calm && e.w.honest {
      SameStart(g0, g1, e.w.g, e.c, scope, e.merge);
    }
    AcceptedMapFollowed(g0, e.w.g, e.c, expectedHead, st, touched, fetched, more);
    cs := fetched + more;
    CallsCompose(old(e.w.calls), fetched, more);
    SessionsCompose(e.c, {}, touched, e.w.calm, s0, s1, e.w.steps);
    assert {} + touched == touched;
  }

  /** The downloads that an accepted item map calls for, and then the new checkpoint. */
  method PullAndSave(e: Engine, scope: Scope, versions: map<Key, nat>, head: nat, local: map<Key, nat>)
    returns (st: Status, ghost touched: set<Key>, ghost cs: seq<Call>)
    requires e.Ready() && WellScoped(scope) && KnownVersions(e.w.g, e.c, scope, local) && e.Ledger().0.head <= head
    requires e.w.honest ==> forall k :: SeenIn(versions, k) <= |HistOf(e.w.g, k)|
    requires e.w.honest ==> head == Total(versions) && Below(e.Ledger().1, versions)
    modifies e.w`g, e.w`states, e.w`steps, e.w`faults, e.w`calls
    ensures e.w.faults == Blamed(old(e.w.faults), st)
    ensures e.w.calls == old(e.w.calls) + cs && |cs| == |touched| && ItemGets(cs, touched)
    ensures touched <= Stale(versions, local, {}) && (st.Ok? ==> touched == Stale(versions, local, {}))
    ensures Stops(cs, st) && (st == Failed(Rollback) <==> SomeLagging(cs, versions))
    ensures !AllAnswered(cs) ==> e.Ledger().0 == old(e.Ledger().0)
    ensures st.Ok? ==>
      && Abreast(e.w.g, e.c, scope, versions)
      && e.Ledger().0 == Checkpoint(head, HashOf(scope)) && e.Ledger().1 == versions
    ensures e.Ready() && Session(e.c, touched, e.w.calm, old(e.w.steps), e.w.steps)
    ensures e.w.honest ==> Mundane(st)
    ensures e.w.calm && e.w.honest && versions == VersionsOf(old(e.w.g.hist)) ==>
      PullsClean(old(e.w.g), e.c, scope, e.merge) ==>
      && st.Ok? && Changed(old(e.w.g), e.w.g, e.c, scope.items, Pulling(e.merge))
      && e.Ledger().2 == old(e.Ledger().2)
  {
    RecordsAreSound(e);
    ghost var g0, s0 := e.w.g, e.w.steps;
    st, touched, cs := PullItems(e, scope, versions, local);
    if ExactPull(e, g0, scope, versions) {
      PulledEverything(g0, e.w.g, e.c, scope, local, e.merge);
    }
    if st.Failed? {
      return;
    }
    ghost var s1 := e.w.steps;
    st := SaveReconciledCheckpoint(e, scope, versions, local, Checkpoint(head, HashOf(scope)));
    SessionsJoin(e.c, touched, e.w.calm, s0, s1, e.w.steps);
  }

  lemma StaleIsStale(g: Global, h: Global, c: ClientId, scope: Scope, versions: map<Key, nat>, local: map<Key, nat>)
    requires WellScoped(scope) && KnownVersions(h, c, scope, local)
    requires SameVersions(g, h, c)
    ensures Stale(versions, local, {}) == StaleItems(g, c, scope, versions)
  {
    forall k ensures k in Stale(versions, local, {}) <==> k in StaleItems(g, c, scope, versions) {
      assert k in local ==> local[k] == RecordOf(h, c, k).version == RecordOf(g, c, k).version;
    }
  }

  /** What `syncNamespaces` asks, and its outcome: the item map is read if the head moved or the scope changed. */
  ghost predicate NamespaceCalls(g: Global, h: Global, c: ClientId, st: Status, touched: set<Key>, cs: seq<Call>) {
    var cp, cp' := LedgerOf(g, c).0, LedgerOf(h, c).0;
    && cs != [] && cs[0].HeadRead?
    && (|cs| == 1 ==> touched == {} && cp' == cp)
    && Stops(cs, st)
    && (|cs| == 1 ==> (st == Failed(Rollback) <==> cs[0].head.Answer? && cs[0].head.value < cp.head))
    && (|cs| > 1 ==>
        cs[0].head.Answer? && cp.head <= cs[0].head.value && MapCalls(g, h, c, cs[0].head.value, st, touched, cs[1..]))
    && (st.Ok? ==> (|cs| > 1 <==> cs[0].head.value > cp.head || cp'.scope != cp.scope))
  }

  /** Whatever takes something back or fails stops the namespace: no checkpoint is saved. */
  lemma NamespaceStops(g: Global, h: Global, c: ClientId, st: Status, touched: set<Key>, cs: seq<Call>)
    requires NamespaceCalls(g, h, c, st, touched, cs)
    ensures TookBack(g, c, cs) ==> StoppedBy(st, cs) && touched == {} && LedgerOf(h, c).0 == LedgerOf(g, c).0
    ensures !AllAnswered(cs) ==> LedgerOf(h, c).0 == LedgerOf(g, c).0
    ensures NoPuts(cs)
  {
    assert |cs| > 2 ==> cs[2] == cs[1..][1];
    forall i | 3 <= i < |cs| ensures cs[i].GetSent? {
      assert cs[i] == cs[1..][2..][i - 3];
    }
    if !AllAnswered(cs) {
      var i :| 0 <= i < |cs| && WhyNot(cs[i]).Some?;
      assert i > 0 ==> cs[i] == cs[1..][i - 1];
    }
  }

  /** What was recorded in `g1` was recorded in `g0`. */
  lemma MapCallsEarlier(g0: Global, g1: Global, h: Global, c: ClientId, head: nat, st: Status, touched: set<Key>,
          cs: seq<Call>)
    requires SameVersions(g0, g1, c) && LedgerOf(g1, c).0 == LedgerOf(g0, c).0
    requires MapCalls(g1, h, c, head, st, touched, cs)
    ensures MapCalls(g0, h, c, head, st, touched, cs)
  {
    if cs[0].items.Answer? {
      SameRegressive(g0, g1, c, cs[0].items.value.versions);
    }
  }

  /** `ListNamespaces`, as the client finds itself afterwards. */
  method ReadHead(e: Engine) returns (st: Status, head: nat)
    requires e.Ready()
    modifies e.w`g, e.w`states, e.w`steps, e.w`faults, e.w`calls
    ensures e.w.faults == Blamed(old(e.w.faults), st)
    ensures e.w.calls == old(e.w.calls) + [HeadRead(ReplyOf(st, head))]
    ensures e.Ready() && Session(e.c, {}, e.w.calm, old(e.w.steps), e.w.steps) && e.Ledger() == old(e.Ledger())
    ensures SameVersions(old(e.w.g), e.w.g, e.c) && Below(VersionsOf(old(e.w.g.hist)), VersionsOf(e.w.g.hist))
    ensures st.Failed? ==> st.error.Unauthorized? || st.error.Unavailable?
    ensures e.w.honest && st.Ok? ==> e.Ledger().0.head <= old(e.w.g.head) == head <= e.w.g.head
    ensures e.w.calm ==> st.Ok? && e.w.g == old(e.w.g)
  {
    RecordsAreSound(e);
    e.w.PastHere();
    ghost var s0, g0 := e.w.steps, e.w.g;
    st, head := e.w.GetNamespaceHead(e.c);
    e.w.PastHere();
    Elsewhere(e.w.start, e.w.honest, s0, g0, e.w.steps, e.w.g, e.c, {}, e.w.calm);
    VersionsGrow(g0, e.w.g);
    DriftKeepsVersions(g0, e.w.g, e.c);
  }

  /** `syncNamespaces` for the namespace: read the item map if the head moved or the scope changed. */
  method SyncNamespaces(e: Engine) returns (st: Status, ghost touched: set<Key>, ghost cs: seq<Call>)
    requires Configured(e) && e.Ready()
    modifies e.w`g, e.w`states, e.w`steps, e.w`faults, e.w`calls
    ensures e.w.faults == Blamed(old(e.w.faults), st)
    ensures e.w.calls == old(e.w.calls) + cs
    ensures NamespaceCalls(old(e.w.g), e.w.g, e.c, st, touched, cs)
    ensures e.Ready() && Session(e.c, touched, e.w.calm, old(e.w.steps), e.w.steps)
    ensures InScope(e.w.fixedScope, touched)
    ensures st.Ok? ==> old(e.Ledger().0.head) <= e.Ledger().0.head
    ensures st.Ok? && e.w.fixedScope.Some? ==> e.Ledger().0.scope == HashOf(e.w.fixedScope.value)
    ensures e.w.honest && st.Ok? ==> Below(VersionsOf(old(e.w.g.hist)), e.Ledger().1)
    ensures e.w.honest ==> Mundane(st)
    ensures e.w.calm && e.w.honest ==>
      (old(Fetches(e.w.g, e.c, e.w.fixedScope.value)) ==>
          PullsClean(old(e.w.g), e.c, e.w.fixedScope.value, e.merge)) ==>
      && st.Ok?
      && Changed(old(e.w.g), e.w.g, e.c, FetchedItems(old(e.w.g), e.c, e.w.fixedScope.value), Pulling(e.merge))
      && e.Ledger().0 == Checkpoint(old(e.w.g.head), HashOf(e.w.fixedScope.value))
      && e.Ledger().2 == old(e.Ledger().2) + if old(Fetches(e.w.g, e.c, e.w.fixedScope.value)) then 1 else 0
  {
    EqualHeadAccounts(e);
    touched := {};
    ghost var g0, s0 := e.w.g, e.w.steps;
    var head;
    st, head := ReadHead(e);
    cs := [HeadRead(ReplyOf(st, head))];
    if st.Failed? {
      return;
    }
    var cp := e.Ledger().0;
    if head < cp.head {
      st := Failed(Rollback);
      return;
    }
    ghost var g1, s1, more := e.w.g, e.w.steps, [];
    st, touched, more := SyncScoped(e, head);
    NamespaceCallsMade(g0, g1, e.w.g, e.c, head, st, touched, more);
    cs := cs + more;
    if e.w.honest && st.Ok? && more != [] {
      BelowTransitive(VersionsOf(g0.hist), VersionsOf(g1.hist), e.Ledger().1);
    }
    SessionsCompose(e.c, {}, touched, e.w.calm, s0, s1, e.w.steps);
    assert {} + touched == touched;
  }

  /** The head was read as `head` when `g0` was the state, then `more` was asked. */
  lemma NamespaceCallsMade(g0: Global, g1: Global, h: Global, c: ClientId, head: nat, st: Status, touched: set<Key>,
          more: seq<Call>)
    requires SameVersions(g0, g1, c) && LedgerOf(g1, c).0 == LedgerOf(g0, c).0 && LedgerOf(g0, c).0.head <= head
    requires Stops(more, st) && (more != [] ==> MapCalls(g1, h, c, head, st, touched, more))
    requires more == [] ==>
      touched == {} && LedgerOf(h, c).0 == LedgerOf(g1, c).0 && (st.Failed? ==> st.error.Unavailable?)
    requires st.Ok? ==>
      (more != [] <==> head > LedgerOf(g0, c).0.head || LedgerOf(h, c).0.scope != LedgerOf(g0, c).0.scope)
    ensures NamespaceCalls(g0, h, c, st, touched, [HeadRead(Answer(head))] + more)
  {
    var cs := [HeadRead(Answer(head))] + more;
    StopsLater([HeadRead(Answer(head))], more, st);
    assert cs[1..] == more;
    if more != [] {
      MapCallsEarlier(g0, g1, h, c, head, st, touched, more);
    }
  }

  /** The rest of it, once the head is known. */
  method SyncScoped(e: Engine, head: nat) returns (st: Status, ghost touched: set<Key>, ghost cs: seq<Call>)
    requires Configured(e) && e.Ready() && e.Ledger().0.head <= head
    requires e.w.honest ==> head <= e.w.g.head
    modifies e.w`g, e.w`states, e.w`steps, e.w`faults, e.w`calls
    ensures e.w.faults == Blamed(old(e.w.faults), st)
    ensures e.w.calls == old(e.w.calls) + cs && Stops(cs, st)
    ensures cs == [] ==> touched == {} && e.Ledger() == old(e.Ledger()) && (st.Failed? ==> st.error.Unavailable?)
    ensures cs != [] ==> MapCalls(old(e.w.g), e.w.g, e.c, head, st, touched, cs)
    ensures st.Ok? ==> (cs != [] <==> head > old(e.Ledger().0.head) || e.Ledger().0.scope != old(e.Ledger().0.scope))
    ensures e.Ready() && Session(e.c, touched, e.w.calm, old(e.w.steps), e.w.steps)
    ensures InScope(e.w.fixedScope, touched)
    ensures st.Ok? ==> old(e.Ledger().0.head) <= e.Ledger().0.head
    ensures st.Ok? && e.w.fixedScope.Some? ==> e.Ledger().0.scope == HashOf(e.w.fixedScope.value)
    ensures e.w.honest && st.Ok? && cs != [] ==> Below(VersionsOf(old(e.w.g.hist)), e.Ledger().1)
    ensures e.w.honest ==> Mundane(st)
    ensures e.w.calm && e.w.honest && head == old(e.w.g.head) ==>
      (old(Fetches(e.w.g, e.c, e.w.fixedScope.value)) ==>
          PullsClean(old(e.w.g), e.c, e.w.fixedScope.value, e.merge)) ==>
      && st.Ok?
      && Changed(old(e.w.g), e.w.g, e.c, FetchedItems(old(e.w.g), e.c, e.w.fixedScope.value), Pulling(e.merge))
      && e.Ledger().0 == Checkpoint(old(e.w.g.head), HashOf(e.w.fixedScope.value))
      && e.Ledger().2 == old(e.Ledger().2) + if old(Fetches(e.w.g, e.c, e.w.fixedScope.value)) then 1 else 0
  {
    touched, cs := {}, [];
    var cp := e.Ledger().0;
    var scope;
    st, scope := LoadActiveScope(e);
    if st.Ok? {
      st, touched, cs := SyncListed(e, cp, head, scope);
    }
  }

  /** ... and the scope. */
  method SyncListed(e: Engine, cp: Checkpoint, head: nat, scope: Scope)
    returns (st: Status, ghost touched: set<Key>, ghost cs: seq<Call>)
    requires e.Ready() && WellScoped(scope) && cp == e.Ledger().0 && cp.head <= head
    requires e.w.honest ==> head <= e.w.g.head
    modifies e.w`g, e.w`states, e.w`steps, e.w`faults, e.w`calls
    ensures e.w.faults == Blamed(old(e.w.faults), st)
    ensures e.w.calls == old(e.w.calls) + cs && (cs != [] <==> head > cp.head || HashOf(scope) != cp.scope)
    ensures cs == [] ==> touched == {} && e.Ledger() == old(e.Ledger()) && (st.Failed? ==> st.error.Unavailable?)
    ensures Stops(cs, st)
    ensures cs != [] ==> MapCalls(old(e.w.g), e.w.g, e.c, head, st, touched, cs)
    ensures e.Ready() && Session(e.c, touched, e.w.calm, old(e.w.steps), e.w.steps)
    ensures forall k :: k in touched ==> Active(scope, k)
    ensures st.Ok? ==> cp.head <= e.Ledger().0.head && e.Ledger().0.scope == HashOf(scope)
    ensures e.w.honest && st.Ok? && cs != [] ==> Below(VersionsOf(old(e.w.g.hist)), e.Ledger().1)
    ensures e.w.honest ==> Mundane(st)
    ensures e.w.calm && e.w.honest && (cs != [] ==> PullsClean(old(e.w.g), e.c, scope, e.merge)) ==>
      && st.Ok? && Changed(old(e.w.g), e.w.g, e.c, if cs != [] then scope.items else {}, Pulling(e.merge))
      && e.Ledger().0 == Checkpoint(if cs != [] then old(e.w.g.head) else head, HashOf(scope))
      && e.Ledger().2 == old(e.Ledger().2) + if cs != [] then 1 else 0
  {
    if head > cp.head || HashOf(scope) != cp.scope {
      st, touched, cs := SyncNamespaceItems(e, cp, head, scope);
    } else {
      touched, cs := {}, [];
      st := KeepCheckpointSaved(e, Checkpoint(head, HashOf(scope)));
    }
  }

  /** Nothing to reconcile: the checkpoint is written back as it is. */
  method KeepCheckpointSaved(e: Engine, cp: Checkpoint) returns (st: Status)
    requires e.Ready() && cp == e.Ledger().0
    modifies e.w`g, e.w`states, e.w`steps, e.w`faults
    ensures e.w.faults == Blamed(old(e.w.faults), st)
    ensures e.Ready() && Session(e.c, {}, e.w.calm, old(e.w.steps), e.w.steps) && e.Ledger() == old(e.Ledger())
    ensures st.Failed? ==> st.error.Unavailable?
    ensures e.w.calm ==> st.Ok? && SameViews(old(e.w.g), e.w.g, e.c)
  {
    e.w.PastHere();
    ghost var s0, g0 := e.w.steps, e.w.g;
    st := e.w.SaveUnchanged(e.c, cp);
    e.w.PastHere();
    Elsewhere(e.w.start, e.w.honest, s0, g0, e.w.steps, e.w.g, e.c, {}, e.w.calm);
  }

  // ---- upload ----------------------------------------------------------------------------------

  /** The server head grows with the histories. */
  lemma HeadGrowsWithItem(g: Global, h: Global, c: ClientId, k: Key, f: (Key, View) -> View)
    requires Sound(true, g, c) && Sound(true, h, c) && Changed(g, h, c, {k}, f)
        && |f(k, ViewOf(g, c, k)).hist| >= |HistOf(g, k)|
    ensures h.head == g.head + |HistOf(h, k)| - |HistOf(g, k)|
  {
    var before, after := VersionsOf(g.hist), VersionsOf(h.hist)[k := |HistOf(h, k)|];
    TotalUpdate(before, k, |HistOf(h, k)|);
    TotalUpdate(VersionsOf(h.hist), k, |HistOf(h, k)|);
    forall j ensures SeenIn(before[k := |HistOf(h, k)|], j) == SeenIn(after, j) {
      assert ViewOf(h, c, j) == if j in {k} then f(j, ViewOf(g, c, j)) else ViewOf(g, c, j);
    }
    TotalBelow(before[k := |HistOf(h, k)|], after);
    TotalBelow(after, before[k := |HistOf(h, k)|]);
  }

  /** The upload of item `k` was attempted, or at some moment there was nothing to upload. */
  ghost predicate Attended(cs: seq<Call>, states: seq<Global>, from: nat, c: ClientId, k: Key) {
    (exists i :: 0 <= i < |cs| && cs[i].PutSent? && cs[i].key == k) || IdleSince(states, from, c, k)
  }

  ghost predicate AllAttended(cs: seq<Call>, states: seq<Global>, from: nat, c: ClientId, ks: set<Key>) {
    forall k :: k in ks ==> Attended(cs, states, from, c, k)
  }

  lemma AttendedLater(before: seq<Call>, cs: seq<Call>, after: seq<Call>, states: seq<Global>, from: nat,
          later: seq<Global>, earlier: nat, c: ClientId, ks: set<Key>)
    requires AllAttended(cs, states, from, c, ks) && states <= later && earlier <= from
    ensures AllAttended(before + cs + after, later, earlier, c, ks)
  {
    forall k | k in ks ensures Attended(before + cs + after, later, earlier, c, k) {
      assert Attended(cs, states, from, c, k);
      if i :| 0 <= i < |cs| && cs[i].PutSent? && cs[i].key == k {
        assert (before + cs + after)[|before| + i] == cs[i];
      } else {
        var j :| from <= j < |states| && !Uploadable(ViewOf(states[j], c, k));
        assert !Uploadable(ViewOf(later[j], c, k));
      }
    }
  }

  lemma AttendedFurther(cs: seq<Call>, more: seq<Call>, states: seq<Global>, from: nat, later: seq<Global>, at: nat,
          c: ClientId, ks: set<Key>, k: Key)
    requires AllAttended(cs, states, from, c, ks) && states <= later && from <= at && Attended(more, later, at, c, k)
    ensures AllAttended(cs + more, later, from, c, ks + {k})
  {
    assert [] + cs + more == cs + more && cs + more + [] == cs + more;
    AttendedLater([], cs, more, states, from, later, from, c, ks);
    assert AllAttended(more, later, at, c, {k});
    AttendedLater(cs, more, [], later, at, later, from, c, {k});
  }

  /** What was not dirty in some state had nothing to upload then. */
  lemma RestAttended(cs: seq<Call>, states: seq<Global>, from: nat, c: ClientId, scope: Scope, dirty: set<Key>)
    requires from < |states| && AllAttended(cs, states, from, c, ActiveOf(scope, dirty))
    requires forall k :: k in dirty <==> RecordOf(states[from], c, k).dirty
    ensures forall k :: Active(scope, k) ==> Attended(cs, states, from, c, k)
  {
    forall k | Active(scope, k) ensures Attended(cs, states, from, c, k) {
      if k in dirty {
        assert k in ActiveOf(scope, dirty);
      } else {
        assert !Uploadable(ViewOf(states[from], c, k));
      }
    }
  }

  method FlushLocked(e: Engine, k: Key, ns: Checkpoint) returns (st: Status, ns': Checkpoint, ghost cs: seq<Call>)
    requires e.Ready() && ns == e.Ledger().0
    modifies e.w`g, e.w`states, e.w`steps, e.w`faults, e.w`calls
    ensures e.w.faults == Blamed(old(e.w.faults), st)
    ensures e.w.calls == old(e.w.calls) + cs && FlushCalls(k, cs) && Stops(cs, st)
    ensures st == Failed(Rollback) <==> SomeWentBack(cs)
    ensures st.Ok? ==> Attended(cs, e.w.states, |old(e.w.steps)|, e.c, k)
    ensures e.Ready() && Session(e.c, {k}, e.w.calm, old(e.w.steps), e.w.steps)
    ensures st.Ok? ==> ns' == e.Ledger().0
    ensures e.w.honest ==> Mundane(st)
    ensures e.w.calm && e.w.honest && !FlushBreaks(old(e.View(k)), k, e.merge) ==>
      && st.Ok? && Changed(old(e.w.g), e.w.g, e.c, {k}, Flushing(e.merge))
      && old(e.w.g.head) <= e.w.g.head && ns' == ns.(head := ns.head + e.w.g.head - old(e.w.g.head))
          && e.Ledger().2 == old(e.Ledger().2)
  {
    RecordsAreSound(e);
    e.w.PastHere();
    ghost var s0, g0 := e.w.steps, e.w.g;
    st, ns', cs := e.FlushDirtyItem(k, ns);
    FlushWentBack(k, cs);
    e.w.PastHere();
    Elsewhere(e.w.start, e.w.honest, s0, g0, e.w.steps, e.w.g, e.c, {k}, e.w.calm);
    RecordsAreSound(e);
    if e.w.calm && e.w.honest && !FlushBreaks(ViewOf(g0, e.c, k), k, e.merge) {
      HeadGrowsWithItem(g0, e.w.g, e.c, k, Flushing(e.merge));
    }
  }

  /** What is not dirty needs no flush. */
  lemma FlushedEverything(g: Global, h: Global, c: ClientId, scope: Scope, dirty: set<Key>, merge: MergeFn)
    requires WellScoped(scope) && forall k :: k in dirty <==> RecordOf(g, c, k).dirty
    requires Changed(g, h, c, ActiveOf(scope, dirty), Flushing(merge))
    ensures Changed(g, h, c, scope.items, Flushing(merge))
  {
    forall k
      ensures ViewOf(h, c, k) ==
          if k in scope.items then PassSpec.FlushItem(ViewOf(g, c, k), k, merge) else ViewOf(g, c, k)
    {
      var ks := ActiveOf(scope, dirty);
      assert ViewOf(h, c, k) == if k in ks then PassSpec.FlushItem(ViewOf(g, c, k), k, merge) else ViewOf(g, c, k);
    }
  }

  /** The flush that started in `g0` is undisturbed and meets no failing merge. */
  ghost predicate ExactFlush(e: Engine, g0: Global) {
    e.w.calm && e.w.honest && e.w.fixedScope.Some? && FlushesClean(g0, e.c, e.w.fixedScope.value, e.merge)
  }

  /** Where an exact flush that started in `g0` with `ns0` stands: it has flushed `touched`. */
  ghost predicate FlushedSoFar(e: Engine, g0: Global, ns0: Checkpoint, ns: Checkpoint, touched: set<Key>)
    reads e.w`g
  {
    && Changed(g0, e.w.g, e.c, touched, Flushing(e.merge)) && g0.head <= e.w.g.head
    && ns == ns0.(head := ns0.head + e.w.g.head - g0.head) && e.Ledger().2 == LedgerOf(g0, e.c).2
  }

  /** Where a flush stands: it asked `cs` for the items `ks`, and ends with `st`. */
  ghost predicate FlushedCalls(cs: seq<Call>, ks: set<Key>, st: Status) {
    ItemCalls(cs, ks) && Stops(cs, st) && (st == Failed(Rollback) <==> SomeWentBack(cs))
  }

  lemma FlushedCallsFurther(cs: seq<Call>, ks: set<Key>, k: Key, more: seq<Call>, st: Status)
    requires FlushedCalls(cs, ks, Ok) && FlushCalls(k, more) && Stops(more, st)
    requires st == Failed(Rollback) <==> SomeWentBack(more)
    ensures FlushedCalls(cs + more, ks + {k}, st)
  {
    StopsLater(cs, more, st);
    var all := cs + more;
    forall i | 0 <= i < |cs| && i < |all| - 1 ensures !OlderThanGuard(all[i], all[i + 1]) {
      assert i + 1 < |cs| ==> !OlderThanGuard(cs[i], cs[i + 1]);
    }
    if i :| |cs| <= i < |all| - 1 && OlderThanGuard(all[i], all[i + 1]) {
      assert OlderThanGuard(more[i - |cs|], more[i - |cs| + 1]);
    }
    if i :| 0 <= i < |more| - 1 && OlderThanGuard(more[i], more[i + 1]) {
      assert OlderThanGuard(all[i + |cs|], all[i + |cs| + 1]);
    }
    forall i | 0 <= i < |all| ensures (all[i].GetSent? || all[i].PutSent?) && all[i].key in ks + {k} {
      assert i < |cs| ==> all[i] == cs[i];
      assert i >= |cs| ==> all[i] == more[i - |cs|];
    }
  }

  /** One more active item of a flush that started in `g0` after the steps `s0`, has handled `touched` and asked
      `done`. */
  method FlushNext(e: Engine, k: Key, ns: Checkpoint, ghost g0: Global, ghost s0: seq<Action>, ghost ns0: Checkpoint,
                   ghost touched: set<Key>, ghost done: seq<Call>)
    returns (st: Status, ns': Checkpoint, ghost cs: seq<Call>)
    requires e.Ready() && ns == e.Ledger().0 && Session(e.c, touched, e.w.calm, s0, e.w.steps) && k !in touched
    requires FlushedCalls(done, touched, Ok) && AllAttended(done, e.w.states, |s0|, e.c, touched)
    requires ExactFlush(e, g0) ==> FlushedSoFar(e, g0, ns0, ns, touched) && Active(e.w.fixedScope.value, k)
    modifies e.w`g, e.w`states, e.w`steps, e.w`faults, e.w`calls
    ensures e.w.faults == Blamed(old(e.w.faults), st)
    ensures e.w.calls == old(e.w.calls) + cs && FlushedCalls(done + cs, touched + {k}, st)
    ensures st.Ok? ==> AllAttended(done + cs, e.w.states, |s0|, e.c, touched + {k})
    ensures e.Ready() && Session(e.c, touched + {k}, e.w.calm, s0, e.w.steps) && (st.Ok? ==> ns' == e.Ledger().0)
    ensures e.w.honest ==> Mundane(st)
    ensures ExactFlush(e, g0) ==> st.Ok? && FlushedSoFar(e, g0, ns0, ns', touched + {k})
  {
    ghost var g1, s1, states := e.w.g, e.w.steps, e.w.states;
    st, ns', cs := FlushLocked(e, k, ns);
    SessionsCompose(e.c, touched, {k}, e.w.calm, s0, s1, e.w.steps);
    FlushedCallsFurther(done, touched, k, cs, st);
    if st.Ok? {
      StatesGrow(states, s1, e.w.states, e.w.steps, e.w.honest);
      AttendedFurther(done, cs, states, |s0|, e.w.states, |s1|, e.c, touched, k);
    }
    if ExactFlush(e, g0) {
      ChangedFurther(g0, g1, e.w.g, e.c, touched, k, Flushing(e.merge));
    }
  }

  /** Where the loop of `flushDirtyItems` stands that started in `g0` with `ns0`: of the items `dirty`, `todo` is
      left. */
  ghost predicate FlushLoop(e: Engine, g0: Global, s0: seq<Action>, ns0: Checkpoint, ns: Checkpoint, dirty: set<Key>,
                            todo: set<Key>, touched: set<Key>, cs: seq<Call>)
    reads e.w`g, e.w`states, e.w`steps
  {
    && todo <= dirty && touched <= dirty - todo && ns == e.Ledger().0
    && e.Ready() && Session(e.c, touched, e.w.calm, s0, e.w.steps) && InScope(e.w.fixedScope, touched)
    && FlushedCalls(cs, touched, Ok) && AllAttended(cs, e.w.states, |s0|, e.c, touched)
    && (e.w.fixedScope.Some? ==> touched == ActiveOf(e.w.fixedScope.value, dirty - todo))
    && (ExactFlush(e, g0) ==> FlushedSoFar(e, g0, ns0, ns, touched))
  }

  /** One turn of it; the scope is loaded when first needed. */
  method FlushTurn(e: Engine, k: Key, ns: Checkpoint, cache: Option<Scope>, ghost g0: Global, ghost s0: seq<Action>,
                   ghost ns0: Checkpoint, ghost dirty: set<Key>, ghost todo: set<Key>, ghost touched: set<Key>,
                   ghost done: seq<Call>)
    returns (st: Status, ns': Checkpoint, cache': Option<Scope>, ghost touched': set<Key>, ghost cs: seq<Call>)
    requires Configured(e) && FlushLoop(e, g0, s0, ns0, ns, dirty, todo, touched, done) && k in todo
    requires cache.Some? && e.w.fixedScope.Some? ==> cache == e.w.fixedScope
    modifies e.w`g, e.w`states, e.w`steps, e.w`faults, e.w`calls
    ensures e.w.faults == Blamed(old(e.w.faults), st)
    ensures e.w.calls == old(e.w.calls) + cs && FlushedCalls(done + cs, touched', st)
    ensures st.Ok? ==> FlushLoop(e, g0, s0, ns0, ns', dirty, todo - {k}, touched', done + cs)
    ensures cache'.Some? && e.w.fixedScope.Some? ==> cache' == e.w.fixedScope
    ensures e.Ready() && Session(e.c, touched', e.w.calm, s0, e.w.steps) && InScope(e.w.fixedScope, touched')
    ensures e.w.honest ==> Mundane(st)
    ensures ExactFlush(e, g0) ==> st.Ok?
  {
    ns', touched', cs := ns, touched, [];
    assert done + [] == done;
    st, cache' := LoadScopeOnce(e, cache);
    if st.Failed? {
      return;
    }
    ActiveOfMore(cache'.value, dirty, todo, k);
    if Active(cache'.value, k) {
      st, ns', cs := FlushNext(e, k, ns, g0, s0, ns0, touched, done);
      touched' := touched + {k};
    }
  }

  /** `flushDirtyItems`, in any order of the dirty items. */
  method FlushDirtyItems(e: Engine) returns (st: Status, ghost touched: set<Key>, ghost cs: seq<Call>)
    requires Configured(e) && e.Ready()
    modifies e.w`g, e.w`states, e.w`steps, e.w`faults, e.w`calls
    ensures e.w.faults == Blamed(old(e.w.faults), st)
    ensures e.w.calls == old(e.w.calls) + cs && FlushedCalls(cs, touched, st)
    ensures st.Ok? && e.w.fixedScope.Some? ==>
      forall k :: Active(e.w.fixedScope.value, k) ==> Attended(cs, e.w.states, |old(e.w.steps)|, e.c, k)
    ensures e.Ready() && Session(e.c, touched, e.w.calm, old(e.w.steps), e.w.steps)
    ensures InScope(e.w.fixedScope, touched)
    ensures e.w.honest ==> Mundane(st)
    ensures e.w.calm && e.w.honest && FlushesClean(old(e.w.g), e.c, e.w.fixedScope.value, e.merge) ==>
      && st.Ok? && Changed(old(e.w.g), e.w.g, e.c, e.w.fixedScope.value.items, Flushing(e.merge))
      && old(e.w.g.head) <= e.w.g.head
      && e.Ledger().0 == old(e.Ledger().0).(head := old(e.Ledger().0).head + e.w.g.head - old(e.w.g.head))
      && e.Ledger().2 == old(e.Ledger().2)
  {
    touched, cs := {}, [];
    ghost var g0, s0, calls, faults, states := e.w.g, e.w.steps, e.w.calls, e.w.faults, e.w.states;
    var dirty;
    st, dirty := e.w.ListDirty(e.c);
    if st.Failed? {
      return;
    }
    var ns, cache: Option<Scope> := e.Ledger().0, None;
    ghost var ns0 := ns;
    var todo := dirty;
    while todo != {}
      invariant FlushLoop(e, g0, s0, ns0, ns, dirty, todo, touched, cs)
      invariant st.Ok? && e.w.calls == calls + cs && e.w.faults == faults
      invariant cache.Some? && e.w.fixedScope.Some? ==> cache == e.w.fixedScope
    {
      var k :| k in todo;
      ghost var more;
      st, ns, cache, touched, more := FlushTurn(e, k, ns, cache, g0, s0, ns0, dirty, todo, touched, cs);
      CallsCompose(calls, cs, more);
      cs, todo := cs + more, todo - {k};
      if st.Failed? {
        return;
      }
    }
    StatesGrow(states, s0, e.w.states, e.w.steps, e.w.honest);
    assert e.w.states[|s0|] == g0 && dirty - todo == dirty;
    if e.w.fixedScope.Some? {
      RestAttended(cs, e.w.states, |s0|, e.c, e.w.fixedScope.value, dirty);
    }
    if ExactFlush(e, g0) {
      FlushedEverything(g0, e.w.g, e.c, e.w.fixedScope.value, dirty, e.merge);
    }
  }

  // ---- the pass --------------------------------------------------------------------------------

  /** The items a pass pulls: all active ones, if it reads the item map. */
  function FetchedItems(g: Global, c: ClientId, s: Scope): set<Key> {
    if c in g.clients && Fetches(g, c, s) then s.items else {}
  }

  function Preparing(merge: MergeFn, fetch: bool): (Key, View) -> View {
    (k, v) => if fetch then PullItem(ReconcileItem(v), k, merge) else ReconcileItem(v)
  }

  /** The merges of the first two phases are among those of the pass. */
  lemma ReconciledRunsClean(g: Global, h: Global, c: ClientId, s: Scope, merge: MergeFn)
    requires c in g.clients && WellScoped(s) && Changed(g, h, c, s.items, Reconciling())
        && PassRunsClean(g, c, s, merge)
    ensures Fetches(g, c, s) ==> PullsClean(h, c, s, merge)
  {
    forall k | Active(s, k) && Fetches(g, c, s) ensures !PullBreaks(ViewOf(h, c, k), k, merge) {
      assert ViewOf(h, c, k) == ReconcileItem(ViewOf(g, c, k)) && !PassBreaks(ViewOf(g, c, k), k, merge, true);
    }
  }

  lemma PhasesPrepare(g0: Global, g1: Global, g2: Global, c: ClientId, s: Scope, merge: MergeFn)
    requires c in g0.clients && WellScoped(s) && Changed(g0, g1, c, s.items, Reconciling())
    requires Changed(g1, g2, c, FetchedItems(g0, c, s), Pulling(merge))
    ensures Changed(g0, g2, c, s.items, Preparing(merge, Fetches(g0, c, s)))
    ensures PassRunsClean(g0, c, s, merge) ==> FlushesClean(g2, c, s, merge)
  {
    var fetch := Fetches(g0, c, s);
    forall k
      ensures ViewOf(g2, c, k) ==
          if k in s.items then Preparing(merge, fetch)(k, ViewOf(g0, c, k)) else ViewOf(g0, c, k)
    {
      assert ViewOf(g1, c, k) == if k in s.items then ReconcileItem(ViewOf(g0, c, k)) else ViewOf(g0, c, k);
      assert ViewOf(g2, c, k) == if fetch
          && k in s.items then PullItem(ViewOf(g1, c, k), k, merge) else ViewOf(g1, c, k);
    }
    forall k | PassRunsClean(g0, c, s, merge) && Active(s, k) ensures !FlushBreaks(ViewOf(g2, c, k), k, merge) {
      assert !PassBreaks(ViewOf(g0, c, k), k, merge, fetch);
    }
  }

  /** Reconciliation, pull and flush of every active item make up the pass. */
  lemma PhasesMakePass(g0: Global, g2: Global, g3: Global, c: ClientId, s: Scope, merge: MergeFn, fetch: bool)
    requires WellScoped(s) && Changed(g0, g2, c, s.items, Preparing(merge, fetch))
        && Changed(g2, g3, c, s.items, Flushing(merge))
    ensures forall k ::
              ViewOf(g3, c, k) == if Active(s, k) then PassItem(ViewOf(g0, c, k), k, merge, fetch) else ViewOf(g0, c, k)
  {
    forall k
      ensures ViewOf(g3, c, k) == if Active(s, k) then PassItem(ViewOf(g0, c, k), k, merge, fetch) else ViewOf(g0, c, k)
    {
      assert ViewOf(g2, c, k) ==
          if k in s.items then Preparing(merge, fetch)(k, ViewOf(g0, c, k)) else ViewOf(g0, c, k);
      assert ViewOf(g3, c, k) ==
          if k in s.items then PassSpec.FlushItem(ViewOf(g2, c, k), k, merge) else ViewOf(g2, c, k);
    }
  }

  lemma ReconcilingKeepsHead(g: Global, h: Global, c: ClientId, ks: set<Key>)
    requires Sound(true, g, c) && Sound(true, h, c) && Changed(g, h, c, ks, Reconciling())
    ensures h.head == g.head
  {
    forall k ensures |ViewOf(h, c, k).hist| == |ViewOf(g, c, k).hist| {
      assert ViewOf(h, c, k) == if k in ks then ReconcileItem(ViewOf(g, c, k)) else ViewOf(g, c, k);
    }
    SameHistoriesSameHead(g, h, c);
  }

  lemma PullingKeepsHead(g: Global, h: Global, c: ClientId, ks: set<Key>, merge: MergeFn)
    requires Sound(true, g, c) && Sound(true, h, c) && Changed(g, h, c, ks, Pulling(merge))
    ensures h.head == g.head
  {
    forall k ensures |ViewOf(h, c, k).hist| == |ViewOf(g, c, k).hist| {
      assert ViewOf(h, c, k) == if k in ks then PullItem(ViewOf(g, c, k), k, merge) else ViewOf(g, c, k);
    }
    SameHistoriesSameHead(g, h, c);
  }

  /** Every active item is as new in `h` as the server had it in `g`, or queued: the next flush will
      compare it with the server. */
  ghost predicate CaughtUp(g: Global, h: Global, c: ClientId, s: Scope) {
    forall k :: Active(s, k) ==> UpToDateOrQueued(RecordOf(h, c, k), |HistOf(g, k)|)
  }

  /** What a saved checkpoint accounts for is not lost again by the rest of the pass. */
  lemma AccountedIsCaughtUp(g: Global, start: Global, s1: seq<Action>, g1: Global, s2: seq<Action>, g2: Global,
          c: ClientId, s: Scope, ks: set<Key>, calm: bool)
    requires Past(start, true, s1, g1) && Past(start, true, s2, g2) && Session(c, ks, calm, s1, s2)
    requires c in g1.clients && CheckpointInv(g1, c) && g1.clients[c].checkpoint.scope == HashOf(s)
    requires Below(VersionsOf(g.hist), g1.clients[c].seen)
    ensures CaughtUp(g, g2, c, s)
  {
    forall k | Active(s, k) ensures UpToDateOrQueued(RecordOf(g2, c, k), |HistOf(g, k)|) {
      assert SeenIn(VersionsOf(g.hist), k) <= SeenOf(g1, c, k);
      assert UpToDateOrQueued(RecordOf(g1, c, k), SeenOf(g1, c, k));
      SessionStaysAbreast(start, s1, g1, s2, g2, c, ks, calm, k, |HistOf(g, k)|);
    }
  }

  // ---- why a pass takes the server to have gone back --------------------------------------------

  /** Call `i` brought an answer that takes back what was recorded at some moment, is below the head just read, is
      older than the item map said, or older than the guard of the upload just refused. */
  ghost predicate RolledBackAt(states: seq<Global>, from: nat, c: ClientId, cs: seq<Call>, i: nat)
    requires i < |cs|
  {
    || (exists j :: from <= j < |states| && Backwards(states[j], c, cs[i]))
    || (i > 0 && HeadFell(cs[i - 1], cs[i]))
    || (exists m :: 0 <= m < i && LagsBehind(cs[m], cs[i]))
    || (i > 0 && OlderThanGuard(cs[i - 1], cs[i]))
  }

  predicate HeadFell(head: Call, items: Call) {
    && head.HeadRead? && head.head.Answer? && items.MapRead? && items.items.Answer?
    && items.items.value.head < head.head.value
  }

  predicate LagsBehind(items: Call, got: Call) {
    items.MapRead? && items.items.Answer? && Lagging(got, items.items.value.versions)
  }

  ghost predicate RolledBack(states: seq<Global>, from: nat, c: ClientId, cs: seq<Call>) {
    exists i :: 0 <= i < |cs| && RolledBackAt(states, from, c, cs, i)
  }

  lemma RolledBackLater(states: seq<Global>, from: nat, later: seq<Global>, earlier: nat, c: ClientId,
          before: seq<Call>, cs: seq<Call>)
    requires RolledBack(states, from, c, cs) && states <= later && earlier <= from
    ensures RolledBack(later, earlier, c, before + cs)
  {
    var i :| 0 <= i < |cs| && RolledBackAt(states, from, c, cs, i);
    var all, at := before + cs, |before| + i;
    assert all[at] == cs[i] && (i > 0 ==> all[at - 1] == cs[i - 1]);
    if j :| from <= j < |states| && Backwards(states[j], c, cs[i]) {
      assert Backwards(later[j], c, all[at]);
    }
    if m :| 0 <= m < i && LagsBehind(cs[m], cs[i]) {
      assert all[|before| + m] == cs[m];
      assert LagsBehind(all[|before| + m], all[at]);
    }
    assert RolledBackAt(later, earlier, c, all, at);
  }

  lemma NamespaceRolledBack(g: Global, h: Global, c: ClientId, st: Status, touched: set<Key>, cs: seq<Call>,
          states: seq<Global>, from: nat)
    requires NamespaceCalls(g, h, c, st, touched, cs) && st == Failed(Rollback) && from < |states| && states[from] == g
    ensures RolledBack(states, from, c, cs)
  {
    if |cs| == 1 {
      assert Backwards(states[from], c, cs[0]);
      assert RolledBackAt(states, from, c, cs, 0);
    } else {
      var more, head := cs[1..], cs[0].head.value;
      assert more[0] == cs[1];
      if MapRejected(g, c, Larger(LedgerOf(g, c).0.head, head), more) {
        assert Backwards(states[from], c, cs[1]) || HeadFell(cs[0], cs[1]);
        assert RolledBackAt(states, from, c, cs, 1);
      } else {
        var i :| 0 <= i < |more| && Lagging(more[i], more[0].items.value.versions);
        assert cs[i + 1] == more[i] && LagsBehind(cs[1], cs[i + 1]);
        assert RolledBackAt(states, from, c, cs, i + 1);
      }
    }
  }

  lemma FlushRolledBack(states: seq<Global>, from: nat, c: ClientId, cs: seq<Call>, flushed: seq<Call>)
    requires SomeWentBack(flushed)
    ensures RolledBack(states, from, c, cs + flushed)
  {
    var i :| 0 <= i < |flushed| - 1 && OlderThanGuard(flushed[i], flushed[i + 1]);
    var all, at := cs + flushed, |cs| + i + 1;
    assert all[at] == flushed[i + 1] && all[at - 1] == flushed[i];
    assert RolledBackAt(states, from, c, all, at);
  }

  /** Snapshot reconciliation, and what it leaves as it was. */
  method ReconcilePhase(e: Engine) returns (st: Status, ghost touched: set<Key>, ghost shots: seq<Shot>)
    requires Configured(e) && e.Ready()
    modifies e.w`g, e.w`states, e.w`steps, e.w`faults, e.w`shots
    ensures e.w.faults == Blamed(old(e.w.faults), st) && (st.Failed? ==> st.error.Unavailable?)
    ensures old(e.w.shots) <= e.w.shots
    ensures st.Ok? ==> Taken(e.registered, shots) && ReconciledSince(e, old(e.w.steps), old(e.w.shots), shots)
    ensures e.Ready() && Session(e.c, touched, e.w.calm, old(e.w.steps), e.w.steps) && e.Ledger() == old(e.Ledger())
    ensures InScope(e.w.fixedScope, touched) && Forward(old(e.w.g), e.w.g, e.c)
    ensures Below(VersionsOf(old(e.w.g.hist)), VersionsOf(e.w.g.hist))
    ensures e.w.calm ==> st.Ok? && Changed(old(e.w.g), e.w.g, e.c, e.w.fixedScope.value.items, Reconciling())
    ensures e.w.calm && e.w.honest && PassRunsClean(old(e.w.g), e.c, e.w.fixedScope.value, e.merge) ==>
      && e.w.g.head == old(e.w.g.head)
      && (Fetches(old(e.w.g), e.c, e.w.fixedScope.value) ==>
          PullsClean(e.w.g, e.c, e.w.fixedScope.value, e.merge))
  {
    e.w.PastHere();
    RecordsAreSound(e);
    ghost var s0, g0 := e.w.steps, e.w.g;
    st, touched, shots := ReconcileLocalSnapshots(e);
    RecordsAreSound(e);
    e.w.PastHere();
    Elsewhere(e.w.start, e.w.honest, s0, g0, e.w.steps, e.w.g, e.c, touched, e.w.calm);
    VersionsGrow(g0, e.w.g);
    SessionForward(e.w.start, e.w.honest, s0, g0, e.w.steps, e.w.g, e.c, touched, e.w.calm);
    if e.w.calm && e.w.honest && PassRunsClean(g0, e.c, e.w.fixedScope.value, e.merge) {
      ReconcilingKeepsHead(g0, e.w.g, e.c, e.w.fixedScope.value.items);
      ReconciledRunsClean(g0, e.w.g, e.c, e.w.fixedScope.value, e.merge);
    }
  }

  /** The phases before the upload. */
  method ReconcileAndPull(e: Engine)
    returns (st: Status, ghost touched: set<Key>, ghost cs: seq<Call>, ghost shots: seq<Shot>)
    requires Configured(e) && e.Ready()
    modifies e.w`g, e.w`states, e.w`steps, e.w`faults, e.w`calls, e.w`shots
    ensures e.w.faults == Blamed(old(e.w.faults), st)
    ensures e.w.calls == old(e.w.calls) + cs && (st.Ok? ==> cs != [] && cs[0].HeadRead?)
    ensures TookBack(old(e.w.g), e.c, cs) ==> StoppedBy(st, cs) && e.Ledger().0 == old(e.Ledger().0)
    ensures Stops(cs, st) && (!AllAnswered(cs) ==> e.Ledger().0 == old(e.Ledger().0))
    ensures old(e.w.shots) <= e.w.shots
    ensures st.Ok? ==> Taken(e.registered, shots) && ReconciledSince(e, old(e.w.steps), old(e.w.shots), shots)
    ensures st == Failed(Rollback) ==> RolledBack(e.w.states, |old(e.w.steps)|, e.c, cs)
    ensures NoPuts(cs)
    ensures e.Ready() && Session(e.c, touched, e.w.calm, old(e.w.steps), e.w.steps)
    ensures InScope(e.w.fixedScope, touched)
    ensures st.Ok? && e.w.fixedScope.Some? ==> e.Ledger().0.scope == HashOf(e.w.fixedScope.value)
    ensures e.w.honest && st.Ok? ==> Below(VersionsOf(old(e.w.g.hist)), e.Ledger().1)
    ensures e.w.honest ==> Mundane(st)
    ensures e.w.calm && e.w.honest && PassRunsClean(old(e.w.g), e.c, e.w.fixedScope.value, e.merge) ==>
      && st.Ok? && Changed(old(e.w.g), e.w.g, e.c, e.w.fixedScope.value.items,
          Preparing(e.merge, old(Fetches(e.w.g, e.c, e.w.fixedScope.value))))
      && FlushesClean(e.w.g, e.c, e.w.fixedScope.value, e.merge)
      && e.Ledger().0 == Checkpoint(e.w.g.head, HashOf(e.w.fixedScope.value))
      && e.Ledger().2 == old(e.Ledger().2) + if old(Fetches(e.w.g, e.c, e.w.fixedScope.value)) then 1 else 0
  {
    ghost var s0, g0 := e.w.steps, e.w.g;
    cs := [];
    st, touched, shots := ReconcilePhase(e);
    if st.Failed? {
      return;
    }
    RecordsAreSound(e);
    ghost var s1, g1, states, more := e.w.steps, e.w.g, e.w.states, {};
    st, more, cs := SyncNamespaces(e);
    NamespacesMade(g0, g1, e.w.g, e.c, st, more, cs, states, s0, s1, e.w.states, e.w.steps, e.w.honest);
    RecordsAreSound(e);
    if e.w.fixedScope.Some? {
      ShotsComparedLater(states, |s0|, e.w.states, |s0|, e.c, e.w.fixedScope.value, shots);
    }
    SessionsCompose(e.c, touched, more, e.w.calm, s0, s1, e.w.steps);
    touched := touched + more;
    if e.w.honest && st.Ok? {
      BelowTransitive(VersionsOf(g0.hist), VersionsOf(g1.hist), e.Ledger().1);
    }
    if e.w.calm && e.w.honest && PassRunsClean(g0, e.c, e.w.fixedScope.value, e.merge) {
      PullingKeepsHead(g1, e.w.g, e.c, FetchedItems(g1, e.c, e.w.fixedScope.value), e.merge);
      PhasesPrepare(g0, g1, e.w.g, e.c, e.w.fixedScope.value, e.merge);
    }
  }

  /** What the calls of `syncNamespaces` in state `g1` mean for a pass that started in `g0` after the steps `s0`. */
  lemma NamespacesMade(g0: Global, g1: Global, h: Global, c: ClientId, st: Status, touched: set<Key>, cs: seq<Call>,
          states: seq<Global>, s0: seq<Action>, s1: seq<Action>, later: seq<Global>, s2: seq<Action>, honest: bool)
    requires NamespaceCalls(g1, h, c, st, touched, cs) && Forward(g0, g1, c)
    requires LedgerOf(g1, c).0 == LedgerOf(g0, c).0
    requires PastOk(states, s1, honest) && PastOk(later, s2, honest) && states[0] == later[0] && s0 <= s1 <= s2
    requires states[|s1|] == g1
    ensures states <= later && NoPuts(cs)
    ensures TookBack(g0, c, cs) ==> StoppedBy(st, cs) && LedgerOf(h, c).0 == LedgerOf(g0, c).0
    ensures !AllAnswered(cs) ==> LedgerOf(h, c).0 == LedgerOf(g0, c).0
    ensures st == Failed(Rollback) ==> RolledBack(later, |s0|, c, cs)
  {
    StatesGrow(states, s1, later, s2, honest);
    BackwardsLater(g0, g1, c, cs);
    NamespaceStops(g1, h, c, st, touched, cs);
    if st == Failed(Rollback) {
      NamespaceRolledBack(g1, h, c, st, touched, cs, later, |s1|);
      RolledBackLater(later, |s1|, later, |s0|, c, [], cs);
      assert [] + cs == cs;
    }
  }

  /** Requests for single items take nothing back. */
  lemma ItemsTakeNothingBack(g: Global, c: ClientId, cs: seq<Call>, more: seq<Call>, ks: set<Key>)
    requires ItemCalls(more, ks) && !TookBack(g, c, cs)
    ensures !TookBack(g, c, cs + more)
  {
    forall i | 0 <= i < |cs + more| ensures !Backwards(g, c, (cs + more)[i]) {
      assert i < |cs| ==> !Backwards(g, c, cs[i]);
    }
  }

  /** What a successful pass since the steps `s0` has done for the items of a fixed scope: every value in the
      snapshots was compared, and the upload of every item attempted unless there was nothing to upload. */
  ghost predicate PassDone(e: Engine, s0: seq<Action>, shots: seq<Shot>, cs: seq<Call>)
    reads e.w`states
  {
    && Taken(e.registered, shots) && cs != [] && cs[0].HeadRead? && AllAnswered(cs)
    && (e.w.fixedScope.Some? ==>
        && ShotsCompared(e.w.states, |s0|, e.c, e.w.fixedScope.value, shots)
        && forall k :: Active(e.w.fixedScope.value, k) ==> Attended(cs, e.w.states, |s0|, e.c, k))
  }

  method Pass(e: Engine)
    returns (st: Status, ghost touched: set<Key>, ghost cs: seq<Call>, ghost shots: seq<Shot>)
    requires Configured(e) && e.Ready()
    modifies e.w`g, e.w`states, e.w`steps, e.w`faults, e.w`calls, e.w`shots
    ensures e.w.faults == Blamed(old(e.w.faults), st)
    ensures e.w.calls == old(e.w.calls) + cs && Stops(cs, st)
    ensures old(e.w.shots) <= e.w.shots
    ensures st.Ok? ==> PassDone(e, old(e.w.steps), shots, cs) && e.w.shots == old(e.w.shots) + shots
    ensures st == Failed(Rollback) ==> RolledBack(e.w.states, |old(e.w.steps)|, e.c, cs)
    ensures TookBack(old(e.w.g), e.c, cs) ==>
      StoppedBy(st, cs) && NoPuts(cs) && e.Ledger().0 == old(e.Ledger().0)
    ensures e.Ready() && Session(e.c, touched, e.w.calm, old(e.w.steps), e.w.steps)
    ensures InScope(e.w.fixedScope, touched)
    ensures e.w.honest ==> Mundane(st)
    ensures e.w.honest && st.Ok? && e.w.fixedScope.Some? ==> CaughtUp(old(e.w.g), e.w.g, e.c, e.w.fixedScope.value)
    ensures e.w.calm && e.w.honest && PassRunsClean(old(e.w.g), e.c, e.w.fixedScope.value, e.merge) ==>
      st.Ok? && PassEffect(old(e.w.g), e.w.g, e.c, e.w.fixedScope.value, e.merge)
  {
    e.w.PastHere();
    ghost var s0, g0, calls := e.w.steps, e.w.g, e.w.calls;
    st, touched, cs, shots := ReconcileAndPull(e);
    if st.Failed? {
      return;
    }
    ghost var s1, g1, states, prepared, more := e.w.steps, e.w.g, e.w.states, cs, {};
    e.w.PastHere();
    if e.w.honest {
      e.w.Known(e.c, Key("", ""));
    }
    st, more, cs := FlushAfter(e, prepared);
    e.w.PastHere();
    PassMadeCalls(g0, e.c, st, e.w.states, |s0|, calls, prepared, cs, more);
    PassIsDone(e, states, s0, s1, shots, prepared, cs, st);
    if e.w.honest && e.w.fixedScope.Some? {
      AccountedIsCaughtUp(g0, e.w.start, s1, g1, e.w.steps, e.w.g, e.c, e.w.fixedScope.value, more, e.w.calm);
    }
    SessionsCompose(e.c, touched, more, e.w.calm, s0, s1, e.w.steps);
    touched := touched + more;
    if e.w.calm && e.w.honest && PassRunsClean(g0, e.c, e.w.fixedScope.value, e.merge) {
      PassMade(e.w.start, s0, g0, g1, e.w.steps, e.w.g, e.c, touched, e.w.fixedScope.value, e.merge);
    }
  }

  /** The phases of an undisturbed pass have its effect. */
  lemma PassMade(start: Global, s0: seq<Action>, g0: Global, g2: Global, s3: seq<Action>, g3: Global, c: ClientId,
          ks: set<Key>, s: Scope, merge: MergeFn)
    requires Past(start, true, s0, g0) && Past(start, true, s3, g3) && Session(c, ks, true, s0, s3)
    requires c in g0.clients && c in g3.clients && WellScoped(s) && g2.head <= g3.head
    requires Changed(g0, g2, c, s.items, Preparing(merge, Fetches(g0, c, s)))
    requires Changed(g2, g3, c, s.items, Flushing(merge))
    requires LedgerOf(g3, c).0 == Checkpoint(g3.head, HashOf(s))
    requires LedgerOf(g3, c).2 == LedgerOf(g0, c).2 + if Fetches(g0, c, s) then 1 else 0
    ensures PassEffect(g0, g3, c, s, merge)
  {
    Elsewhere(start, true, s0, g0, s3, g3, c, ks, true);
    PhasesMakePass(g0, g2, g3, c, s, merge, Fetches(g0, c, s));
  }

  /** The calls of the upload phase after those `prepared`, which were all answered and took nothing back. */
  lemma PassMadeCalls(g: Global, c: ClientId, st: Status, states: seq<Global>, from: nat, calls: seq<Call>,
          prepared: seq<Call>, cs: seq<Call>, ks: set<Key>)
    requires prepared <= cs && ItemCalls(cs[|prepared|..], ks) && !TookBack(g, c, prepared)
    requires st == Failed(Rollback) ==> SomeWentBack(cs[|prepared|..])
    ensures !TookBack(g, c, cs) && calls + prepared + cs[|prepared|..] == calls + cs
    ensures st == Failed(Rollback) ==> RolledBack(states, from, c, cs)
  {
    var flushed := cs[|prepared|..];
    ItemsTakeNothingBack(g, c, prepared, flushed, ks);
    assert prepared + flushed == cs;
    if st == Failed(Rollback) {
      FlushRolledBack(states, from, c, prepared, flushed);
    }
  }

  lemma PassIsDone(e: Engine, states: seq<Global>, s0: seq<Action>, s1: seq<Action>, shots: seq<Shot>,
          prepared: seq<Call>, cs: seq<Call>, st: Status)
    requires e.w.Valid() && PastOk(states, s1, e.w.honest) && states[0] == e.w.start && s0 <= s1 <= e.w.steps
    requires prepared <= cs && prepared != [] && prepared[0].HeadRead?
    requires Taken(e.registered, shots) && (st.Ok? ==> AllAnswered(cs))
    requires e.w.fixedScope.Some? ==> ShotsCompared(states, |s0|, e.c, e.w.fixedScope.value, shots)
    requires st.Ok? && e.w.fixedScope.Some? ==>
      forall k :: Active(e.w.fixedScope.value, k) ==> Attended(cs, e.w.states, |s1|, e.c, k)
    ensures st.Ok? ==> PassDone(e, s0, shots, cs)
  {
    StatesGrow(states, s1, e.w.states, e.w.steps, e.w.honest);
    if e.w.fixedScope.Some? {
      ShotsComparedLater(states, |s0|, e.w.states, |s0|, e.c, e.w.fixedScope.value, shots);
      if st.Ok? {
        forall k | Active(e.w.fixedScope.value, k) ensures Attended(cs, e.w.states, |s0|, e.c, k) {
          assert Attended(cs, e.w.states, |s1|, e.c, k);
        }
      }
    }
  }

  /** The upload phase, after the calls `prepared`. */
  method FlushAfter(e: Engine, ghost prepared: seq<Call>)
    returns (st: Status, ghost touched: set<Key>, ghost cs: seq<Call>)
    requires Configured(e) && e.Ready() && AllAnswered(prepared)
    modifies e.w`g, e.w`states, e.w`steps, e.w`faults, e.w`calls
    ensures e.w.faults == Blamed(old(e.w.faults), st)
    ensures prepared <= cs && e.w.calls == old(e.w.calls) + cs[|prepared|..]
    ensures Stops(cs, st) && ItemCalls(cs[|prepared|..], touched)
    ensures st.Ok? && e.w.fixedScope.Some? ==>
      forall k :: Active(e.w.fixedScope.value, k) ==> Attended(cs, e.w.states, |old(e.w.steps)|, e.c, k)
    ensures st == Failed(Rollback) ==> SomeWentBack(cs[|prepared|..])
    ensures e.Ready() && Session(e.c, touched, e.w.calm, old(e.w.steps), e.w.steps)
    ensures InScope(e.w.fixedScope, touched)
    ensures e.w.honest ==> Mundane(st)
    ensures e.w.calm && e.w.honest && FlushesClean(old(e.w.g), e.c, e.w.fixedScope.value, e.merge) ==>
      && st.Ok? && Changed(old(e.w.g), e.w.g, e.c, e.w.fixedScope.value.items, Flushing(e.merge))
      && old(e.w.g.head) <= e.w.g.head
      && e.Ledger().0 == old(e.Ledger().0).(head := old(e.Ledger().0).head + e.w.g.head - old(e.w.g.head))
      && e.Ledger().2 == old(e.Ledger().2)
  {
    ghost var s0, flushed := e.w.steps, [];
    st, touched, flushed := FlushDirtyItems(e);
    cs := prepared + flushed;
    assert cs[|prepared|..] == flushed;
    StopsLater(prepared, flushed, st);
    if st.Ok? && e.w.fixedScope.Some? {
      forall k | Active(e.w.fixedScope.value, k) ensures Attended(cs, e.w.states, |s0|, e.c, k) {
        assert AllAttended(flushed, e.w.states, |s0|, e.c, {k});
        AttendedLater(prepared, flushed, [], e.w.states, |s0|, e.w.states, |s0|, e.c, {k});
        assert prepared + flushed + [] == cs;
      }
    }
  }

  // ---- SyncNow -----------------------------------------------------------------------------------

  /** How the attempts of `SyncNow` end: after a first pass whose token was rejected, its last request showing that,
      a second one is made; what went wrong in it, or else in the only one, is returned. */
  ghost predicate Attempts(st: Status, faults: seq<Error>, cs: seq<Call>) {
    if faults != [] && faults[0].Unauthorized? then exists n :: SecondAttempt(st, faults, cs, n)
    else faults == Blamed([], st) && Stops(cs, st)
  }

  predicate SecondAttempt(st: Status, faults: seq<Error>, cs: seq<Call>, n: nat) {
    && 0 < n <= |cs| && faults == Blamed([Unauthorized], st)
    && Stops(cs[..n], Failed(Unauthorized)) && Stops(cs[n..], st)
  }

  /** The last pass was done: it took the last of the snapshots and made the last of the calls. */
  ghost predicate LastPassDone(e: Engine, s0: seq<Action>, shots: seq<Shot>, cs: seq<Call>)
    reads e.w`states
  {
    exists m, n :: 0 <= m <= |shots| && 0 <= n <= |cs| && PassDoneFrom(e, s0, shots, cs, m, n)
  }

  ghost predicate PassDoneFrom(e: Engine, s0: seq<Action>, shots: seq<Shot>, cs: seq<Call>, m: nat, n: nat)
    requires m <= |shots| && n <= |cs|
    reads e.w`states
  {
    PassDone(e, s0, shots[m..], cs[n..])
  }

  lemma PassDoneLater(e: Engine, s0: seq<Action>, s1: seq<Action>, shots: seq<Shot>, cs: seq<Call>)
    requires PassDone(e, s1, shots, cs) && |s0| <= |s1|
    ensures PassDone(e, s0, shots, cs)
  {
    if e.w.fixedScope.Some? {
      ShotsComparedLater(e.w.states, |s1|, e.w.states, |s0|, e.c, e.w.fixedScope.value, shots);
      forall k | Active(e.w.fixedScope.value, k) ensures Attended(cs, e.w.states, |s0|, e.c, k) {
        assert Attended(cs, e.w.states, |s1|, e.c, k);
      }
    }
  }

  lemma RerunStops(g: Global, h: Global, c: ClientId, st: Status, first: seq<Call>, second: seq<Call>)
    requires !TookBack(g, c, first) && Forward(g, h, c)
    requires TookBack(h, c, second) ==> StoppedBy(st, second) && NoPuts(second)
    ensures TookBack(g, c, first + second) ==> StoppedBy(st, first + second)
    ensures NoPutAfter(g, c, first + second)
  {
    BackwardsLater(g, h, c, second);
    var cs := first + second;
    forall i | 0 <= i < |first| ensures !Backwards(g, c, cs[i]) {
      assert cs[i] == first[i];
    }
    forall i | |first| <= i < |cs| && Backwards(g, c, cs[i]) ensures TookBack(h, c, second) && StoppedBy(st, cs) {
      assert cs[i] == second[i - |first|];
    }
  }

  /** The one or two passes of a `SyncNow`. */
  method PassOnceOrTwice(e: Engine)
    returns (st: Status, ghost touched: set<Key>, ghost cs: seq<Call>, ghost faults: seq<Error>, ghost shots: seq<Shot>)
    requires Configured(e) && e.Ready()
    modifies e.w`g, e.w`states, e.w`steps, e.w`faults, e.w`calls, e.w`shots
    ensures e.w.calls == old(e.w.calls) + cs && e.w.faults == old(e.w.faults) + faults && Attempts(st, faults, cs)
    ensures e.w.shots == old(e.w.shots) + shots && (st.Ok? ==> LastPassDone(e, old(e.w.steps), shots, cs))
    ensures st == Failed(Rollback) ==> RolledBack(e.w.states, |old(e.w.steps)|, e.c, cs)
    ensures (TookBack(old(e.w.g), e.c, cs) ==> StoppedBy(st, cs)) && NoPutAfter(old(e.w.g), e.c, cs)
    ensures e.Ready() && Session(e.c, touched, e.w.calm, old(e.w.steps), e.w.steps)
    ensures InScope(e.w.fixedScope, touched)
    ensures e.w.honest ==> Mundane(st)
    ensures e.w.honest && st.Ok? && e.w.fixedScope.Some? ==> CaughtUp(old(e.w.g), e.w.g, e.c, e.w.fixedScope.value)
    ensures e.w.calm && e.w.honest && PassRunsClean(old(e.w.g), e.c, e.w.fixedScope.value, e.merge) ==>
      st.Ok? && PassEffect(old(e.w.g), e.w.g, e.c, e.w.fixedScope.value, e.merge)
  {
    ghost var s0, g0, calls0, faults0, shots0, n := e.w.steps, e.w.g, e.w.calls, e.w.faults, e.w.shots, 0;
    e.w.PastHere();
    st, touched, cs, shots := Pass(e);
    faults := Blamed([], st);
    ghost var taken, first := shots0, cs;
    if st == Failed(Unauthorized) {
      taken, n := e.w.shots, |cs|;
      e.w.PastHere();
      FirstAttempt(e.w.start, e.w.honest, s0, g0, e.w.steps, e.w.g, e.c, touched, e.w.calm);
      st, touched, cs, shots := RunAgain(e, g0, s0, first, touched);
      CallsCompose(calls0, first, cs[|first|..]);
      faults := Blamed([Unauthorized], st);
    } else {
      OnlyAttempt(g0, e.c, st, cs);
      assert cs[0..] == cs;
    }
    FaultsCompose(faults0, st);
    if st.Ok? {
      LastPassIsDone(e, s0, e.w.shots, shots0, taken, shots, cs, n);
    }
    shots := e.w.shots[|shots0|..];
  }

  /** `SyncNow`: one pass, run once more from wherever it stopped if the token was rejected. */
  method SyncNow(e: Engine)
    returns (st: Status, ghost touched: set<Key>, ghost cs: seq<Call>, ghost faults: seq<Error>, ghost shots: seq<Shot>)
    requires Configured(e) && e.Ready()
    modifies e.w`g, e.w`states, e.w`steps, e.w`faults, e.w`calls, e.w`shots
    ensures e.w.calls == old(e.w.calls) + cs && e.w.faults == old(e.w.faults) + faults && Attempts(st, faults, cs)
    ensures e.w.shots == old(e.w.shots) + shots && (st.Ok? ==> LastPassDone(e, old(e.w.steps), shots, cs))
    ensures st == Failed(Rollback) ==> RolledBack(e.w.states, |old(e.w.steps)|, e.c, cs)
    ensures (TookBack(old(e.w.g), e.c, cs) ==> StoppedBy(st, cs)) && NoPutAfter(old(e.w.g), e.c, cs)
    ensures e.Ready() && Session(e.c, touched, e.w.calm, old(e.w.steps), e.w.steps)
    ensures InScope(e.w.fixedScope, touched)
    ensures Forward(old(e.w.g), e.w.g, e.c)
    ensures e.w.honest ==> Reachable(e.w.g) && Reaches(old(e.w.g), e.w.g)
    ensures e.w.honest ==> Mundane(st)
    ensures e.w.honest && st.Ok? && e.w.fixedScope.Some? ==> CaughtUp(old(e.w.g), e.w.g, e.c, e.w.fixedScope.value)
    ensures e.w.calm && e.w.honest && PassRunsClean(old(e.w.g), e.c, e.w.fixedScope.value, e.merge) ==>
      st.Ok? && PassEffect(old(e.w.g), e.w.g, e.c, e.w.fixedScope.value, e.merge)
  {
    e.w.PastHere();
    ghost var s0, g0 := e.w.steps, e.w.g;
    st, touched, cs, faults, shots := PassOnceOrTwice(e);
    e.w.PastHere();
    SessionForward(e.w.start, e.w.honest, s0, g0, e.w.steps, e.w.g, e.c, touched, e.w.calm);
    if e.w.honest {
      PastIsReachable(e.w.start, s0, g0, e.w.steps, e.w.g);
    }
  }

  lemma LastPassIsDone(e: Engine, s0: seq<Action>, all: seq<Shot>, shots0: seq<Shot>, taken: seq<Shot>,
          last: seq<Shot>, cs: seq<Call>, n: nat)
    requires shots0 <= taken && all == taken + last && n <= |cs| && PassDone(e, s0, last, cs[n..])
    ensures LastPassDone(e, s0, all[|shots0|..], cs)
  {
    var shots, m := all[|shots0|..], |taken| - |shots0|;
    assert shots[m..] == last;
    assert PassDoneFrom(e, s0, shots, cs, m, n);
  }

  lemma FaultsCompose(faults: seq<Error>, st: Status)
    ensures Blamed(faults, st) == faults + Blamed([], st)
    ensures Blamed(faults + [Unauthorized], st) == faults + Blamed([Unauthorized], st)
  {
  }

  /** What the first attempt leaves to build on. */
  lemma FirstAttempt(start: Global, honest: bool, s0: seq<Action>, g0: Global, s1: seq<Action>, g1: Global, c: ClientId,
          ks: set<Key>, calm: bool)
    requires Past(start, honest, s0, g0) && Past(start, honest, s1, g1) && Session(c, ks, calm, s0, s1)
    ensures Forward(g0, g1, c) && forall k :: |HistOf(g0, k)| <= |HistOf(g1, k)|
  {
    Elsewhere(start, honest, s0, g0, s1, g1, c, ks, calm);
    SessionForward(start, honest, s0, g0, s1, g1, c, ks, calm);
    forall k ensures |HistOf(g0, k)| <= |HistOf(g1, k)| {
      assert HistOf(g0, k) <= HistOf(g1, k);
    }
  }

  lemma OnlyAttempt(g: Global, c: ClientId, st: Status, cs: seq<Call>)
    requires Stops(cs, st) && st != Failed(Unauthorized) && (TookBack(g, c, cs) ==> NoPuts(cs))
    ensures Attempts(st, Blamed([], st), cs) && NoPutAfter(g, c, cs)
  {
    if !TookBack(g, c, cs) {
      forall i | 0 <= i < |cs| ensures !Backwards(g, c, cs[i]) {}
    }
  }

  /** The second attempt of a `SyncNow` that started in `g0` after the steps `s0` and has made the calls `first`. */
  method RunAgain(e: Engine, ghost g0: Global, ghost s0: seq<Action>, ghost first: seq<Call>, ghost touched: set<Key>)
    returns (st: Status, ghost touched': set<Key>, ghost cs: seq<Call>, ghost shots: seq<Shot>)
    requires Configured(e) && e.Ready() && Session(e.c, touched, e.w.calm, s0, e.w.steps)
    requires Stops(first, Failed(Unauthorized)) && !TookBack(g0, e.c, first) && Forward(g0, e.w.g, e.c)
    requires InScope(e.w.fixedScope, touched)
    modifies e.w`g, e.w`states, e.w`steps, e.w`faults, e.w`calls, e.w`shots
    ensures e.w.faults == Blamed(old(e.w.faults), st) && Attempts(st, Blamed([Unauthorized], st), cs)
    ensures first <= cs && e.w.calls == old(e.w.calls) + cs[|first|..]
    ensures old(e.w.shots) <= e.w.shots
    ensures st.Ok? ==> PassDone(e, s0, shots, cs[|first|..]) && e.w.shots == old(e.w.shots) + shots
    ensures st == Failed(Rollback) ==> RolledBack(e.w.states, |s0|, e.c, cs)
    ensures (TookBack(g0, e.c, cs) ==> StoppedBy(st, cs)) && NoPutAfter(g0, e.c, cs)
    ensures e.Ready() && Session(e.c, touched', e.w.calm, s0, e.w.steps)
    ensures InScope(e.w.fixedScope, touched')
    ensures e.w.honest ==> Mundane(st)
    ensures e.w.honest && st.Ok? && e.w.fixedScope.Some? ==> CaughtUp(old(e.w.g), e.w.g, e.c, e.w.fixedScope.value)
  {
    ghost var s1, g1, more, again := e.w.steps, e.w.g, {}, [];
    st, more, again, shots := Pass(e);
    cs, touched' := first + again, touched + more;
    assert cs[|first|..] == again;
    RerunStops(g0, g1, e.c, st, first, again);
    SessionsCompose(e.c, touched, more, e.w.calm, s0, s1, e.w.steps);
    SecondAttemptMade(st, first, again);
    if st == Failed(Rollback) {
      RolledBackLater(e.w.states, |s1|, e.w.states, |s0|, e.c, first, again);
    }
    if st.Ok? {
      PassDoneLater(e, s0, s1, shots, again);
    }
  }

  lemma SecondAttemptMade(st: Status, first: seq<Call>, again: seq<Call>)
    requires Stops(first, Failed(Unauthorized)) && Stops(again, st)
    ensures Attempts(st, Blamed([Unauthorized], st), first + again)
  {
    var cs := first + again;
    assert cs[..|first|] == first && cs[|first|..] == again;
    assert SecondAttempt(st, Blamed([Unauthorized], st), cs, |first|);
  }
}

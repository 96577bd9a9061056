/** All clients of one namespace and the server, as a step system
    (`bitboxsync/engine_namespace.go`, `bitboxsync/engine_items.go`). Steps of different clients,
    of the applications and of the server interleave freely, and a pass may stop after any of them. */
module Network {
  import opened Prelude
  import opened ItemState
  import opened ItemLog

  type ClientId = nat

  /** A logical key; item identifiers are derived from it injectively. */
  datatype Key = Key(collection: string, name: string)

  /** `namespaceActiveScope`: the registered collections and their active items. */
  datatype Scope = Scope(collections: set<string>, items: set<Key>)

  /** The ideal digest of a scope: empty without a registered collection, injective otherwise. */
  datatype ScopeHash = NoScope | Hashed(collections: set<string>, items: set<Key>)

  function HashOf(s: Scope): ScopeHash {
    if s.collections == {} then NoScope else Hashed(s.collections, s.items)
  }

  predicate Active(s: Scope, k: Key) {
    k.collection in s.collections && k in s.items
  }

  predicate Covers(h: ScopeHash, k: Key) {
    h.Hashed? && k.collection in h.collections && k in h.items
  }

  datatype Checkpoint = Checkpoint(head: nat, scope: ScopeHash)

  /** What one client keeps for one item. */
  datatype Slot = Slot(meta: Option<Meta>, value: Option<Bytes>, log: Log)

  const EMPTY_SLOT := Slot(None, None, [])

  /** `seen` is an auxiliary of the proof: how many accepted writes of each item the saved namespace
      head accounts for. The engine does not have it. `mapReads` counts item-map downloads. */
  datatype Client = Client(slots: map<Key, Slot>, checkpoint: Checkpoint, seen: map<Key, nat>, mapReads: nat)

  /** `hist` holds the plaintexts of each item in version order, `head` counts accepted writes. */
  datatype Global = Global(hist: map<Key, seq<Bytes>>, head: nat, clients: map<ClientId, Client>)

  function HistOf(g: Global, k: Key): seq<Bytes> {
    if k in g.hist then g.hist[k] else []
  }

  function SlotOf(g: Global, c: ClientId, k: Key): Slot {
    if c in g.clients && k in g.clients[c].slots then g.clients[c].slots[k] else EMPTY_SLOT
  }

  function ViewOf(g: Global, c: ClientId, k: Key): View {
    var s := SlotOf(g, c, k);
    View(s.meta, s.value, s.log, HistOf(g, k))
  }

  function RecordOf(g: Global, c: ClientId, k: Key): Meta {
    Loaded(SlotOf(g, c, k).meta)
  }

  function SeenIn(m: map<Key, nat>, k: Key): nat {
    if k in m then m[k] else 0
  }

  function SeenOf(g: Global, c: ClientId, k: Key): nat {
    if c in g.clients then SeenIn(g.clients[c].seen, k) else 0
  }

  function VersionsOf(hist: map<Key, seq<Bytes>>): map<Key, nat> {
    map k | k in hist :: |hist[k]|
  }

  // ---- counting writes -------------------------------------------------------------------------

  ghost function Total(m: map<Key, nat>): nat
    decreases |m|
  {
    if m == map[] then 0 else
      var k :| k in m;
      m[k] + Total(m - {k})
  }

  lemma {:induction false} TotalSplit(m: map<Key, nat>, k: Key)
    requires k in m
    ensures Total(m) == m[k] + Total(m - {k})
    decreases |m|
  {
    var p :| p in m && Total(m) == m[p] + Total(m - {p});
    if p != k {
      TotalSplit(m - {p}, k);
      TotalSplit(m - {k}, p);
      assert m - {p} - {k} == m - {k} - {p};
    }
  }

  lemma TotalUpdate(m: map<Key, nat>, k: Key, n: nat)
    ensures Total(m[k := n]) == Total(m) - SeenIn(m, k) + n
  {
    TotalSplit(m[k := n], k);
    assert m[k := n] - {k} == m - {k};
    if k in m {
      TotalSplit(m, k);
    } else {
      assert m - {k} == m;
    }
  }

  ghost predicate Below(a: map<Key, nat>, b: map<Key, nat>) {
    forall k :: SeenIn(a, k) <= SeenIn(b, k)
  }

  lemma BelowTransitive(a: map<Key, nat>, b: map<Key, nat>, c: map<Key, nat>)
    requires Below(a, b) && Below(b, c)
    ensures Below(a, c)
  {
    forall k ensures SeenIn(a, k) <= SeenIn(c, k) {
      assert SeenIn(a, k) <= SeenIn(b, k);
    }
  }

  lemma VersionsGrow(g: Global, h: Global)
    requires forall k :: HistOf(g, k) <= HistOf(h, k)
    ensures Below(VersionsOf(g.hist), VersionsOf(h.hist))
  {
    forall k ensures SeenIn(VersionsOf(g.hist), k) <= SeenIn(VersionsOf(h.hist), k) {
      assert HistOf(g, k) <= HistOf(h, k);
    }
  }

  /** A vector below another one has the smaller total, and the same total only if they agree. */
  lemma {:induction false} TotalBelow(a: map<Key, nat>, b: map<Key, nat>)
    requires Below(a, b)
    ensures Total(a) <= Total(b)
    ensures Total(a) == Total(b) ==> forall k :: SeenIn(a, k) == SeenIn(b, k)
    decreases |a| + |b|
  {
    if k :| k in a {
      TotalBelowAfterDropping(a, b, k);
    } else if k :| k in b {
      TotalBelowAfterDropping(a, b, k);
    }
  }

  lemma {:induction false} TotalBelowAfterDropping(a: map<Key, nat>, b: map<Key, nat>, k: Key)
    requires Below(a, b) && (k in a || k in b)
    ensures Total(a) <= Total(b)
    ensures Total(a) == Total(b) ==> forall j :: SeenIn(a, j) == SeenIn(b, j)
    decreases |a| + |b|, 0
  {
    var a', b' := a - {k}, b - {k};
    DropShrinks(a, k);
    DropShrinks(b, k);
    forall j ensures SeenIn(a', j) <= SeenIn(b', j) {
      assert SeenIn(a, j) <= SeenIn(b, j);
    }
    TotalBelow(a', b');
    forall j | Total(a) == Total(b) ensures SeenIn(a, j) == SeenIn(b, j) {
      assert SeenIn(a, k) <= SeenIn(b, k);
      if j != k {
        assert SeenIn(a', j) == SeenIn(b', j);
      }
    }
  }

  lemma DropShrinks(m: map<Key, nat>, k: Key)
    ensures |m - {k}| <= |m| && (k in m ==> |m - {k}| == |m| - 1)
    ensures Total(m) == SeenIn(m, k) + Total(m - {k})
  {
    assert (m - {k}).Keys == m.Keys - {k};
    if k in m {
      TotalSplit(m, k);
    } else {
      assert m - {k} == m;
    }
  }

  // ---- steps -----------------------------------------------------------------------------------

  datatype Action =
    | OnItem(client: ClientId, key: Key, act: ItemAction)
    | ReadMap(client: ClientId)
    | SaveCheckpoint(client: ClientId, versions: map<Key, nat>, head: nat, scope: ScopeHash)  // item map reconciled
    | KeepCheckpoint(client: ClientId, checkpoint: Checkpoint)   // nothing to reconcile
    | BumpHead(client: ClientId, key: Key)                       // after an acknowledged upload
    | ResetSyncState(client: ClientId)
    | LoseCheckpoint(client: ClientId)                           // `defaultNamespace` stores head 0

  function ItemStep(g: Global, c: ClientId, k: Key, a: ItemAction): Global
    requires c in g.clients
  {
    var cl, v := g.clients[c], ViewOf(g, c, k);
    var r := Act(v, a);
    var grown := |r.hist| - |v.hist|;
    var cl' := cl.(slots := cl.slots[k := Slot(r.meta, r.value, r.log)]);
    Global(if grown > 0 then g.hist[k := r.hist] else g.hist, g.head + grown, g.clients[c := cl'])
  }

  function WithCheckpoint(g: Global, c: ClientId, cp: Checkpoint): Global
    requires c in g.clients
  {
    g.(clients := g.clients[c := g.clients[c].(checkpoint := cp)])
  }

  function Forget(s: Slot): Slot {
    Slot(None, s.value, s.log + [Forgot])
  }

  function Apply(g: Global, a: Action): Global {
    if a.client !in g.clients then g else
      var c, cl := a.client, g.clients[a.client];
      match a
      case OnItem(_, k, act) => ItemStep(g, c, k, act)
      case ReadMap(_) => g.(clients := g.clients[c := cl.(mapReads := cl.mapReads + 1)])
      case SaveCheckpoint(_, versions, head, scope) =>
        g.(clients := g.clients[c := cl.(checkpoint := Checkpoint(head, scope), seen := versions)])
      case KeepCheckpoint(_, cp) => WithCheckpoint(g, c, cp)
      case BumpHead(_, k) =>
        var cp := cl.checkpoint.(head := cl.checkpoint.head + 1);
        g.(clients := g.clients[c := cl.(checkpoint := cp, seen := cl.seen[k := SeenIn(cl.seen, k) + 1])])
      case ResetSyncState(_) =>
        g.(clients := g.clients[c := Client(map k | k in cl.slots ::
            Forget(cl.slots[k]), Checkpoint(0, NoScope), map[], cl.mapReads)])
      case LoseCheckpoint(_) => WithCheckpoint(g, c, Checkpoint(0, NoScope))
  }

  /** The record is at least as new as what the checkpoint accounts for, or will be uploaded (and so
      compared with the server) by the next flush. */
  predicate UpToDateOrQueued(m: Meta, seen: nat) {
    seen <= m.version || (m.dirty && !m.conflict)
  }

  ghost predicate Enables(g: Global, a: Action) {
    a.client in g.clients &&
    var c, cl := a.client, g.clients[a.client];
    match a
    case OnItem(_, k, act) =>
      Enabled(ViewOf(g, c, k), act) && (act.Save? ==> UpToDateOrQueued(act.meta, SeenOf(g, c, k)))
    case ReadMap(_) => true
    case SaveCheckpoint(_, versions, head, scope) =>
      && head == Total(versions) && cl.checkpoint.head <= head && Below(cl.seen, versions)
      && (forall k :: SeenIn(versions, k) <= |HistOf(g, k)|)
      && (forall k :: Covers(scope, k) ==> UpToDateOrQueued(RecordOf(g, c, k), SeenIn(versions, k)))
    case KeepCheckpoint(_, cp) => cp == cl.checkpoint
    case BumpHead(_, k) => SeenIn(cl.seen, k) < RecordOf(g, c, k).version
    case ResetSyncState(_) => true
    case LoseCheckpoint(_) => true
  }

  // ---- the invariant ---------------------------------------------------------------------------

  ghost predicate CheckpointInv(g: Global, c: ClientId)
    requires c in g.clients
  {
    var cl := g.clients[c];
    && cl.checkpoint.head <= Total(cl.seen)
    && (forall k :: SeenIn(cl.seen, k) <= |HistOf(g, k)|)
    && (forall k :: Covers(cl.checkpoint.scope, k) ==> UpToDateOrQueued(RecordOf(g, c, k), SeenIn(cl.seen, k)))
  }

  ghost predicate Inv(g: Global) {
    && g.head == Total(VersionsOf(g.hist))
    && (forall c, k :: c in g.clients ==> ViewInv(ViewOf(g, c, k)))
    && (forall c :: c in g.clients ==> CheckpointInv(g, c))
    && (forall k :: AllFit(HistOf(g, k)))
  }

  /** Nothing synchronised yet: backends may hold values, everything else is empty. */
  ghost predicate Init(g: Global) {
    && g.hist == map[] && g.head == 0
    && forall c :: c in g.clients ==>
      && g.clients[c].checkpoint == Checkpoint(0, NoScope) && g.clients[c].seen == map[]
      && forall k :: k in g.clients[c].slots ==>
        var s := g.clients[c].slots[k];
        s.meta.None? && s.log == if s.value.Some? then [AppWrote(s.value.value)] else []
  }

  lemma InitHolds(g: Global)
    requires Init(g)
    ensures Inv(g)
  {
    assert VersionsOf(g.hist) == map[];
    forall c, k | c in g.clients ensures ViewInv(ViewOf(g, c, k)) {
      var s := SlotOf(g, c, k);
      if s.value.Some? {
        assert s.log[..0] == [];
        assert LogOk(s.log[..0], []);
        assert EventOk(s.log[..0], s.log[0], []);
      }
    }
  }

  lemma StepKeepsInv(g: Global, a: Action)
    requires Inv(g) && Enables(g, a)
    ensures Inv(Apply(g, a))
  {
    match a
    case OnItem(c, k, act) => ItemStepKeepsInv(g, c, k, act);
    case ResetSyncState(c) => ResetKeepsInv(g, c);
    case _ => CheckpointStepKeepsInv(g, a);
  }

  /** Steps that concern only a client's checkpoint. */
  predicate CheckpointOnly(a: Action) {
    !a.OnItem? && !a.ResetSyncState?
  }

  lemma CheckpointStepFrame(g: Global, a: Action)
    requires a.client in g.clients && CheckpointOnly(a)
    ensures var g' := Apply(g, a);
      && g'.hist == g.hist && g'.head == g.head && g'.clients.Keys == g.clients.Keys
      && g'.clients[a.client].slots == g.clients[a.client].slots
      && forall d :: d in g.clients && d != a.client ==> g'.clients[d] == g.clients[d]
  {
  }

  /** What the invariant says about a client depends on its own data and the histories alone. */
  lemma SameClientSameInv(g: Global, g': Global, d: ClientId)
    requires d in g.clients && d in g'.clients && g'.hist == g.hist && g'.clients[d] == g.clients[d]
    requires CheckpointInv(g, d)
    ensures CheckpointInv(g', d)
  {
    forall k ensures RecordOf(g', d, k) == RecordOf(g, d, k) && HistOf(g', k) == HistOf(g, k) {}
    forall k ensures SeenIn(g'.clients[d].seen, k) <= |HistOf(g', k)| {
      assert SeenIn(g.clients[d].seen, k) <= |HistOf(g, k)|;
    }
  }

  lemma OwnCheckpointStep(g: Global, a: Action)
    requires Inv(g) && Enables(g, a) && CheckpointOnly(a)
    ensures CheckpointInv(Apply(g, a), a.client)
  {
    var c, g' := a.client, Apply(g, a);
    assert CheckpointInv(g, c);
    forall k ensures RecordOf(g', c, k) == RecordOf(g, c, k) && HistOf(g', k) == HistOf(g, k) {}
    if a.BumpHead? {
      OwnHeadStep(g, c, a.key);
    } else {
      forall k ensures SeenIn(g'.clients[c].seen, k) <= |HistOf(g', k)| {
        assert SeenIn(g.clients[c].seen, k) <= |HistOf(g, k)|;
      }
    }
  }

  lemma OwnHeadStep(g: Global, c: ClientId, k: Key)
    requires Inv(g) && Enables(g, BumpHead(c, k))
    ensures CheckpointInv(Apply(g, BumpHead(c, k)), c)
  {
    var g' := Apply(g, BumpHead(c, k));
    assert CheckpointInv(g, c) && ViewInv(ViewOf(g, c, k));
    TotalUpdate(g.clients[c].seen, k, SeenOf(g, c, k) + 1);
    forall j ensures SeenIn(g'.clients[c].seen, j) <= |HistOf(g', j)| {
      assert SeenIn(g.clients[c].seen, j) <= |HistOf(g, j)| && HistOf(g', j) == HistOf(g, j);
    }
    forall j ensures RecordOf(g', c, j) == RecordOf(g, c, j) {}
  }

  lemma CheckpointStepKeepsInv(g: Global, a: Action)
    requires Inv(g) && Enables(g, a) && CheckpointOnly(a)
    ensures Inv(Apply(g, a))
  {
    var g' := Apply(g, a);
    CheckpointStepFrame(g, a);
    OwnCheckpointStep(g, a);
    forall c, k | c in g'.clients ensures ViewInv(ViewOf(g', c, k)) {
      assert ViewOf(g', c, k) == ViewOf(g, c, k);
    }
    forall c | c in g'.clients ensures CheckpointInv(g', c) {
      if c != a.client {
        SameClientSameInv(g, g', c);
      }
    }
    forall k ensures AllFit(HistOf(g', k)) {
      assert HistOf(g', k) == HistOf(g, k);
    }
  }

  lemma ResetKeepsInv(g: Global, c: ClientId)
    requires Inv(g) && c in g.clients
    ensures Inv(Apply(g, ResetSyncState(c)))
  {
    var g' := Apply(g, ResetSyncState(c));
    forall k ensures HistOf(g', k) == HistOf(g, k) {}
    forall d, k | d in g'.clients ensures ViewInv(ViewOf(g', d, k)) {
      var v := ViewOf(g, d, k);
      assert ViewInv(v);
      if d == c && k in g.clients[c].slots {
        Appended(v.log, Forgot);
        assert EventOk(v.log, Forgot, v.hist);
      }
    }
    forall d | d in g'.clients ensures CheckpointInv(g', d) {
      assert CheckpointInv(g, d);
      if d != c {
        forall k ensures RecordOf(g', d, k) == RecordOf(g, d, k) {}
      }
    }
  }

  lemma ItemStepKeepsInv(g: Global, c: ClientId, k: Key, act: ItemAction)
    requires Inv(g) && Enables(g, OnItem(c, k, act))
    ensures Inv(ItemStep(g, c, k, act))
  {
    var g' := ItemStep(g, c, k, act);
    ItemStepKeepsViews(g, c, k, act);
    ItemStepKeepsCounts(g, c, k, act);
    forall d | d in g'.clients ensures CheckpointInv(g', d) {
      ItemStepKeepsCheckpoint(g, c, k, act, d);
    }
    forall j ensures AllFit(HistOf(g', j)) {
      assert ViewInv(ViewOf(g', c, j));
    }
  }

  lemma ItemStepFrame(g: Global, c: ClientId, k: Key, act: ItemAction)
    requires c in g.clients
    ensures var g' := ItemStep(g, c, k, act);
      && g'.clients.Keys == g.clients.Keys
      && ViewOf(g', c, k) == Act(ViewOf(g, c, k), act)
      && (forall d, j :: d != c || j != k ==> SlotOf(g', d, j) == SlotOf(g, d, j))
      && (forall j :: j != k ==> HistOf(g', j) == HistOf(g, j))
      && (forall d, j :: SeenOf(g', d, j) == SeenOf(g, d, j))
      && (forall d :: d in g.clients ==>
          g'.clients[d].checkpoint == g.clients[d].checkpoint && g'.clients[d].seen == g.clients[d].seen)
  {
  }

  lemma ItemStepKeepsViews(g: Global, c: ClientId, k: Key, act: ItemAction)
    requires Inv(g) && Enables(g, OnItem(c, k, act))
    ensures forall d, j :: d in g.clients ==> ViewInv(ViewOf(ItemStep(g, c, k, act), d, j))
  {
    forall d, j | d in g.clients ensures ViewInv(ViewOf(ItemStep(g, c, k, act), d, j)) {
      ItemStepKeepsView(g, c, k, act, d, j);
    }
  }

  lemma ItemStepKeepsView(g: Global, c: ClientId, k: Key, act: ItemAction, d: ClientId, j: Key)
    requires Inv(g) && Enables(g, OnItem(c, k, act)) && d in g.clients
    ensures ViewInv(ViewOf(ItemStep(g, c, k, act), d, j))
  {
    ItemStepFrame(g, c, k, act);
    assert ViewInv(ViewOf(g, c, k)) && ViewInv(ViewOf(g, d, j));
    StepKeeps(ViewOf(g, c, k), act);
    if j == k && d != c {
      HistoryGrows(ViewOf(g, d, k), HistOf(ItemStep(g, c, k, act), k));
    }
  }

  /** The server head counts the versions of all items. */
  lemma ItemStepKeepsCounts(g: Global, c: ClientId, k: Key, act: ItemAction)
    requires Inv(g) && c in g.clients
    ensures ItemStep(g, c, k, act).head == Total(VersionsOf(ItemStep(g, c, k, act).hist))
  {
    var g' := ItemStep(g, c, k, act);
    var n := |HistOf(g', k)|;
    if n > |HistOf(g, k)| {
      assert VersionsOf(g'.hist) == VersionsOf(g.hist)[k := n];
      TotalUpdate(VersionsOf(g.hist), k, n);
    }
  }

  /** A step of an item keeps its record abreast of the checkpoint. */
  lemma StepKeepsUpToDate(v: View, act: ItemAction, seen: nat)
    requires ViewInv(v) && Enabled(v, act) && (act.Save? ==> UpToDateOrQueued(act.meta, seen))
    requires UpToDateOrQueued(Loaded(v.meta), seen)
    ensures UpToDateOrQueued(Loaded(Act(v, act).meta), seen)
  {
  }

  lemma ItemStepKeepsCheckpoint(g: Global, c: ClientId, k: Key, act: ItemAction, d: ClientId)
    requires Inv(g) && Enables(g, OnItem(c, k, act)) && d in g.clients
    ensures CheckpointInv(ItemStep(g, c, k, act), d)
  {
    var g' := ItemStep(g, c, k, act);
    assert CheckpointInv(g, d);
    ItemStepFrame(g, c, k, act);
    forall j ensures SeenIn(g'.clients[d].seen, j) <= |HistOf(g', j)| {
      assert SeenIn(g.clients[d].seen, j) <= |HistOf(g, j)|;
      assert SeenOf(g', d, j) == SeenIn(g'.clients[d].seen, j);
      assert HistOf(g, k) <= HistOf(g', k);
    }
    forall j | Covers(g'.clients[d].checkpoint.scope, j)
      ensures UpToDateOrQueued(RecordOf(g', d, j), SeenIn(g'.clients[d].seen, j))
    {
      ItemStepKeepsUpToDate(g, c, k, act, d, j);
    }
  }

  lemma ItemStepKeepsUpToDate(g: Global, c: ClientId, k: Key, act: ItemAction, d: ClientId, j: Key)
    requires Inv(g) && Enables(g, OnItem(c, k, act)) && d in g.clients
    requires UpToDateOrQueued(RecordOf(g, d, j), SeenOf(g, d, j))
    ensures UpToDateOrQueued(RecordOf(ItemStep(g, c, k, act), d, j), SeenOf(ItemStep(g, c, k, act), d, j))
  {
    ItemStepFrame(g, c, k, act);
    if d == c && j == k {
      var v := ViewOf(g, c, k);
      assert ViewInv(v);
      assert CheckpointInv(g, c);
      StepKeepsUpToDate(v, act, SeenOf(g, c, k));
    }
  }

  /** Histories only grow. */
  lemma StepKeepsLogs(g: Global, a: Action, c: ClientId, k: Key)
    ensures SlotOf(g, c, k).log <= SlotOf(Apply(g, a), c, k).log && Apply(g, a).clients.Keys == g.clients.Keys
    ensures HistOf(g, k) <= HistOf(Apply(g, a), k)
  {
    if a.client in g.clients && a.OnItem? {
      ItemStepFrame(g, a.client, a.key, a.act);
    }
  }

  // ---- runs ------------------------------------------------------------------------------------

  /** Step `i` of a run through the states `gs` takes `acts[i]`. */
  predicate StepAt(gs: seq<Global>, acts: seq<Action>, i: nat)
    requires i < |acts| && |gs| == |acts| + 1
  {
    gs[i + 1] == Apply(gs[i], acts[i])
  }

  ghost predicate EnabledAt(gs: seq<Global>, acts: seq<Action>, i: nat)
    requires i < |acts| && |gs| == |acts| + 1
  {
    Enables(gs[i], acts[i])
  }

  /** The states `gs` are connected by the steps `acts`. */
  ghost predicate Chain(gs: seq<Global>, acts: seq<Action>) {
    |gs| == |acts| + 1 && forall i :: 0 <= i < |acts| ==> StepAt(gs, acts, i)
  }

  /** A chain in which every step was enabled: an interleaving of the clients' protocols. */
  ghost predicate Run(gs: seq<Global>, acts: seq<Action>) {
    Chain(gs, acts) && forall i :: 0 <= i < |acts| ==> EnabledAt(gs, acts, i)
  }

  /** `h` is reached from `g` by some interleaving of steps. */
  ghost predicate Reaches(g: Global, h: Global) {
    exists gs, acts :: Run(gs, acts) && gs[0] == g && gs[|acts|] == h
  }

  /** Reachable from a state in which nothing was synchronised. */
  ghost predicate Reachable(g: Global) {
    exists g0 :: Init(g0) && Reaches(g0, g)
  }

  /** The invariant holds in every state of a run. */
  lemma {:induction false} RunKeepsInv(gs: seq<Global>, acts: seq<Action>, i: nat)
    requires Run(gs, acts) && Inv(gs[0]) && i <= |acts|
    ensures Inv(gs[i])
  {
    if i > 0 {
      RunKeepsInv(gs, acts, i - 1);
      assert StepAt(gs, acts, i - 1) && EnabledAt(gs, acts, i - 1);
      StepKeepsInv(gs[i - 1], acts[i - 1]);
    }
  }

  lemma ReachableInv(g: Global)
    requires Reachable(g)
    ensures Inv(g)
  {
    var g0 :| Init(g0) && Reaches(g0, g);
    var gs, acts :| Run(gs, acts) && gs[0] == g0 && gs[|acts|] == g;
    InitHolds(g0);
    RunKeepsInv(gs, acts, |acts|);
  }

  lemma ChainsCompose(gs: seq<Global>, acts: seq<Action>, hs: seq<Global>, more: seq<Action>)
    requires Chain(gs, acts) && Chain(hs, more) && gs[|acts|] == hs[0]
    ensures Chain(gs + hs[1..], acts + more)
    ensures Run(gs, acts) && Run(hs, more) ==> Run(gs + hs[1..], acts + more)
  {
    var all, steps := gs + hs[1..], acts + more;
    forall i | 0 <= i < |steps|
      ensures StepAt(all, steps, i)
      ensures Run(gs, acts) && Run(hs, more) ==> EnabledAt(all, steps, i)
    {
      if i < |acts| {
        assert StepAt(gs, acts, i) && (Run(gs, acts) ==> EnabledAt(gs, acts, i));
      } else {
        var j := i - |acts|;
        assert all[i] == hs[j] && all[i + 1] == hs[j + 1];
        assert StepAt(hs, more, j) && (Run(hs, more) ==> EnabledAt(hs, more, j));
      }
    }
  }

  /** A later part of a run is a run. */
  lemma RunSuffix(gs: seq<Global>, acts: seq<Action>, n: nat)
    requires Run(gs, acts) && n <= |acts|
    ensures Run(gs[n..], acts[n..])
  {
    forall i | 0 <= i < |acts| - n
      ensures StepAt(gs[n..], acts[n..], i) && EnabledAt(gs[n..], acts[n..], i)
    {
      assert StepAt(gs, acts, n + i) && EnabledAt(gs, acts, n + i);
    }
  }
}

/** The surroundings of a client engine: its metadata store and value backend
    (`bitboxsync/types.go:164-360`) and the server (`raw/client.go`). Every operation may fail, and
    after every operation other clients and the application may have taken any number of steps.

    `Interfere`, `Fault` and the answers of a dishonest server are nondeterministic: their contracts
    say everything a caller may rely on, their bodies show one behaviour the contracts allow. */
module World {
  import opened Prelude
  import opened ItemState
  import opened ItemLog
  import opened Network

  datatype PutOutcome = Accepted(version: nat) | Refused | Lost(error: Error)

  /** A downloaded item version, and a downloaded item map. */
  datatype Fetched = Fetched(version: nat, value: Bytes)
  datatype ItemMap = ItemMap(versions: map<Key, nat>, head: nat)

  /** What an engine asked of the server, or of the store for its list of items, and what it was answered. */
  datatype Call =
    | HeadRead(head: Reply<nat>)
    | MapRead(items: Reply<ItemMap>)
    | ItemsListed(listed: Status)
    | GetSent(key: Key, answer: Reply<Fetched>)
    | PutSent(key: Key, guard: nat, value: Bytes, outcome: PutOutcome)

  /** Why a request was not answered. */
  function WhyNot(call: Call): Option<Error> {
    match call
    case HeadRead(head) => if head.NoAnswer? then Some(head.error) else None
    case MapRead(items) => if items.NoAnswer? then Some(items.error) else None
    case ItemsListed(listed) => if listed.Failed? then Some(listed.error) else None
    case GetSent(_, answer) => if answer.NoAnswer? then Some(answer.error) else None
    case PutSent(_, _, _, outcome) => if outcome.Lost? then Some(outcome.error) else None
  }

  predicate AllAnswered(cs: seq<Call>) {
    forall i :: 0 <= i < |cs| ==> WhyNot(cs[i]).None?
  }

  /** A request that is not answered is the last one, and is why the caller fails; the token is found rejected only
      by a request. */
  predicate Stops(cs: seq<Call>, st: Status) {
    && (forall i :: 0 <= i < |cs| && WhyNot(cs[i]).Some? ==> i == |cs| - 1 && st == Failed(WhyNot(cs[i]).value))
    && (st == Failed(Unauthorized) ==> cs != [] && WhyNot(cs[|cs| - 1]) == Some(Unauthorized))
  }

  lemma StopsLater(cs: seq<Call>, more: seq<Call>, st: Status)
    requires AllAnswered(cs) && Stops(more, st)
    ensures Stops(cs + more, st) && (AllAnswered(more) ==> AllAnswered(cs + more))
  {
    var all := cs + more;
    forall i | 0 <= i < |all| && WhyNot(all[i]).Some? ensures i == |all| - 1 && st == Failed(WhyNot(all[i]).value) {
      assert i >= |cs| && all[i] == more[i - |cs|];
    }
    if st == Failed(Unauthorized) {
      assert all[|all| - 1] == more[|more| - 1];
    }
  }

  function ReplyOf<T>(st: Status, value: T): Reply<T> {
    if st.Ok? then Answer(value) else NoAnswer(st.error)
  }

  /** What went wrong so far, if the caller ends with `st`: it fails because of the one thing that just went wrong,
      or because the server took something back. */
  function Blamed(faults: seq<Error>, st: Status): seq<Error> {
    if st.Failed? && !st.error.Rollback? then faults + [st.error] else faults
  }

  /** What goes wrong even with an honest server. */
  predicate Mundane(st: Status) {
    st.Failed? ==> st.error.Unavailable? || st.error.Unauthorized? || st.error.MergeFailed?
  }

  /** The values of one collection, read at one moment. */
  datatype Shot = Shot(collection: string, values: map<Key, Bytes>)

  lemma CallsCompose(a: seq<Call>, b: seq<Call>, d: seq<Call>)
    ensures a + b + d == a + (b + d)
  {
  }

  /** Steps that others may take while client `c` runs a pass: everything by other clients, and by
      `c`'s own application writes and, except under the lock of the item, conflict resolutions. */
  predicate Foreign(c: ClientId, locked: Option<Key>, a: Action) {
    a.client != c || (a.OnItem? && (a.act.AppWrite? || (a.act.AppResolve? && locked != Some(a.key))))
  }

  /** Steps the engine of `c` takes itself while it works on the items `ks`. */
  predicate Mine(c: ClientId, ks: set<Key>, a: Action) {
    && a.client == c && !a.ResetSyncState? && !a.LoseCheckpoint?
    && (a.OnItem? ==> a.key in ks && !a.act.AppWrite? && !a.act.AppResolve?)
  }

  /** What happened from `before` to `after` is work of `c` on `ks` and, unless undisturbed, foreign steps. */
  ghost predicate Session(c: ClientId, ks: set<Key>, calm: bool, before: seq<Action>, after: seq<Action>) {
    && before <= after
    && forall i :: |before| <= i < |after| ==> Mine(c, ks, after[i]) || (!calm && Foreign(c, None, after[i]))
  }

  /** What happened is work of the application of `c`, or of others: what the passes of `c` tolerate as
      interference. */
  ghost predicate AppSession(c: ClientId, before: seq<Action>, after: seq<Action>) {
    before <= after && forall i :: |before| <= i < |after| ==> Foreign(c, None, after[i])
  }

  // ---- steps that never take a client backwards ------------------------------------------------

  ghost predicate ShapedAll(g: Global) {
    forall c, k :: Shape(RecordOf(g, c, k))
  }

  /** A step that neither lowers a recorded version nor a saved head, on any server behaviour. */
  predicate Safe(g: Global, a: Action) {
    match a
    case OnItem(c, k, Save(m)) => Shape(m) && RecordOf(g, c, k).version <= m.version
    case SaveCheckpoint(c, _, head, _) => c in g.clients ==> g.clients[c].checkpoint.head <= head
    case KeepCheckpoint(c, cp) => c in g.clients ==> g.clients[c].checkpoint.head <= cp.head
    case _ => true
  }

  predicate SafeAt(gs: seq<Global>, acts: seq<Action>, i: nat)
    requires i < |acts| && |gs| == |acts| + 1
  {
    Safe(gs[i], acts[i])
  }

  ghost predicate SafeChain(gs: seq<Global>, acts: seq<Action>) {
    Chain(gs, acts) && forall i :: 0 <= i < |acts| ==> SafeAt(gs, acts, i)
  }

  // ---- what interference may do to a view ------------------------------------------------------

  predicate MetaDrift(m: Option<Meta>, m': Option<Meta>) {
    m' == m || (m.Some? && m.value.conflict && m'.Some?
        && (m'.value == ResolvedMeta(m.value, true) || m'.value == ResolvedMeta(m.value, false)))
  }

  ghost predicate Drift(v: View, v': View, locked: bool) {
    && v.hist <= v'.hist && v.log <= v'.log
    && (v.value.Some? ==> v'.value.Some?)
    && (v'.log == v.log ==> v'.value == v.value)
    && MetaDrift(v.meta, v'.meta)
    && (locked ==> v'.meta == v.meta && OnlyWrites(v.log, v'.log))
  }

  /** Interference leaves recorded versions alone. */
  lemma DriftKeepsVersion(v: View, v': View, seen: nat)
    requires Drift(v, v', false) && Shape(Loaded(v.meta))
    ensures Loaded(v'.meta).version == Loaded(v.meta).version
    ensures UpToDateOrQueued(Loaded(v.meta), seen) ==> UpToDateOrQueued(Loaded(v'.meta), seen)
  {
  }

  /** What only client `c`'s own engine changes. */
  function LedgerOf(g: Global, c: ClientId): (Checkpoint, map<Key, nat>, nat) {
    if c in g.clients then (g.clients[c].checkpoint, g.clients[c].seen, g.clients[c].mapReads)
    else (Checkpoint(0, NoScope), map[], 0)
  }

  lemma ForeignStepDrifts(g: Global, a: Action, c: ClientId, locked: Option<Key>, k: Key)
    requires Foreign(c, locked, a)
    ensures Drift(ViewOf(g, c, k), ViewOf(Apply(g, a), c, k), locked == Some(k))
    ensures LedgerOf(Apply(g, a), c) == LedgerOf(g, c) && Apply(g, a).clients.Keys == g.clients.Keys
    ensures g.head <= Apply(g, a).head
  {
    if a.client in g.clients && a.OnItem? {
      ItemStepFrame(g, a.client, a.key, a.act);
    }
  }

  lemma {:induction false} ForeignRunDrifts(gs: seq<Global>, acts: seq<Action>, n: nat, c: ClientId,
          locked: Option<Key>, k: Key)
    requires Chain(gs, acts) && n <= |acts| && forall a :: a in acts ==> Foreign(c, locked, a)
    ensures Drift(ViewOf(gs[0], c, k), ViewOf(gs[n], c, k), locked == Some(k))
    ensures LedgerOf(gs[n], c) == LedgerOf(gs[0], c) && gs[n].clients.Keys == gs[0].clients.Keys
    ensures gs[0].head <= gs[n].head
  {
    if n > 0 {
      ForeignRunDrifts(gs, acts, n - 1, c, locked, k);
      assert StepAt(gs, acts, n - 1);
      assert acts[n - 1] in acts;
      ForeignStepDrifts(gs[n - 1], acts[n - 1], c, locked, k);
    }
  }

  // ---- foreign steps that follow the protocol are safe -----------------------------------------

  lemma StepKeepsShapes(g: Global, a: Action)
    requires ShapedAll(g) && Safe(g, a)
    ensures ShapedAll(Apply(g, a))
  {
    forall c, k ensures Shape(RecordOf(Apply(g, a), c, k)) {
      assert Shape(RecordOf(g, c, k));
      if a.client in g.clients && a.OnItem? {
        ItemStepFrame(g, a.client, a.key, a.act);
      }
    }
  }

  lemma {:induction false} SafeRunKeepsShapes(gs: seq<Global>, acts: seq<Action>, n: nat)
    requires SafeChain(gs, acts) && ShapedAll(gs[0]) && n <= |acts|
    ensures ShapedAll(gs[n])
  {
    if n > 0 {
      SafeRunKeepsShapes(gs, acts, n - 1);
      assert StepAt(gs, acts, n - 1) && SafeAt(gs, acts, n - 1);
      StepKeepsShapes(gs[n - 1], acts[n - 1]);
    }
  }

  lemma EnabledIsSafe(g: Global, a: Action)
    requires ShapedAll(g) && Enables(g, a)
    ensures Safe(g, a)
  {
    if a.OnItem? {
      assert Shape(RecordOf(g, a.client, a.key));
    }
  }

  lemma {:induction false} EnabledRunIsSafe(gs: seq<Global>, acts: seq<Action>, n: nat)
    requires Run(gs, acts) && ShapedAll(gs[0]) && n <= |acts|
    ensures ShapedAll(gs[n]) && forall i :: 0 <= i < n ==> SafeAt(gs, acts, i)
  {
    if n > 0 {
      EnabledRunIsSafe(gs, acts, n - 1);
      assert StepAt(gs, acts, n - 1) && EnabledAt(gs, acts, n - 1);
      EnabledIsSafe(gs[n - 1], acts[n - 1]);
      StepKeepsShapes(gs[n - 1], acts[n - 1]);
    }
  }

  lemma SafeChainsCompose(gs: seq<Global>, acts: seq<Action>, hs: seq<Global>, more: seq<Action>)
    requires SafeChain(gs, acts) && SafeChain(hs, more) && gs[|acts|] == hs[0]
    ensures SafeChain(gs + hs[1..], acts + more)
  {
    ChainsCompose(gs, acts, hs, more);
    var all, steps := gs + hs[1..], acts + more;
    forall i | 0 <= i < |steps| ensures SafeAt(all, steps, i) {
      if i < |acts| {
        assert SafeAt(gs, acts, i);
      } else {
        assert SafeAt(hs, more, i - |acts|) && all[i] == hs[i - |acts|];
      }
    }
  }

  lemma ApplyKeepsClients(g: Global, a: Action)
    ensures Apply(g, a).clients.Keys == g.clients.Keys
  {
  }

  /** Point `i` of a world's past: the first state is a sound start, every step is safe for its client,
      and with an honest server it is one the protocol enables. */
  ghost predicate PointOk(states: seq<Global>, steps: seq<Action>, honest: bool, i: nat)
    requires i <= |steps| && |states| == |steps| + 1
  {
    && (i == 0 ==> ShapedAll(states[0]) && (honest ==> Init(states[0])))
    && (i < |steps| ==> StepAt(states, steps, i) && SafeAt(states, steps, i))
    && (i < |steps| && honest ==> EnabledAt(states, steps, i))
  }

  ghost predicate PastOk(states: seq<Global>, steps: seq<Action>, honest: bool) {
    |states| == |steps| + 1 && forall i :: 0 <= i <= |steps| ==> PointOk(states, steps, honest, i)
  }

  lemma PastIsRun(states: seq<Global>, steps: seq<Action>, honest: bool)
    requires PastOk(states, steps, honest)
    ensures SafeChain(states, steps) && ShapedAll(states[0])
    ensures honest ==> Init(states[0]) && Run(states, steps)
  {
    assert PointOk(states, steps, honest, 0);
    forall i | 0 <= i < |steps|
      ensures StepAt(states, steps, i) && SafeAt(states, steps, i) && (honest ==> EnabledAt(states, steps, i))
    {
      assert PointOk(states, steps, honest, i);
    }
  }

  lemma PastExtends(states: seq<Global>, steps: seq<Action>, honest: bool, gs: seq<Global>, acts: seq<Action>)
    requires PastOk(states, steps, honest)
    requires SafeChain(gs, acts) && (honest ==> Run(gs, acts)) && states[|steps|] == gs[0]
    ensures PastOk(states + gs[1..], steps + acts, honest)
  {
    PastIsRun(states, steps, honest);
    SafeChainsCompose(states, steps, gs, acts);
    ChainsCompose(states, steps, gs, acts);
    var all, more := states + gs[1..], steps + acts;
    forall i | 0 <= i <= |more| ensures PointOk(all, more, honest, i) {
      if i < |more| {
        assert StepAt(all, more, i) && SafeAt(all, more, i) && (honest ==> EnabledAt(all, more, i));
      }
    }
  }

  /** The steps determine the states. */
  lemma {:induction false} ChainDetermined(gs: seq<Global>, acts: seq<Action>, hs: seq<Global>, more: seq<Action>,
          n: nat)
    requires Chain(gs, acts) && Chain(hs, more) && gs[0] == hs[0] && acts <= more && n <= |acts|
    ensures gs[n] == hs[n]
  {
    if n > 0 {
      ChainDetermined(gs, acts, hs, more, n - 1);
      assert StepAt(gs, acts, n - 1) && StepAt(hs, more, n - 1);
    }
  }

  /** Work on the items `ks` leaves the other items of client `c` to interference. */
  lemma {:induction false} SessionSpares(gs: seq<Global>, acts: seq<Action>, from: nat, to: nat, c: ClientId,
          ks: set<Key>, calm: bool, k: Key)
    requires Chain(gs, acts) && from <= to <= |acts| && k !in ks
    requires forall i :: from <= i < to ==> Mine(c, ks, acts[i]) || (!calm && Foreign(c, None, acts[i]))
    ensures Drift(ViewOf(gs[from], c, k), ViewOf(gs[to], c, k), false)
    ensures calm ==> ViewOf(gs[to], c, k) == ViewOf(gs[from], c, k)
  {
    if from < to {
      SessionSpares(gs, acts, from, to - 1, c, ks, calm, k);
      assert StepAt(gs, acts, to - 1);
      if Mine(c, ks, acts[to - 1]) {
        StepSpares(gs[to - 1], acts[to - 1], c, ks, k);
      } else {
        ForeignStepDrifts(gs[to - 1], acts[to - 1], c, None, k);
      }
    }
  }

  lemma StepSpares(g: Global, a: Action, c: ClientId, ks: set<Key>, k: Key)
    requires Mine(c, ks, a) && k !in ks
    ensures ViewOf(Apply(g, a), c, k) == ViewOf(g, c, k)
  {
    if a.client in g.clients && a.OnItem? {
      ItemStepFrame(g, c, a.key, a.act);
    }
  }

  lemma StepGrows(g: Global, a: Action)
    ensures g.head <= Apply(g, a).head && forall k :: HistOf(g, k) <= HistOf(Apply(g, a), k)
  {
    if a.client in g.clients && a.OnItem? {
      ItemStepFrame(g, a.client, a.key, a.act);
    }
  }

  /** The server only ever gains versions. */
  lemma {:induction false} ChainGrows(gs: seq<Global>, acts: seq<Action>, from: nat, to: nat)
    requires Chain(gs, acts) && from <= to <= |acts|
    ensures gs[from].head <= gs[to].head && forall k :: HistOf(gs[from], k) <= HistOf(gs[to], k)
  {
    if from < to {
      ChainGrows(gs, acts, from, to - 1);
      assert StepAt(gs, acts, to - 1);
      StepGrows(gs[to - 1], acts[to - 1]);
    }
  }

  lemma {:induction false} ChainLogs(gs: seq<Global>, acts: seq<Action>, from: nat, to: nat, c: ClientId, k: Key)
    requires Chain(gs, acts) && from <= to <= |acts|
    ensures SlotOf(gs[from], c, k).log <= SlotOf(gs[to], c, k).log
  {
    if from < to {
      ChainLogs(gs, acts, from, to - 1, c, k);
      assert StepAt(gs, acts, to - 1);
      StepKeepsLogs(gs[to - 1], acts[to - 1], c, k);
    }
  }

  /** Undisturbed work of client `c` leaves the other clients alone. */
  lemma {:induction false} CalmSessionSparesClients(gs: seq<Global>, acts: seq<Action>, from: nat, to: nat,
          c: ClientId, ks: set<Key>)
    requires Chain(gs, acts) && from <= to <= |acts|
    requires forall i :: from <= i < to ==> Mine(c, ks, acts[i])
    ensures gs[to].clients.Keys == gs[from].clients.Keys
    ensures forall d :: d in gs[from].clients && d != c ==> gs[to].clients[d] == gs[from].clients[d]
  {
    if from < to {
      CalmSessionSparesClients(gs, acts, from, to - 1, c, ks);
      assert StepAt(gs, acts, to - 1);
    }
  }

  /** The steps `acts` lead from `start` to `g`. */
  ghost predicate Past(start: Global, honest: bool, acts: seq<Action>, g: Global) {
    exists gs :: PastOk(gs, acts, honest) && gs[0] == start && gs[|acts|] == g
  }

  /** With an honest server every state of a world is reachable, later ones from earlier ones. */
  lemma PastIsReachable(start: Global, s0: seq<Action>, g0: Global, s1: seq<Action>, g1: Global)
    requires Past(start, true, s0, g0) && Past(start, true, s1, g1) && s0 <= s1
    ensures Reaches(g0, g1) && Reachable(g1)
  {
    var gs :| PastOk(gs, s0, true) && gs[0] == start && gs[|s0|] == g0;
    var hs :| PastOk(hs, s1, true) && hs[0] == start && hs[|s1|] == g1;
    PastIsRun(gs, s0, true);
    PastIsRun(hs, s1, true);
    ChainDetermined(gs, s0, hs, s1, |s0|);
    RunSuffix(hs, s1, |s0|);
    assert hs[|s0|..][0] == g0 && hs[|s0|..][|s1[|s0|..]|] == g1;
    assert Reaches(start, g1);
  }

  /** A client's history of an item only ever grows. */
  lemma LogGrows(start: Global, honest: bool, s0: seq<Action>, g0: Global, s1: seq<Action>, g1: Global, c: ClientId,
          k: Key)
    requires Past(start, honest, s0, g0) && Past(start, honest, s1, g1) && s0 <= s1
    ensures SlotOf(g0, c, k).log <= SlotOf(g1, c, k).log
  {
    var gs :| PastOk(gs, s0, honest) && gs[0] == start && gs[|s0|] == g0;
    var hs :| PastOk(hs, s1, honest) && hs[0] == start && hs[|s1|] == g1;
    PastIsRun(gs, s0, honest);
    PastIsRun(hs, s1, honest);
    ChainDetermined(gs, s0, hs, s1, |s0|);
    ChainLogs(hs, s1, |s0|, |s1|, c, k);
  }

  /** A world's past is never rewritten. */
  lemma StatesGrow(states: seq<Global>, steps: seq<Action>, later: seq<Global>, more: seq<Action>, honest: bool)
    requires PastOk(states, steps, honest) && PastOk(later, more, honest) && states[0] == later[0] && steps <= more
    ensures states <= later
  {
    PastIsRun(states, steps, honest);
    PastIsRun(later, more, honest);
    forall i | 0 <= i < |states| ensures states[i] == later[i] {
      ChainDetermined(states, steps, later, more, i);
    }
  }

  /** Recorded versions and the saved head of client `c` only move forward. */
  ghost predicate Forward(g: Global, h: Global, c: ClientId) {
    && LedgerOf(g, c).0.head <= LedgerOf(h, c).0.head
    && forall k :: RecordOf(g, c, k).version <= RecordOf(h, c, k).version
  }

  lemma StepForward(g: Global, a: Action, c: ClientId, ks: set<Key>)
    requires ShapedAll(g) && Safe(g, a) && (Mine(c, ks, a) || Foreign(c, None, a))
    ensures Forward(g, Apply(g, a), c)
  {
    forall k ensures RecordOf(g, c, k).version <= RecordOf(Apply(g, a), c, k).version {
      assert Shape(RecordOf(g, c, k));
      if a.client in g.clients && a.OnItem? {
        ItemStepFrame(g, a.client, a.key, a.act);
      }
    }
  }

  lemma {:induction false} ChainForward(gs: seq<Global>, acts: seq<Action>, from: nat, to: nat, c: ClientId,
          ks: set<Key>)
    requires SafeChain(gs, acts) && ShapedAll(gs[0]) && from <= to <= |acts|
    requires forall i :: from <= i < to ==> Mine(c, ks, acts[i]) || Foreign(c, None, acts[i])
    ensures Forward(gs[from], gs[to], c)
  {
    if from < to {
      ChainForward(gs, acts, from, to - 1, c, ks);
      SafeRunKeepsShapes(gs, acts, to - 1);
      assert StepAt(gs, acts, to - 1) && SafeAt(gs, acts, to - 1);
      StepForward(gs[to - 1], acts[to - 1], c, ks);
    }
  }

  /** A session never takes its client backwards, whatever the server does. */
  lemma SessionForward(start: Global, honest: bool, s0: seq<Action>, g0: Global, s1: seq<Action>, g1: Global,
          c: ClientId, ks: set<Key>, calm: bool)
    requires Past(start, honest, s0, g0) && Past(start, honest, s1, g1) && Session(c, ks, calm, s0, s1)
    ensures Forward(g0, g1, c)
  {
    var gs :| PastOk(gs, s0, honest) && gs[0] == start && gs[|s0|] == g0;
    var hs :| PastOk(hs, s1, honest) && hs[0] == start && hs[|s1|] == g1;
    PastIsRun(gs, s0, honest);
    PastIsRun(hs, s1, honest);
    ChainDetermined(gs, s0, hs, s1, |s0|);
    ChainForward(hs, s1, |s0|, |s1|, c, ks);
  }

  /** A record that is abreast of `n` accounted versions stays so. */
  lemma StepStaysAbreast(g: Global, a: Action, c: ClientId, ks: set<Key>, k: Key, n: nat)
    requires Inv(g) && Enables(g, a) && (Mine(c, ks, a) || Foreign(c, None, a))
    requires c in g.clients && n <= SeenOf(g, c, k) && UpToDateOrQueued(RecordOf(g, c, k), n)
    ensures n <= SeenOf(Apply(g, a), c, k) && UpToDateOrQueued(RecordOf(Apply(g, a), c, k), n)
  {
    if a.OnItem? && a.client == c && a.key == k {
      ItemStepFrame(g, c, k, a.act);
      assert ViewInv(ViewOf(g, c, k));
      StepKeepsUpToDate(ViewOf(g, c, k), a.act, n);
    } else if a.OnItem? {
      ItemStepFrame(g, a.client, a.key, a.act);
      assert SlotOf(Apply(g, a), c, k) == SlotOf(g, c, k);
    }
  }

  lemma {:induction false} RunStaysAbreast(gs: seq<Global>, acts: seq<Action>, from: nat, to: nat, c: ClientId,
          ks: set<Key>, k: Key, n: nat)
    requires Run(gs, acts) && Init(gs[0]) && from <= to <= |acts|
    requires forall i :: from <= i < to ==> Mine(c, ks, acts[i]) || Foreign(c, None, acts[i])
    requires c in gs[from].clients && n <= SeenOf(gs[from], c, k) && UpToDateOrQueued(RecordOf(gs[from], c, k), n)
    ensures c in gs[to].clients && n <= SeenOf(gs[to], c, k) && UpToDateOrQueued(RecordOf(gs[to], c, k), n)
  {
    if from < to {
      RunStaysAbreast(gs, acts, from, to - 1, c, ks, k, n);
      InitHolds(gs[0]);
      RunKeepsInv(gs, acts, to - 1);
      assert StepAt(gs, acts, to - 1) && EnabledAt(gs, acts, to - 1);
      StepStaysAbreast(gs[to - 1], acts[to - 1], c, ks, k, n);
    }
  }

  lemma SessionStaysAbreast(start: Global, s0: seq<Action>, g0: Global, s1: seq<Action>, g1: Global, c: ClientId,
          ks: set<Key>, calm: bool, k: Key, n: nat)
    requires Past(start, true, s0, g0) && Past(start, true, s1, g1) && Session(c, ks, calm, s0, s1)
    requires c in g0.clients && n <= SeenOf(g0, c, k) && UpToDateOrQueued(RecordOf(g0, c, k), n)
    ensures UpToDateOrQueued(RecordOf(g1, c, k), n)
  {
    var gs :| PastOk(gs, s0, true) && gs[0] == start && gs[|s0|] == g0;
    var hs :| PastOk(hs, s1, true) && hs[0] == start && hs[|s1|] == g1;
    PastIsRun(gs, s0, true);
    PastIsRun(hs, s1, true);
    ChainDetermined(gs, s0, hs, s1, |s0|);
    RunStaysAbreast(hs, s1, |s0|, |s1|, c, ks, k, n);
  }

  /** What a session on the items `ks` means for the other items and the other clients. */
  lemma Elsewhere(start: Global, honest: bool, s0: seq<Action>, g0: Global, s1: seq<Action>, g1: Global, c: ClientId,
          ks: set<Key>, calm: bool)
    requires Past(start, honest, s0, g0) && Past(start, honest, s1, g1) && Session(c, ks, calm, s0, s1)
    ensures g0.head <= g1.head && forall k :: HistOf(g0, k) <= HistOf(g1, k)
    ensures forall k :: k !in ks ==> Drift(ViewOf(g0, c, k), ViewOf(g1, c, k), false)
    ensures calm ==> forall k :: k !in ks ==> ViewOf(g1, c, k) == ViewOf(g0, c, k)
    ensures calm ==> g1.clients.Keys == g0.clients.Keys && forall d :: d in g1.clients && d != c ==>
        g1.clients[d] == g0.clients[d]
  {
    var gs :| PastOk(gs, s0, honest) && gs[0] == start && gs[|s0|] == g0;
    var hs :| PastOk(hs, s1, honest) && hs[0] == start && hs[|s1|] == g1;
    PastIsRun(gs, s0, honest);
    PastIsRun(hs, s1, honest);
    ChainDetermined(gs, s0, hs, s1, |s0|);
    ChainGrows(hs, s1, |s0|, |s1|);
    forall k | k !in ks
      ensures Drift(ViewOf(g0, c, k), ViewOf(g1, c, k), false) && (calm ==> ViewOf(g1, c, k) == ViewOf(g0, c, k))
    {
      SessionSpares(hs, s1, |s0|, |s1|, c, ks, calm, k);
    }
    if calm {
      CalmSessionSparesClients(hs, s1, |s0|, |s1|, c, ks);
    }
  }

  class World {
    var g: Global
    ghost const start: Global        // the state before the first step
    ghost var states: seq<Global>    // every state so far, `g` being the last
    ghost var steps: seq<Action>     // the steps that lead from each to the next
    ghost var calls: seq<Call>       // what was asked and answered so far
    ghost var faults: seq<Error>     // what went wrong so far: operations that failed and merges that broke
    ghost var shots: seq<Shot>       // the snapshots taken so far
    const honest: bool               // the server keeps and reports every accepted write
    const calm: bool                 // no interference and no failures
    const fixedScope: Option<Scope>  // Keys() returns this scope throughout

    ghost predicate Valid()
      reads this`g, this`states, this`steps
    {
      && PastOk(states, steps, honest) && states[0] == start && states[|steps|] == g
      && (calm ==> fixedScope.Some?)
    }

    constructor (g0: Global, honest: bool, calm: bool, fixedScope: Option<Scope>)
      requires ShapedAll(g0) && (honest ==> Init(g0)) && (calm ==> fixedScope.Some?)
      ensures Valid() && g == g0 && start == g0 && steps == [] && calls == [] && faults == [] && shots == []
      ensures this.honest == honest && this.calm == calm && this.fixedScope == fixedScope
    {
      g, start, states, steps, calls, faults, shots := g0, g0, [g0], [], [], [], [];
      this.honest, this.calm, this.fixedScope := honest, calm, fixedScope;
      new;
      assert PointOk(states, steps, honest, 0);
    }

    lemma Known(c: ClientId, k: Key)
      requires Valid() && honest && c in g.clients
      ensures ViewInv(ViewOf(g, c, k)) && SeenOf(g, c, k) <= |HistOf(g, k)| && CheckpointInv(g, c)
      ensures g.head == Total(VersionsOf(g.hist))
    {
      PastIsRun(states, steps, honest);
      InitHolds(states[0]);
      RunKeepsInv(states, steps, |steps|);
      assert CheckpointInv(g, c);
      assert SeenIn(g.clients[c].seen, k) <= |HistOf(g, k)|;
    }

    lemma Shaped(c: ClientId, k: Key)
      requires Valid()
      ensures Shape(RecordOf(g, c, k))
    {
      PastIsRun(states, steps, honest);
      SafeRunKeepsShapes(states, steps, |steps|);
    }

    lemma PastHere()
      requires Valid()
      ensures Past(start, honest, steps, g)
    {
    }

    // ---- interference and failures -------------------------------------------------------------

    /** Others take any number of steps of the protocol. */
    method Interfere(c: ClientId, locked: Option<Key>) returns (ghost gs: seq<Global>, ghost acts: seq<Action>)
      requires Valid()
      modifies this`g
      ensures Run(gs, acts) && gs[0] == old(g) && gs[|acts|] == g
      ensures forall a :: a in acts ==> Foreign(c, locked, a)
      ensures calm ==> acts == []
    {
      gs, acts := [g], [];
    }

    /** A request may fail for reasons of its own. */
    method Fault() returns (st: Status)
      modifies this`faults
      ensures faults == Blamed(old(faults), st)
      ensures calm ==> st.Ok?
      ensures st.Failed? ==> st.error.Unauthorized? || st.error.Unavailable?
    {
      st := Ok;
    }

    /** So may the store and the backend, but they ask for no token. */
    method StoreFault() returns (st: Status)
      modifies this`faults
      ensures faults == Blamed(old(faults), st)
      ensures calm ==> st.Ok?
      ensures st.Failed? ==> st.error.Unavailable?
    {
      st := Ok;
    }

    method Yield(c: ClientId, locked: Option<Key>)
      requires Valid()
      modifies this`g, this`states, this`steps
      ensures Valid() && Session(c, {}, calm, old(steps), steps) && AppSession(c, old(steps), steps)
      ensures forall k :: Drift(old(ViewOf(g, c, k)), ViewOf(g, c, k), locked == Some(k))
      ensures LedgerOf(g, c) == old(LedgerOf(g, c)) && g.clients.Keys == old(g.clients.Keys) && old(g.head) <= g.head
      ensures calm ==> g == old(g)
    {
      ghost var gs, acts := Interfere(c, locked);
      PastIsRun(states, steps, honest);
      SafeRunKeepsShapes(states, steps, |steps|);
      EnabledRunIsSafe(gs, acts, |acts|);
      PastExtends(states, steps, honest, gs, acts);
      forall k ensures Drift(old(ViewOf(g, c, k)), ViewOf(g, c, k), locked == Some(k)) {
        ForeignRunDrifts(gs, acts, |acts|, c, locked, k);
      }
      ForeignRunDrifts(gs, acts, |acts|, c, locked, Key("", ""));
      forall a | a in acts ensures Foreign(c, None, a) && !calm {
        assert Foreign(c, locked, a);
      }
      states, steps := states + gs[1..], steps + acts;
    }

    /** The engine of `a.client` takes one step. */
    method Take(a: Action)
      requires Valid() && Safe(g, a) && (honest ==> Enables(g, a)) && a.client in g.clients
      modifies this`g, this`states, this`steps
      ensures Valid() && g == Apply(old(g), a) && steps == old(steps) + [a] && g.clients.Keys == old(g.clients.Keys)
    {
      ghost var gs, acts := [g, Apply(g, a)], [a];
      assert StepAt(gs, acts, 0) && SafeAt(gs, acts, 0) && (honest ==> EnabledAt(gs, acts, 0));
      PastExtends(states, steps, honest, gs, acts);
      ApplyKeepsClients(g, a);
      g := Apply(g, a);
      states, steps := states + gs[1..], steps + acts;
    }

    /** One step on an item. */
    method TakeItemStep(c: ClientId, k: Key, act: ItemAction)
      requires Valid() && c in g.clients && !act.AppWrite? && !act.AppResolve?
      requires Safe(g, OnItem(c, k, act)) && (honest ==> Enables(g, OnItem(c, k, act)))
      modifies this`g, this`states, this`steps
      ensures Valid() && steps == old(steps) + [OnItem(c, k, act)] && c in g.clients
      ensures ViewOf(g, c, k) == Act(old(ViewOf(g, c, k)), act)
      ensures LedgerOf(g, c) == old(LedgerOf(g, c))
    {
      ItemStepFrame(g, c, k, act);
      Take(OnItem(c, k, act));
    }

    /** One step on an item, then interference. */
    method TakeOnItem(c: ClientId, k: Key, act: ItemAction, locked: bool)
      requires Valid() && c in g.clients && !act.AppWrite? && !act.AppResolve?
      requires Safe(g, OnItem(c, k, act)) && (honest ==> Enables(g, OnItem(c, k, act)))
      modifies this`g, this`states, this`steps
      ensures Valid() && Session(c, {k}, calm, old(steps), steps) && c in g.clients
      ensures Drift(Act(old(ViewOf(g, c, k)), act), ViewOf(g, c, k), locked)
      ensures LedgerOf(g, c) == old(LedgerOf(g, c))
      ensures calm ==> ViewOf(g, c, k) == Act(old(ViewOf(g, c, k)), act)
    {
      TakeItemStep(c, k, act);
      Yield(c, if locked then Some(k) else None);
    }

    /** The application of `c` takes one step under the lock of the item, then interference. */
    method TakeAppStep(c: ClientId, k: Key, act: ItemAction)
      requires Valid() && c in g.clients && (act.AppWrite? || (act.AppResolve? && RecordOf(g, c, k).conflict))
      modifies this`g, this`states, this`steps
      ensures Valid() && AppSession(c, old(steps), steps) && c in g.clients
      ensures Drift(Act(old(ViewOf(g, c, k)), act), ViewOf(g, c, k), true) && LedgerOf(g, c) == old(LedgerOf(g, c))
      ensures calm ==> ViewOf(g, c, k) == Act(old(ViewOf(g, c, k)), act)
    {
      ItemStepFrame(g, c, k, act);
      Take(OnItem(c, k, act));
      ghost var mine := steps;
      Yield(c, Some(k));
      forall i | |old(steps)| <= i < |steps| ensures Foreign(c, None, steps[i]) {
        if i < |mine| {
          assert steps[i] == mine[i] == OnItem(c, k, act);
        }
      }
    }

    // ---- the metadata store and the value backend ----------------------------------------------

    /** `Store.GetItemByID`, under the lock of the item. */
    method LoadItem(c: ClientId, k: Key) returns (st: Status, m: Option<Meta>)
      requires Valid() && c in g.clients
      modifies this`g, this`states, this`steps, this`faults
      ensures faults == Blamed(old(faults), st)
      ensures Valid() && Session(c, {k}, calm, old(steps), steps) && AppSession(c, old(steps), steps) && c in g.clients
      ensures LedgerOf(g, c) == old(LedgerOf(g, c))
      ensures Drift(old(ViewOf(g, c, k)), ViewOf(g, c, k), true)
      ensures st.Ok? ==> m == SlotOf(g, c, k).meta
      ensures st.Failed? ==> st.error.Unavailable?
      ensures calm ==> st.Ok? && ViewOf(g, c, k) == old(ViewOf(g, c, k))
    {
      m := SlotOf(g, c, k).meta;
      Yield(c, Some(k));
      assert Drift(old(ViewOf(g, c, k)), ViewOf(g, c, k), true);
      st := StoreFault();
    }

    /** `Store.SaveItem`. */
    method SaveItem(c: ClientId, k: Key, m: Meta) returns (st: Status)
      requires Valid() && c in g.clients && Shape(m) && RecordOf(g, c, k).version <= m.version
      requires honest ==> Enables(g, OnItem(c, k, Save(m)))
      modifies this`g, this`states, this`steps, this`faults
      ensures faults == Blamed(old(faults), st)
      ensures Valid() && Session(c, {k}, calm, old(steps), steps) && c in g.clients
      ensures LedgerOf(g, c) == old(LedgerOf(g, c))
      ensures st.Ok? ==> Drift(Act(old(ViewOf(g, c, k)), Save(m)), ViewOf(g, c, k), true)
      ensures st.Failed? ==> st.error.Unavailable?
      ensures calm ==> st.Ok? && ViewOf(g, c, k) == Act(old(ViewOf(g, c, k)), Save(m))
    {
      st := StoreFault();
      if st.Failed? {
        return;
      }
      TakeOnItem(c, k, Save(m), true);
      st := StoreFault();
    }

    /** `ValueBackend.Get`: the value found, which the application may replace right afterwards. That there is none
        is a failure if the caller needs it. */
    method ReadValue(c: ClientId, k: Key, needed: bool) returns (st: Status, x: Option<Bytes>)
      requires Valid() && c in g.clients
      modifies this`g, this`states, this`steps, this`faults
      ensures faults == Blamed(old(faults), st)
      ensures Valid() && Session(c, {k}, calm, old(steps), steps) && AppSession(c, old(steps), steps) && c in g.clients
      ensures LedgerOf(g, c) == old(LedgerOf(g, c))
      ensures Drift(old(ViewOf(g, c, k)), ViewOf(g, c, k), true)
      ensures x == old(SlotOf(g, c, k).value)
      ensures honest && x.Some? ==> HeldSince(SlotOf(g, c, k).log, x.value)
      ensures st.Ok? && needed ==> x.Some?
      ensures st.Failed? ==> st.error.Unavailable? || (st.error.NotFound? && needed && x.None?)
      ensures calm ==> (st.Ok? || (needed && x.None?)) && ViewOf(g, c, k) == old(ViewOf(g, c, k))
    {
      x := SlotOf(g, c, k).value;
      ghost var log := SlotOf(g, c, k).log;
      if honest {
        Known(c, k);
      }
      Yield(c, Some(k));
      assert Drift(old(ViewOf(g, c, k)), ViewOf(g, c, k), true);
      SinceStays(log, SlotOf(g, c, k).log);
      st := StoreFault();
      if st.Ok? && needed && x.None? {
        st, faults := Failed(NotFound), faults + [NotFound];
      }
    }

    /** `ConditionalValueBackend.SetIfCurrent`: replaces the value only if it is still `expected`. `rv` and
        `remote` name the download that prompted the write. */
    method SetIfCurrent(c: ClientId, k: Key, expected: Option<Bytes>, x: Bytes, rv: nat, remote: Bytes)
      returns (st: Status, replaced: bool)
      requires Valid() && c in g.clients
      requires honest ==> MayWrite(ViewOf(g, c, k).(value := expected), expected, x, rv, remote)
      modifies this`g, this`states, this`steps, this`faults
      ensures faults == Blamed(old(faults), st)
      ensures Valid() && Session(c, {k}, calm, old(steps), steps) && c in g.clients
      ensures LedgerOf(g, c) == old(LedgerOf(g, c))
      ensures st.Ok? ==> replaced == (old(SlotOf(g, c, k).value) == expected)
      ensures st.Ok? && replaced ==>
          Drift(Act(old(ViewOf(g, c, k)), WriteValue(expected, x, rv, remote)), ViewOf(g, c, k), true)
      ensures st.Ok? && !replaced ==> Drift(old(ViewOf(g, c, k)), ViewOf(g, c, k), true)
      ensures st.Failed? ==> st.error.Unavailable?
      ensures calm ==> st.Ok?
      ensures calm && replaced ==> ViewOf(g, c, k) == Act(old(ViewOf(g, c, k)), WriteValue(expected, x, rv, remote))
    {
      replaced := false;
      st := StoreFault();
      if st.Failed? {
        return;
      }
      if SlotOf(g, c, k).value != expected {
        Yield(c, Some(k));
        return;
      }
      TakeOnItem(c, k, WriteValue(expected, x, rv, remote), true);
      replaced := true;
      st := StoreFault();
    }

    /** The collection's merge function was called and answered. */
    method NoteMerge(c: ClientId, k: Key, base: Option<Bytes>, local: Bytes, rv: nat, remote: Bytes,
            outcome: MergeOutcome) returns (st: Status)
      requires Valid() && c in g.clients
      requires honest ==> Enables(g, OnItem(c, k, RunMerge(base, local, rv, remote, outcome)))
      modifies this`g, this`states, this`steps, this`faults
      ensures faults == Blamed(old(faults), st) && st == if outcome.Broken? then Failed(MergeFailed) else Ok
      ensures Valid() && Session(c, {k}, calm, old(steps), steps) && c in g.clients
      ensures LedgerOf(g, c) == old(LedgerOf(g, c))
      ensures Drift(Act(old(ViewOf(g, c, k)), RunMerge(base, local, rv, remote, outcome)), ViewOf(g, c, k), true)
      ensures calm ==> ViewOf(g, c, k) == Act(old(ViewOf(g, c, k)), RunMerge(base, local, rv, remote, outcome))
    {
      TakeOnItem(c, k, RunMerge(base, local, rv, remote, outcome), true);
      st := if outcome.Broken? then Failed(MergeFailed) else Ok;
      faults := Blamed(faults, st);
    }

    // ---- the server ----------------------------------------------------------------------------

    /** What a dishonest server answers. */
    method Forge() returns (version: nat, value: Bytes, accepted: bool, versions: map<Key, nat>)
    {
      version, value, accepted, versions := 0, [], false, map[];
    }

    /** GET of one item, its authenticated data checked and its payload decrypted. An honest server
        returns the newest version; from a dishonest one anything that passes those checks may come. */
    method GetItem(c: ClientId, k: Key, locked: bool) returns (st: Status, version: nat, value: Bytes)
      requires Valid() && c in g.clients
      modifies this`g, this`states, this`steps, this`calls, this`faults
      ensures faults == Blamed(old(faults), st)
      ensures calls == old(calls) + [GetSent(k, ReplyOf(st, Fetched(version, value)))]
      ensures Valid() && Session(c, {k}, calm, old(steps), steps) && c in g.clients
      ensures LedgerOf(g, c) == old(LedgerOf(g, c))
      ensures st.Ok? ==> Drift(Act(old(ViewOf(g, c, k)), Open(version, value)), ViewOf(g, c, k), locked)
      ensures st.Failed? ==> Drift(old(ViewOf(g, c, k)), ViewOf(g, c, k), locked)
      ensures st.Ok? && honest ==> version == |old(HistOf(g, k))| && IsVersion(old(HistOf(g, k)), version, value)
      ensures st.Failed? ==> st.error.Unauthorized? || st.error.Unavailable?
      ensures calm && honest && |old(HistOf(g, k))| > 0 ==> st.Ok?
      ensures calm && st.Ok? ==> ViewOf(g, c, k) == Act(old(ViewOf(g, c, k)), Open(version, value))
    {
      version, value := 0, [];
      st := Fault();
      if st.Failed? {
        calls := calls + [GetSent(k, NoAnswer(st.error))];
        return;
      }
      if !honest {
        var accepted, versions;
        version, value, accepted, versions := Forge();
      } else if |HistOf(g, k)| == 0 {
        st := Failed(Unavailable);
        calls, faults := calls + [GetSent(k, NoAnswer(st.error))], faults + [st.error];
        return;
      } else {
        version := |HistOf(g, k)|;
        value := HistOf(g, k)[version - 1];
      }
      TakeOnItem(c, k, Open(version, value), locked);
      calls := calls + [GetSent(k, Answer(Fetched(version, value)))];
    }

    /** PUT of one item guarded by If-Match (none when `ifMatch` is 0). The answer may get lost. */
    method PutItem(c: ClientId, k: Key, ifMatch: nat, x: Bytes) returns (out: PutOutcome)
      requires Valid() && c in g.clients && ifMatch == RecordOf(g, c, k).version
      requires honest ==> Enables(g, OnItem(c, k, Put(x)))
      modifies this`g, this`states, this`steps, this`calls, this`faults
      ensures faults == if out.Lost? then old(faults) + [out.error] else old(faults)
      ensures calls == old(calls) + [PutSent(k, ifMatch, x, out)]
      ensures Valid() && Session(c, {k}, calm, old(steps), steps) && c in g.clients
      ensures LedgerOf(g, c) == old(LedgerOf(g, c))
      ensures out.Accepted? ==> out.version == ifMatch + 1
      ensures out.Lost? ==> out.error.Unauthorized? || out.error.Unavailable?
      ensures honest && !out.Lost? ==> out.Accepted? == (|old(HistOf(g, k))| == ifMatch)
      ensures honest && !out.Lost? ==> Drift(Act(old(ViewOf(g, c, k)), Put(x)), ViewOf(g, c, k), true)
      ensures honest && out.Accepted? ==> SeenOf(g, c, k) < out.version
      ensures SlotOf(g, c, k).meta == old(SlotOf(g, c, k).meta) && old(SlotOf(g, c, k).log) <= SlotOf(g, c, k).log
      ensures old(SlotOf(g, c, k).value).Some? ==> SlotOf(g, c, k).value.Some?
      ensures calm && honest ==> !out.Lost? && ViewOf(g, c, k) == Act(old(ViewOf(g, c, k)), Put(x))
    {
      var st := Fault();
      if st.Failed? {
        out := Lost(st.error);
        calls := calls + [PutSent(k, ifMatch, x, out)];
        return;
      }
      var accepted := |HistOf(g, k)| == ifMatch;
      if honest {
        Known(c, k);
        TakeOnItem(c, k, Put(x), true);
      } else {
        var version, value, versions;
        version, value, accepted, versions := Forge();
        Yield(c, Some(k));
      }
      st := Fault();
      out := if st.Failed? then Lost(st.error) else if accepted then Accepted(ifMatch + 1) else Refused;
      calls := calls + [PutSent(k, ifMatch, x, out)];
    }

    /** `Store.SaveNamespace` after an acknowledged upload. */
    method SaveBumpedHead(c: ClientId, k: Key, cp: Checkpoint) returns (st: Status)
      requires Valid() && c in g.clients && cp.scope == LedgerOf(g, c).0.scope && cp.head == LedgerOf(g, c).0.head + 1
      requires honest ==> SeenOf(g, c, k) < RecordOf(g, c, k).version
      modifies this`g, this`states, this`steps, this`faults
      ensures faults == Blamed(old(faults), st)
      ensures Valid() && Session(c, {k}, calm, old(steps), steps) && c in g.clients
      ensures LedgerOf(g, c).2 == old(LedgerOf(g, c)).2
      ensures st.Ok? ==> LedgerOf(g, c).0 == cp
      ensures Drift(old(ViewOf(g, c, k)), ViewOf(g, c, k), true)
      ensures st.Failed? ==> st.error.Unavailable?
      ensures calm ==> st.Ok? && ViewOf(g, c, k) == old(ViewOf(g, c, k))
    {
      st := StoreFault();
      if st.Failed? {
        Yield(c, Some(k));
        return;
      }
      CheckpointStepFrame(g, BumpHead(c, k));
      Take(BumpHead(c, k));
      Yield(c, Some(k));
      st := StoreFault();
    }

    // ---- whole namespaces ----------------------------------------------------------------------

    /** `ValueBackend.Keys` of one collection; the application may answer differently every time. */
    method Keys(c: ClientId, collection: string) returns (st: Status, names: seq<string>)
      modifies this`faults
      ensures faults == Blamed(old(faults), st)
      ensures st.Failed? ==> st.error.Unavailable?
      ensures calm ==> st.Ok?
      ensures fixedScope.Some? ==> forall n :: n in names <==> Key(collection, n) in fixedScope.value.items
    {
      names := [];
      st := StoreFault();
      if fixedScope.Some? {
        var todo := set k | k in fixedScope.value.items && k.collection == collection;
        while todo != {}
          invariant todo <= fixedScope.value.items
          invariant forall k :: k in todo ==> k.collection == collection
          invariant forall n :: n in names || Key(collection, n) in todo <==>
              Key(collection, n) in fixedScope.value.items
        {
          var k :| k in todo;
          todo := todo - {k};
          names := names + [k.name];
        }
      }
    }

    /** `ValueBackend.Snapshot` of one collection, taken at one moment. */
    method Snapshot(c: ClientId, collection: string) returns (st: Status, values: map<Key, Bytes>)
      requires Valid() && c in g.clients
      modifies this`g, this`states, this`steps, this`faults, this`shots
      ensures shots == if st.Ok? then old(shots) + [Shot(collection, values)] else old(shots)
      ensures faults == Blamed(old(faults), st)
      ensures Valid() && Session(c, {}, calm, old(steps), steps) && c in g.clients
      ensures LedgerOf(g, c) == old(LedgerOf(g, c))
      ensures forall k :: k in values <==> k.collection == collection && old(SlotOf(g, c, k).value).Some?
      ensures forall k :: k in values ==> Some(values[k]) == old(SlotOf(g, c, k).value) && SlotOf(g, c, k).value.Some?
      ensures st.Failed? ==> st.error.Unavailable?
      ensures calm ==> st.Ok? && g == old(g)
    {
      var slots := g.clients[c].slots;
      values := map k | k in slots && k.collection == collection && slots[k].value.Some? :: slots[k].value.value;
      Yield(c, None);
      forall k | k in values ensures SlotOf(g, c, k).value.Some? {
        assert Drift(old(ViewOf(g, c, k)), ViewOf(g, c, k), false);
      }
      st := StoreFault();
      if st.Ok? {
        shots := shots + [Shot(collection, values)];
      }
    }

    /** `Store.ListNamespaceItems`. */
    method ListItems(c: ClientId) returns (st: Status, items: map<Key, Meta>)
      requires Valid() && c in g.clients
      modifies this`g, this`states, this`steps, this`calls, this`faults
      ensures faults == Blamed(old(faults), st)
      ensures calls == old(calls) + [ItemsListed(st)]
      ensures Valid() && Session(c, {}, calm, old(steps), steps) && c in g.clients
      ensures LedgerOf(g, c) == old(LedgerOf(g, c))
      ensures forall k :: k in items <==> old(SlotOf(g, c, k).meta.Some?)
      ensures forall k :: k in items ==> items[k] == old(RecordOf(g, c, k))
      ensures st.Failed? ==> st.error.Unavailable?
      ensures calm ==> st.Ok? && g == old(g)
    {
      var slots := g.clients[c].slots;
      items := map k | k in slots && slots[k].meta.Some? :: slots[k].meta.value;
      Yield(c, None);
      st := StoreFault();
      calls := calls + [ItemsListed(st)];
    }

    /** `Store.ListDirtyItems`. */
    method ListDirty(c: ClientId) returns (st: Status, items: set<Key>)
      requires Valid() && c in g.clients
      modifies this`g, this`states, this`steps, this`faults
      ensures faults == Blamed(old(faults), st)
      ensures Valid() && Session(c, {}, calm, old(steps), steps) && c in g.clients
      ensures LedgerOf(g, c) == old(LedgerOf(g, c))
      ensures forall k :: k in items <==> old(RecordOf(g, c, k).dirty)
      ensures st.Failed? ==> st.error.Unavailable?
      ensures calm ==> st.Ok? && g == old(g)
    {
      var slots := g.clients[c].slots;
      items := set k | k in slots && slots[k].meta.Some? && slots[k].meta.value.dirty;
      Yield(c, None);
      st := StoreFault();
    }

    /** `ListNamespaces`: the head of the namespace. */
    method GetNamespaceHead(c: ClientId) returns (st: Status, head: nat)
      requires Valid() && c in g.clients
      modifies this`g, this`states, this`steps, this`calls, this`faults
      ensures faults == Blamed(old(faults), st)
      ensures calls == old(calls) + [HeadRead(ReplyOf(st, head))]
      ensures Valid() && Session(c, {}, calm, old(steps), steps) && c in g.clients
      ensures LedgerOf(g, c) == old(LedgerOf(g, c))
      ensures honest && st.Ok? ==> head == old(g).head <= g.head
      ensures st.Failed? ==> st.error.Unauthorized? || st.error.Unavailable?
      ensures calm ==> st.Ok? && g == old(g)
    {
      var version, value, accepted, versions := Forge();
      head := if honest then g.head else version;
      Yield(c, None);
      st := Fault();
      calls := calls + [HeadRead(ReplyOf(st, head))];
    }

    /** `GetNamespaceItems`: the item versions and the head, read at one moment. */
    method GetNamespaceItems(c: ClientId) returns (st: Status, versions: map<Key, nat>, head: nat)
      requires Valid() && c in g.clients
      modifies this`g, this`states, this`steps, this`calls, this`faults
      ensures faults == Blamed(old(faults), st)
      ensures calls == old(calls) + [MapRead(ReplyOf(st, ItemMap(versions, head)))]
      ensures Valid() && Session(c, {}, calm, old(steps), steps) && c in g.clients
      ensures LedgerOf(g, c).0 == old(LedgerOf(g, c)).0 && LedgerOf(g, c).1 == old(LedgerOf(g, c)).1
      ensures honest && st.Ok? ==>
          versions == VersionsOf(old(g).hist) && head == old(g).head == Total(versions)
              && Below(LedgerOf(g, c).1, versions)
      ensures st.Failed? ==> st.error.Unauthorized? || st.error.Unavailable?
      ensures calm ==> st.Ok? && LedgerOf(g, c).2 == old(LedgerOf(g, c)).2 + 1
      ensures calm ==> g.hist == old(g.hist) && g.head == old(g.head)
    {
      var version, value, accepted;
      version, value, accepted, versions := Forge();
      head := version;
      if honest {
        forall k ensures SeenIn(LedgerOf(g, c).1, k) <= |HistOf(g, k)| && g.head == Total(VersionsOf(g.hist)) {
          Known(c, k);
        }
        Known(c, Key("", ""));
        versions, head := VersionsOf(g.hist), g.head;
      }
      CheckpointStepFrame(g, ReadMap(c));
      Take(ReadMap(c));
      Yield(c, None);
      st := Fault();
      calls := calls + [MapRead(ReplyOf(st, ItemMap(versions, head)))];
    }

    /** `Store.SaveNamespace` after the item map was reconciled. */
    method SaveReconciled(c: ClientId, versions: map<Key, nat>, cp: Checkpoint) returns (st: Status)
      requires Valid() && c in g.clients && LedgerOf(g, c).0.head <= cp.head
      requires honest ==> Enables(g, SaveCheckpoint(c, versions, cp.head, cp.scope))
      modifies this`g, this`states, this`steps, this`faults
      ensures faults == Blamed(old(faults), st)
      ensures Valid() && Session(c, {}, calm, old(steps), steps) && c in g.clients
      ensures st.Ok? ==> LedgerOf(g, c).0 == cp && LedgerOf(g, c).1 == versions
      ensures LedgerOf(g, c).2 == old(LedgerOf(g, c)).2 && old(g.head) <= g.head
      ensures st.Failed? ==> st.error.Unavailable?
      ensures calm ==> st.Ok? && g.hist == old(g.hist) && g.head == old(g.head)
    {
      st := StoreFault();
      if st.Failed? {
        return;
      }
      CheckpointStepFrame(g, SaveCheckpoint(c, versions, cp.head, cp.scope));
      Take(SaveCheckpoint(c, versions, cp.head, cp.scope));
      Yield(c, None);
      st := StoreFault();
    }

    /** `Store.SaveNamespace` when there was nothing to reconcile. */
    method SaveUnchanged(c: ClientId, cp: Checkpoint) returns (st: Status)
      requires Valid() && c in g.clients && cp == LedgerOf(g, c).0
      modifies this`g, this`states, this`steps, this`faults
      ensures faults == Blamed(old(faults), st)
      ensures Valid() && Session(c, {}, calm, old(steps), steps) && c in g.clients
      ensures LedgerOf(g, c) == old(LedgerOf(g, c)) && old(g.head) <= g.head
      ensures st.Failed? ==> st.error.Unavailable?
      ensures calm ==> st.Ok? && g.hist == old(g.hist) && g.head == old(g.head)
    {
      st := StoreFault();
      if st.Failed? {
        return;
      }
      CheckpointStepFrame(g, KeepCheckpoint(c, cp));
      Take(KeepCheckpoint(c, cp));
      Yield(c, None);
      st := StoreFault();
    }
  }
}

/** The engines of several clients, run one after the other. */
module Rounds {
  import opened Prelude
  import opened ItemState
  import opened ItemLog
  import opened Network
  import opened PassSpec
  import opened PassResults
  import opened Convergence
  import opened World
  import opened Engine
  import opened Sync

  function ClientsOf(es: seq<Engine>): (cs: seq<ClientId>)
    ensures |cs| == |es| && forall i :: 0 <= i < |es| ==> cs[i] == es[i].c
  {
    if es == [] then [] else ClientsOf(es[..|es| - 1]) + [es[|es| - 1].c]
  }

  /** The engines share one world and merge as `merges` says for their clients. */
  ghost predicate Joint(w: World, es: seq<Engine>, merges: ClientId -> MergeFn) {
    forall i :: 0 <= i < |es| ==> es[i].w == w && Configured(es[i]) && es[i].merge == merges(es[i].c)
  }

  lemma PassesFurther(gs: seq<Global>, order: seq<ClientId>, s: Scope,
          merges: ClientId -> MergeFn, h: Global, c: ClientId)
    requires Passes(gs, order, s, merges) && CalmPass(gs[|order|], h, c, s, merges(c))
    ensures Passes(gs + [h], order + [c], s, merges)
  {
    var gs', order' := gs + [h], order + [c];
    forall i | 0 <= i < |order'| ensures PassAt(gs', order', s, merges, i) {
      if i < |order| {
        assert PassAt(gs, order, s, merges, i);
      }
    }
  }

  /** The next pass meets no failing merge. */
  lemma CleanFromHere(gs: seq<Global>, order: seq<ClientId>, s: Scope,
          merges: ClientId -> MergeFn, enc: Domain, c: ClientId)
    requires Passes(gs, order, s, merges) && Reachable(gs[0]) && AllTame(gs[0], s, enc) && c in gs[0].clients
    requires forall d :: Resolving(merges(d), enc)
    ensures c in gs[|order|].clients && PassRunsClean(gs[|order|], c, s, merges(c))
  {
    var g := gs[|order|];
    FirstRound(gs, order, s, merges, enc, |order|);
    PassesReach(gs, order, s, merges, |order|);
    forall k | Active(s, k) ensures !PassBreaks(ViewOf(g, c, k), k, merges(c), Fetches(g, c, s)) {
      FetchedOrCurrent(g, c, s, k);
      assert Tame(ViewOf(g, c, k), k, enc) && Resolving(merges(c), enc);
      PassDoesNotBreak(ViewOf(g, c, k), k, merges(c), enc, Fetches(g, c, s));
    }
  }

  /** Undisturbed passes of these engines in turn, where no item is in conflict and every value can be
      uploaded. If they are two rounds over all clients, then afterwards all backends, bases and the
      server agree, and the second round, from engine `n` on, uploaded nothing. */
  method SyncInTurn(w: World, es: seq<Engine>, s: Scope,
          ghost merges: ClientId -> MergeFn, ghost enc: Domain, ghost n: nat) returns (ghost gs: seq<Global>)
    requires w.Valid() && w.honest && w.calm && w.fixedScope == Some(s) && Joint(w, es, merges) && n <= |es|
    requires (forall c :: Resolving(merges(c), enc)) && AllTame(w.g, s, enc)
    requires forall i :: 0 <= i < |es| ==> es[i].c in w.g.clients
    modifies w`g, w`states, w`steps, w`faults, w`calls, w`shots
    ensures w.Valid() && Passes(gs, ClientsOf(es), s, merges) && gs[0] == old(w.g) && gs[|es|] == w.g
    ensures Round(old(w.g), ClientsOf(es)[..n]) && Round(old(w.g), ClientsOf(es)[n..]) ==>
      && (forall c, k :: c in w.g.clients && Active(s, k) ==> Synced(ViewOf(w.g, c, k)))
      && SameUploads(gs[n], w.g, s)
  {
    gs := [w.g];
    w.PastHere();
    ghost var s0 := w.steps;
    PastIsReachable(w.start, s0, w.g, s0, w.g);
    var i := 0;
    while i < |es|
      invariant 0 <= i <= |es| && w.Valid() && |gs| == i + 1 && w.g.clients.Keys == gs[0].clients.Keys
      invariant Passes(gs, ClientsOf(es[..i]), s, merges) && gs[0] == old(w.g) && gs[i] == w.g
    {
      assert Joint(w, es, merges);
      CleanFromHere(gs, ClientsOf(es[..i]), s, merges, enc, es[i].c);
      var st, touched, calls, faults, shots := SyncNow(es[i]);
      PassesFurther(gs, ClientsOf(es[..i]), s, merges, w.g, es[i].c);
      assert ClientsOf(es[..i + 1]) == ClientsOf(es[..i]) + [es[i].c];
      gs := gs + [w.g];
      i := i + 1;
    }
    assert es[..i] == es;
    if Round(gs[0], ClientsOf(es)[..n]) && Round(gs[0], ClientsOf(es)[n..]) {
      TwoRoundsConverge(gs, ClientsOf(es), n, s, merges, enc);
    }
  }
}

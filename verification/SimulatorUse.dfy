/** What the two-tier simulator learns from requests and what its prefetches bring in. */
module SimulatorUse {
  import opened Sequences
  import opened TieredSimulator
  import L = LruPolicy

  // ------------------------------------------------ learning

  ghost function LearnedFrom(before: map<int, int>, ids: seq<int>): map<int, int> {
    if |ids| < 2 then before
    else LearnedFrom(before, ids[..|ids| - 1])[ids[|ids| - 2] := ids[|ids| - 1]]
  }

  /** Visiting a request learns its neighbours, the latest successor of a key winning, and nothing else. */
  lemma {:induction false} WalkLearns(s: Sim, ids: seq<int>)
    requires SimOk(s)
    ensures Walk(s, ids).sim.successor == LearnedFrom(s.successor, ids)
  {
    if ids != [] {
      var last := |ids| - 1;
      WalkLearns(s, ids[..last]);
      WalkLoses(s, ids[..last]);
      VisitFacts(Walk(s, ids[..last]).sim, ids[last]);
    }
  }

  /** After a request without repetitions every key of it leads to the next, and the edges from other keys are as
      they were. */
  lemma {:induction false} LearnedEdges(before: map<int, int>, ids: seq<int>)
    requires NoDup(ids)
    ensures var after := LearnedFrom(before, ids);
            (forall i :: 0 <= i < |ids| - 1 ==> ids[i] in after && after[ids[i]] == ids[i + 1]) &&
            forall k :: k !in ids ==> (k in after <==> k in before) && (k in before ==> after[k] == before[k])
  {
    if |ids| >= 2 {
      var last := |ids| - 1;
      LearnedEdges(before, ids[..last]);
      assert forall i :: 0 <= i < last ==> ids[..last][i] == ids[i];
    }
  }

  // ------------------------------------------------ promotion

  lemma AdmitKeeps(p: Policy, k: int)
    requires PolicyOk(p) && Pooled(p)
    ensures k in KeysOf(Admit(p, k).policy)
  {
    match p
    case Lru(capacity, store) =>
      var after := L.Admit(store, capacity, k);
      assert after[|after| - 1] == k;
    case Sieve(sieve) =>
      var stored := Admit(p, k).policy.sieve.store;
      assert k !in Ids(sieve.store) ==> Ids(stored)[|stored| - 1] == k;
  }

  /** A key that is brought in leaves the slow tier, and is in a fast tier that is one pool. */
  lemma BringPlaces(s: Sim, k: int)
    requires SimOk(s) && k !in KeysOf(s.fast) && Pooled(s.fast)
    ensures var r := Bring(s, k);
            k in KeysOf(r.fast) && k !in KeysOf(r.slow)
  {
    AdmitKeeps(s.fast, k);
    BringFacts(s, k);
  }

  /** The keys that a chain looks at. */
  ghost function ChainKeys(successor: map<int, int>, cursor: int, budget: nat): seq<int>
    decreases budget
  {
    if budget == 0 || cursor !in successor then []
    else [successor[cursor]] + ChainKeys(successor, successor[cursor], budget - 1)
  }

  /** A chain promotes something exactly when one of the keys on it is in the slow tier; otherwise it changes
      nothing. */
  lemma {:induction false} ChainPromotes(s: Sim, cursor: int, budget: nat)
    ensures var r := PrefetchChain(s, cursor, budget);
            (r.promoted > 0 <==> exists k :: k in ChainKeys(s.successor, cursor, budget) && k in KeysOf(s.slow)) &&
            (r.promoted == 0 ==> r == Prefetched(s, 0, true))
    decreases budget
  {
    if budget > 0 && cursor in s.successor {
      var next := s.successor[cursor];
      var keys := ChainKeys(s.successor, cursor, budget);
      assert keys[0] == next && next in keys;
      if next !in KeysOf(s.slow) {
        ChainPromotes(s, next, budget - 1);
        assert forall k :: k in keys <==> k == next || k in ChainKeys(s.successor, next, budget - 1);
      }
    }
  }
}

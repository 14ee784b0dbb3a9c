/** Exactly which slow tiers never lose a block to prefetching, and the runs of requests after which
    a prefetch into any S3-FIFO slow tier does. */
module SimulatorLimits {
  import opened Sequences
  import opened TieredSimulator
  import S = S3FifoPolicy

  // ------------------------------------------------ one admission

  /** A block that fills the fast tier gives way to another. */
  lemma FastGivesWay(s: Sim, v: int, k: int)
    requires s.fast == Lru(1, [v]) && v != k && k !in KeysOf(s.slow)
    ensures KindOf(s, k) == Miss && Visit(s, k) == s.(fast := Lru(1, [k]), slow := Admit(s.slow, v).policy)
  {
    WithoutAbsent([v], k);
    assert ToEnd([v], k) == [v, k];
    assert Admit(s.fast, k) == Admission(Lru(1, [k]), [v]);
    DemoteOne(s.slow, [v]);
  }

  /** The block it displaces enters the small queue ... */
  lemma SmallAppends(p: S.S3, v: int)
    requires !S.Contains(p, v) && v !in p.ghosts && |p.small| < p.smallCap
    ensures Admit(S3Fifo(p), v).policy == S3Fifo(p.(small := p.small + [(v, 0)]))
  {
  }

  /** ... where it makes a ghost of the oldest, if the queue is full. */
  lemma SmallShifts(p: S.S3, v: int)
    requires !S.Contains(p, v) && v !in p.ghosts && |p.small| == p.smallCap > 0
    requires p.small[0].1 == 0 && p.small[0].0 !in p.ghosts && |p.ghosts| < p.ghostCap
    ensures Admit(S3Fifo(p), v).policy ==
            S3Fifo(p.(small := p.small[1..] + [(v, 0)], ghosts := p.ghosts + [p.small[0].0]))
  {
    var q := p.(small := p.small + [(v, 0)]);
    S.DrainSmallOnce(q);
    assert q.small[1..] == p.small[1..] + [(v, 0)];
  }

  /** A ghost that is displaced enters the main queue. */
  lemma GhostEnters(p: S.S3, v: int)
    requires !S.Contains(p, v) && v in p.ghosts && |p.main| < p.mainCap
    ensures Admit(S3Fifo(p), v).policy == S3Fifo(p.(main := p.main + [(v, 0)], ghosts := Without(p.ghosts, v)))
  {
  }

  // ------------------------------------------------ a scan

  ghost function Up(n: nat): seq<int> {
    seq(n, i => i + 1)
  }

  /** The unused entries of so many keys from `from` on. */
  ghost function Entries(from: int, n: nat): seq<S.Entry> {
    seq(n, i => (from + i, 0))
  }

  lemma EntriesHold(from: int, n: nat, x: int)
    ensures x in Ids(Entries(from, n)) <==> from <= x < from + n
  {
    var ids := Ids(Entries(from, n));
    if from <= x < from + n {
      assert ids[x - from] == x;
    }
  }

  /** An S3-FIFO tier that holds only unused keys in its small queue, and ghosts. */
  ghost predicate Queue(p: Policy, capacity: nat, from: int, n: nat, ghosts: seq<int>)
    requires capacity > 0
  {
    p == S3Fifo(S.Make(capacity).(small := Entries(from, n), ghosts := ghosts))
  }

  lemma QueueHolds(p: Policy, capacity: nat, from: int, n: nat, ghosts: seq<int>, x: int)
    requires capacity > 0 && Queue(p, capacity, from, n, ghosts)
    ensures x in KeysOf(p) <==> from <= x < from + n
    ensures S.Contains(p.s3, x) <==> from <= x < from + n
  {
    EntriesHold(from, n, x);
    var none: seq<S.Entry> := [];
    assert Ids(none) == [];
  }

  ghost function SmallCap(capacity: nat): nat
    requires capacity > 0
  {
    S.Make(capacity).smallCap
  }

  lemma CapsFit(capacity: nat)
    requires capacity > 0
    ensures 0 < SmallCap(capacity) <= capacity && S.Make(capacity).ghostCap == 2 * capacity
    ensures S.Make(capacity).mainCap == capacity - SmallCap(capacity)
    ensures capacity >= 2 ==> SmallCap(capacity) < capacity
  {
  }

  ghost function Start(capacity: nat): Sim
    requires capacity > 0
  {
    Sim(Lru(1, []), S3Fifo(S.Make(capacity)), map[], 1)
  }

  /** The tiers after a scan of the keys from one to `n`, as long as the small queue can hold them. */
  ghost predicate Scanned(s: Sim, capacity: nat, n: nat)
    requires capacity > 0
  {
    n > 0 && s.fast == Lru(1, [n]) && Queue(s.slow, capacity, 1, n - 1, []) && s.depth == 1 &&
    forall i :: 1 <= i < n ==> i in s.successor && s.successor[i] == i + 1
  }

  lemma WalkStep(s: Sim, ids: seq<int>, k: int)
    requires ids != []
    ensures var w := Walk(s, ids).sim;
            var r := Visit(w, k);
            Walk(s, ids + [k]).sim == r.(successor := r.successor[ids[|ids| - 1] := k])
  {
    assert (ids + [k])[..|ids|] == ids;
  }

  lemma WalkOne(s: Sim, k: int)
    ensures Walk(s, [k]).sim == Visit(s, k)
  {
    assert [k][..0] == [];
    assert Walk(s, []) == Walked(s, []);
  }

  lemma FirstVisit(capacity: nat)
    requires capacity > 0
    ensures Visit(Start(capacity), 1) == Start(capacity).(fast := Lru(1, [1]))
  {
    var s := Start(capacity);
    assert Entries(1, 0) == [];
    QueueHolds(s.slow, capacity, 1, 0, [], 1);
    WithoutAbsent(s.fast.store, 1);
    assert ToEnd(s.fast.store, 1) == [1];
    assert Admit(s.fast, 1) == Admission(Lru(1, [1]), []);
  }

  lemma {:induction false} ScanRuns(capacity: nat, n: nat)
    requires capacity > 0 && 0 < n <= SmallCap(capacity) + 1
    ensures Scanned(Walk(Start(capacity), Up(n)).sim, capacity, n)
  {
    if n == 1 {
      assert Up(1) == [1] && Entries(1, 0) == [];
      WalkOne(Start(capacity), 1);
      FirstVisit(capacity);
    } else {
      ScanRuns(capacity, n - 1);
      assert Up(n) == Up(n - 1) + [n] && Up(n - 1)[n - 2] == n - 1;
      WalkStep(Start(capacity), Up(n - 1), n);
      ScanStep(Walk(Start(capacity), Up(n - 1)).sim, capacity, n);
    }
  }

  lemma ScanStep(s: Sim, capacity: nat, n: nat)
    requires capacity > 0 && 1 < n <= SmallCap(capacity) + 1 && Scanned(s, capacity, n - 1)
    ensures Scanned(Visit(s, n).(successor := s.successor[n - 1 := n]), capacity, n)
    ensures Visit(s, n).successor == s.successor
  {
    QueueHolds(s.slow, capacity, 1, n - 2, [], n);
    QueueHolds(s.slow, capacity, 1, n - 2, [], n - 1);
    FastGivesWay(s, n - 1, n);
    SmallAppends(s.slow.s3, n - 1);
    assert Entries(1, n - 2) + [(n - 1, 0)] == Entries(1, n - 1);
  }

  // ------------------------------------------------ the first request

  /** A scan of two keys more than the small queue can hold, and then its first key again. */
  ghost function Loop(capacity: nat): seq<int>
    requires capacity > 0
  {
    Up(SmallCap(capacity) + 1) + [SmallCap(capacity) + 2] + [1]
  }

  /** The first two keys are ghosts, the first is also in the fast tier, the others are in the small
      queue; every key leads to the next and the last to the first. */
  ghost predicate Looped(s: Sim, capacity: nat)
    requires capacity > 0
  {
    var q := SmallCap(capacity);
    s.fast == Lru(1, [1]) && Queue(s.slow, capacity, 3, q, [1, 2]) && s.depth == 1 &&
    (forall i :: 1 <= i < q + 2 ==> i in s.successor && s.successor[i] == i + 1) &&
    q + 2 in s.successor && s.successor[q + 2] == 1
  }

  lemma OverflowVisit(s: Sim, capacity: nat, r: Sim)
    requires capacity > 0 && Scanned(s, capacity, SmallCap(capacity) + 1)
    requires r == s.(fast := Lru(1, [SmallCap(capacity) + 2]),
                     slow := S3Fifo(S.Make(capacity).(small := Entries(2, SmallCap(capacity)), ghosts := [1])))
    ensures Visit(s, SmallCap(capacity) + 2) == r
  {
    var q := SmallCap(capacity);
    QueueHolds(s.slow, capacity, 1, q, [], q + 2);
    QueueHolds(s.slow, capacity, 1, q, [], q + 1);
    FastGivesWay(s, q + 1, q + 2);
    SmallShifts(s.slow.s3, q + 1);
    assert Entries(1, q)[1..] + [(q + 1, 0)] == Entries(2, q);
    assert [] + [1] == [1];
  }

  lemma ReturnVisit(s: Sim, capacity: nat, r: Sim)
    requires capacity > 0 && s.fast == Lru(1, [SmallCap(capacity) + 2])
    requires Queue(s.slow, capacity, 2, SmallCap(capacity), [1])
    requires r == s.(fast := Lru(1, [1]),
                     slow := S3Fifo(S.Make(capacity).(small := Entries(3, SmallCap(capacity)), ghosts := [1, 2])))
    ensures Visit(s, 1) == r
  {
    var q := SmallCap(capacity);
    QueueHolds(s.slow, capacity, 2, q, [1], 1);
    QueueHolds(s.slow, capacity, 2, q, [1], q + 2);
    FastGivesWay(s, q + 2, 1);
    SmallShifts(s.slow.s3, q + 2);
    assert Entries(2, q)[1..] + [(q + 2, 0)] == Entries(3, q);
    assert [1] + [2] == [1, 2];
  }

  /** The two visits that follow the scan. */
  lemma LoopEnds(s: Sim, capacity: nat)
    requires capacity > 0 && Scanned(s, capacity, SmallCap(capacity) + 1)
    ensures var q := SmallCap(capacity);
            var r := Visit(s, q + 2);
            var t := Visit(r.(successor := r.successor[q + 1 := q + 2]), 1);
            Looped(t.(successor := t.successor[q + 2 := 1]), capacity)
  {
    var q := SmallCap(capacity);
    var r := s.(fast := Lru(1, [q + 2]), slow := S3Fifo(S.Make(capacity).(small := Entries(2, q), ghosts := [1])));
    OverflowVisit(s, capacity, r);
    var r' := r.(successor := r.successor[q + 1 := q + 2]);
    ReturnVisit(r', capacity, r'.(fast := Lru(1, [1]),
                                  slow := S3Fifo(S.Make(capacity).(small := Entries(3, q), ghosts := [1, 2]))));
  }

  lemma LoopRuns(capacity: nat)
    requires capacity > 0
    ensures Looped(Walk(Start(capacity), Loop(capacity)).sim, capacity)
  {
    var q := SmallCap(capacity);
    ScanRuns(capacity, q + 1);
    assert Up(q + 1)[q] == q + 1;
    WalkStep(Start(capacity), Up(q + 1), q + 2);
    WalkStep(Start(capacity), Up(q + 1) + [q + 2], 1);
    LoopEnds(Walk(Start(capacity), Up(q + 1)).sim, capacity);
  }

  /** A request none of whose blocks is resident prefetches nothing. */
  lemma {:induction false} NoAnchors(s: Sim, anchors: seq<int>, budget: nat)
    requires forall i :: 0 <= i < |anchors| ==> anchors[i] !in Resident(s)
    ensures PrefetchAnchors(s, anchors, budget).sim == s
  {
    if anchors != [] {
      NoAnchors(s, anchors[..|anchors| - 1], budget);
    }
  }

  lemma StartEmpty(capacity: nat)
    requires capacity > 0
    ensures SimOk(Start(capacity)) && Resident(Start(capacity)) == {}
  {
    var s := Start(capacity);
    S.AccessAllOk(capacity, []);
    assert Entries(1, 0) == [];
    forall x ensures x !in Resident(s) {
      QueueHolds(s.slow, capacity, 1, 0, [], x);
    }
  }

  lemma FirstRequest(capacity: nat)
    requires capacity > 0
    ensures Looped(Request(Start(capacity), Loop(capacity)).sim, capacity)
  {
    StartEmpty(capacity);
    NoAnchors(Start(capacity), Loop(capacity), |Loop(capacity)| + 1);
    LoopRuns(capacity);
  }

  // ------------------------------------------------ the lossy prefetch

  /** A chain that promotes a key whose displaced block finds no room is not absorbed, wherever it leads. */
  lemma StepLoses(s: Sim, cursor: int, budget: nat)
    requires budget > 0 && cursor in s.successor
    requires s.successor[cursor] in KeysOf(s.slow) && !Absorbs(s, s.successor[cursor])
    ensures !PrefetchChain(s, cursor, budget).absorbed
  {
  }

  lemma StepPasses(s: Sim, cursor: int, budget: nat)
    requires budget > 0 && cursor in s.successor && s.successor[cursor] !in KeysOf(s.slow)
    requires !PrefetchChain(s, s.successor[cursor], budget - 1).absorbed
    ensures !PrefetchChain(s, cursor, budget).absorbed
  {
  }

  lemma AnchorLoses(s: Sim, anchor: int)
    requires SimOk(s) && s.depth == 1 && anchor in Resident(s) && !PrefetchChain(s, anchor, 2).absorbed
    ensures Resident(Prefetch(s, [anchor]).sim) != Resident(s)
  {
    assert PrefetchAnchors(s, [], 2) == Prefetched(s, 0, true) && [anchor][..0] == [];
    assert !PrefetchAnchors(s, [anchor], 2).absorbed;
  }

  lemma FastFull(s: Sim, v: int, k: int)
    requires s.fast == Lru(1, [v]) && v != k
    ensures !Room(s.fast, k) && Admit(s.fast, k).evicted == [v]
  {
    WithoutAbsent([v], k);
    assert ToEnd([v], k) == [v, k];
  }

  /** Without a main queue, a ghost that is displaced has nowhere to go. */
  lemma TinyLoses(s: Sim)
    requires SimOk(s) && Looped(s, 1)
    ensures Resident(Prefetch(s, [1]).sim) != Resident(s)
  {
    var p := s.slow.s3;
    QueueHolds(s.slow, 1, 3, 1, [1, 2], 3);
    QueueHolds(s.slow, 1, 3, 1, [1, 2], 2);
    QueueHolds(s.slow, 1, 3, 1, [1, 2], 1);
    FastFull(s, 1, 3);
    assert 1 in Keys([1]);
    TinyFull(p);
    StepLoses(s, 2, 1);
    StepPasses(s, 1, 2);
    AnchorLoses(s, 1);
  }

  lemma TinyFull(p: S.S3)
    requires p == S.Make(1).(small := Entries(3, 1), ghosts := [1, 2])
    ensures !S.Room(S.Remove(p, 3), 1)
  {
    EntriesHold(3, 1, 3);
    DropIds(p.small, 3);
    WithoutKeys(Ids(p.small), 3);
    EntriesHold(3, 1, 1);
    assert S.Remove(p, 3).main == [] && S.Remove(p, 3).ghosts == [1, 2];
    assert 1 !in Keys(Ids(S.Remove(p, 3).small));
    var none: seq<S.Entry> := [];
    assert Ids(none) == [];
  }

  /** After the loop and one more key, the first key is in the main queue and the small queue is full. */
  ghost predicate Cornered(s: Sim, capacity: nat)
    requires capacity > 0
  {
    var q := SmallCap(capacity);
    s.fast == Lru(1, [q + 3]) && s.depth == 1 && q + 2 in s.successor && s.successor[q + 2] == 1 &&
    s.slow == S3Fifo(S.Make(capacity).(small := Entries(3, q), main := [(1, 0)], ghosts := [2]))
  }

  lemma SecondRequest(s: Sim, capacity: nat)
    requires capacity >= 2 && Looped(s, capacity)
    ensures Cornered(Request(s, [SmallCap(capacity) + 3]).sim, capacity)
  {
    var q := SmallCap(capacity);
    CapsFit(capacity);
    QueueHolds(s.slow, capacity, 3, q, [1, 2], q + 3);
    QueueHolds(s.slow, capacity, 3, q, [1, 2], 1);
    assert q + 3 !in Keys([1]);
    NoAnchors(s, [q + 3], 2);
    WalkOne(s, q + 3);
    FastGivesWay(s, 1, q + 3);
    GhostEnters(s.slow.s3, 1);
    WithoutAbsent([2], 1);
    assert [1, 2][1..] == [2];
    assert Without([1, 2], 1) == [2];
    assert S.Make(capacity).main + [(1, 0)] == [(1, 0)];
  }

  /** The block displaced by the promotion of the first key would enter the small queue, which is full:
      the place that the first key leaves in the main queue is of no use to it. */
  lemma CornerFull(capacity: nat, p: S.S3)
    requires capacity > 0
    requires p == S.Make(capacity).(small := Entries(3, SmallCap(capacity)), main := [(1, 0)], ghosts := [2])
    ensures 1 in KeysOf(S3Fifo(p)) && SmallCap(capacity) + 2 in KeysOf(S3Fifo(p))
    ensures !S.Room(S.Remove(p, 1), SmallCap(capacity) + 3)
  {
    var q := SmallCap(capacity);
    EntriesHold(3, q, 1);
    EntriesHold(3, q, q + 2);
    EntriesHold(3, q, q + 3);
    assert Ids(p.main) == [1];
    assert 1 in Keys(Ids(p.main));
    assert p.main[1..] == [];
    assert Drop(p.main[1..], 1) == [];
    assert S.Remove(p, 1) == p.(main := []);
    var none: seq<S.Entry> := [];
    assert Ids(none) == [];
  }

  lemma CornerLoses(s: Sim, capacity: nat)
    requires capacity > 0 && SimOk(s) && Cornered(s, capacity)
    ensures Resident(Prefetch(s, [SmallCap(capacity) + 2]).sim) != Resident(s)
  {
    var q := SmallCap(capacity);
    CornerTight(s, capacity);
    StepLoses(s, q + 2, 2);
    AnchorLoses(s, q + 2);
  }

  lemma CornerTight(s: Sim, capacity: nat)
    requires capacity > 0 && Cornered(s, capacity)
    ensures 1 in KeysOf(s.slow) && SmallCap(capacity) + 2 in Resident(s) && !Absorbs(s, 1)
  {
    CornerFull(capacity, s.slow.s3);
    FastFull(s, SmallCap(capacity) + 3, 1);
  }

  lemma RunPush(s: Sim, requests: seq<seq<int>>, ids: seq<int>)
    ensures RunRequests(s, requests + [ids]) == Request(RunRequests(s, requests), ids).sim
  {
    assert (requests + [ids])[..|requests|] == requests;
  }

  /** With an S3-FIFO slow tier of any capacity, some run of requests ends in a prefetch that loses a block. */
  lemma PrefetchMayLose(capacity: nat) returns (requests: seq<seq<int>>, ids: seq<int>)
    requires capacity > 0
    ensures var s := RunRequests(Start(capacity), requests);
            SimOk(s) && Resident(Prefetch(s, ids).sim) != Resident(s)
  {
    var s0 := Start(capacity);
    StartEmpty(capacity);
    FirstRequest(capacity);
    RunPush(s0, [], Loop(capacity));
    requests := [] + [Loop(capacity)];
    if capacity == 1 {
      ids := [1];
      RunExclusive(s0, requests);
      TinyLoses(RunRequests(s0, requests));
    } else {
      ids := [SmallCap(capacity) + 2];
      SecondRequest(RunRequests(s0, requests), capacity);
      RunPush(s0, requests, [SmallCap(capacity) + 3]);
      requests := requests + [[SmallCap(capacity) + 3]];
      RunExclusive(s0, requests);
      CornerLoses(RunRequests(s0, requests), capacity);
    }
  }

  // ------------------------------------------------ the exact condition

  /** A policy as it is built, holding nothing. */
  ghost predicate New(p: Policy) {
    match p
    case Lru(capacity, store) => capacity > 0 && store == []
    case S3Fifo(s3) => exists capacity: nat :: capacity > 0 && s3 == S.Make(capacity)
    case Sieve(sieve) => sieve.capacity > 0 && sieve.store == [] && sieve.cursor.None?
  }

  /** Whatever the fast tier, the depth and the requests, prefetching never loses a block. */
  ghost predicate PrefetchesKeep(slow: Policy) {
    forall fast, depth, requests, ids :: New(fast) ==> Keeps(Sim(fast, slow, map[], depth), requests, ids)
  }

  ghost predicate Keeps(start: Sim, requests: seq<seq<int>>, ids: seq<int>) {
    var s := RunRequests(start, requests);
    Resident(Prefetch(s, ids).sim) == Resident(s)
  }

  lemma NewEmpty(p: Policy)
    requires New(p)
    ensures PolicyOk(p) && KeysOf(p) == {}
  {
    match p
    case Lru(_, _) =>
    case S3Fifo(s3) =>
      var capacity: nat :| capacity > 0 && s3 == S.Make(capacity);
      StartEmpty(capacity);
      assert KeysOf(p) <= Resident(Start(capacity));
    case Sieve(sieve) => assert Ids(sieve.store) == [];
  }

  /** No prefetch ever loses a block, in any run, if and only if the slow tier is one pool of blocks. */
  lemma PrefetchesKeepExactly(slow: Policy)
    requires New(slow)
    ensures PrefetchesKeep(slow) <==> Pooled(slow)
  {
    if Pooled(slow) {
      forall fast, depth, requests, ids | New(fast) ensures Keeps(Sim(fast, slow, map[], depth), requests, ids) {
        var start := Sim(fast, slow, map[], depth);
        NewEmpty(fast);
        NewEmpty(slow);
        RunExclusive(start, requests);
        PrefetchLossless(RunRequests(start, requests), ids);
      }
    } else {
      var capacity: nat :| capacity > 0 && slow.s3 == S.Make(capacity);
      var requests, ids := PrefetchMayLose(capacity);
      assert New(Lru(1, []));
      assert !Keeps(Sim(Lru(1, []), slow, map[], 1), requests, ids);
    }
  }
}

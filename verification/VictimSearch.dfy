/** Which block the S3-FIFO search of the fastest tier evicts: from which queue, in which order, and
    after how many second chances. */
module VictimSearch {
  import opened Blocks
  import opened Sequences
  import opened Tiers
  import opened Totals
  import opened VictimOrder
  import opened StoreModel
  import opened StoreInvariant

  // ------------------------------------------------ the queue

  /** A victim comes from the small queue if its blocks hold more than a tenth of the capacity or the main
      queue is empty, and from the main queue if they do not or the small queue is empty. */
  lemma {:induction false} S3PickQueue(s: Store, fast: Tier)
    ensures var p := S3Pick(s, fast);
            p.victim.Some? ==>
              p.victim.value in p.store.blocks &&
              if p.store.blocks[p.victim.value].inMain
              then Total(SmallBytes(fast), p.store.blocks) <= CapacityOf(s.cfg, fast) / 10 || p.store.small == []
              else Total(SmallBytes(fast), p.store.blocks) > CapacityOf(s.cfg, fast) / 10 || p.store.main == []
    decreases |s.small|, Total(MainFreq(fast), s.blocks), |s.main|
  {
    if FromSmall(s, fast) {
      if s.small != [] {
        var k := s.small[0];
        if !InSmall(s.blocks, k, fast) {
          S3PickQueue(PopSmall(s), fast);
        } else if s.blocks[k].freq > 0 {
          S3PickQueue(Graduate(PopSmall(s), k), fast);
        } else {
          GhostInsertFrame(PopSmall(s), k);
        }
      }
    } else {
      var k := s.main[0];
      if !InMain(s.blocks, k, fast) {
        S3PickQueue(PopMain(s), fast);
      } else if s.blocks[k].freq > 0 {
        TotalInsert(MainFreq(fast), s.blocks, k, s.blocks[k].(freq := s.blocks[k].freq - 1));
        S3PickQueue(SecondChance(PopMain(s), k), fast);
      }
    }
  }

  // ------------------------------------------------ the small queue


  /** `popped` has been taken from the front of the small queue. An unused block in it is the victim and
      the last of it, a used block in it is in the main queue now, and no other block of the small queue
      has changed. */
  ghost predicate FrontServed(s: Store, p: Picked, fast: Tier, popped: seq<BlockKey>) {
    s.small == popped + p.store.small && p.store.blocks.Keys == s.blocks.Keys &&
    (forall i :: 0 <= i < |popped| && InSmall(s.blocks, popped[i], fast) && s.blocks[popped[i]].freq == 0 ==>
       i == |popped| - 1 && p.victim == Some(popped[i])) &&
    (forall k :: k in popped && InSmall(s.blocks, k, fast) && s.blocks[k].freq > 0 ==> p.store.blocks[k].inMain) &&
    (forall k :: InSmall(s.blocks, k, fast) && k !in popped ==> p.store.blocks[k] == s.blocks[k])
  }

  lemma ServedStale(s: Store, p: Picked, fast: Tier, rest: seq<BlockKey>)
    requires s.small != [] && !InSmall(s.blocks, s.small[0], fast) && FrontServed(PopSmall(s), p, fast, rest)
    ensures FrontServed(s, p, fast, [s.small[0]] + rest)
  {
    assert s.small == [s.small[0]] + s.small[1..];
  }

  lemma ServedGraduate(s: Store, p: Picked, fast: Tier, rest: seq<BlockKey>)
    requires s.small != [] && InSmall(s.blocks, s.small[0], fast) && s.blocks[s.small[0]].freq > 0
    requires FrontServed(Graduate(PopSmall(s), s.small[0]), p, fast, rest) && s.small[0] in p.store.blocks
    requires p.store.blocks[s.small[0]].inMain
    ensures FrontServed(s, p, fast, [s.small[0]] + rest)
  {
    assert s.small == [s.small[0]] + s.small[1..];
  }

  lemma ServedMain(s: Store, t: Store, p: Picked, fast: Tier, popped: seq<BlockKey>)
    requires FrontServed(t, p, fast, popped) && t.small == s.small && t.blocks.Keys == s.blocks.Keys
    requires forall k :: k in s.blocks ==>
               (InSmall(t.blocks, k, fast) <==> InSmall(s.blocks, k, fast)) &&
               (InSmall(s.blocks, k, fast) ==> t.blocks[k] == s.blocks[k])
    ensures FrontServed(s, p, fast, popped)
  {
  }

  /** The small queue is served from the front. */
  lemma {:induction false} S3PickSmallFirst(s: Store, fast: Tier) returns (popped: seq<BlockKey>)
    ensures FrontServed(s, S3Pick(s, fast), fast, popped)
    decreases |s.small|, Total(MainFreq(fast), s.blocks), |s.main|
  {
    var p := S3Pick(s, fast);
    if FromSmall(s, fast) {
      if s.small == [] {
        popped := [];
      } else if !InSmall(s.blocks, s.small[0], fast) {
        popped := S3PickSmallFirst(PopSmall(s), fast);
        ServedStale(s, p, fast, popped);
        popped := [s.small[0]] + popped;
      } else if s.blocks[s.small[0]].freq > 0 {
        popped := S3PickSmallFirst(Graduate(PopSmall(s), s.small[0]), fast);
        S3PickAges(Graduate(PopSmall(s), s.small[0]), fast, s.small[0]);
        ServedGraduate(s, p, fast, popped);
        popped := [s.small[0]] + popped;
      } else {
        GhostInsertFrame(PopSmall(s), s.small[0]);
        popped := [s.small[0]];
      }
    } else {
      var k := s.main[0];
      if !InMain(s.blocks, k, fast) {
        popped := S3PickSmallFirst(PopMain(s), fast);
      } else if s.blocks[k].freq > 0 {
        TotalInsert(MainFreq(fast), s.blocks, k, s.blocks[k].(freq := s.blocks[k].freq - 1));
        popped := S3PickSmallFirst(SecondChance(PopMain(s), k), fast);
        ServedMain(s, SecondChance(PopMain(s), k), p, fast, popped);
      } else {
        popped := [];
      }
    }
  }

  // ------------------------------------------------ the main queue

  /** The small queue is not due. */
  ghost predicate SmallIdle(s: Store, fast: Tier) {
    s.small == [] || Total(SmallBytes(fast), s.blocks) <= CapacityOf(s.cfg, fast) / 10
  }

  /** `k` has had so many uses taken from it, and nothing else has changed about it. */
  ghost predicate Spent(s: Store, p: Store, k: BlockKey, uses: nat) {
    k in s.blocks && k in p.blocks && uses <= s.blocks[k].freq &&
    p.blocks[k] == s.blocks[k].(freq := s.blocks[k].freq - uses)
  }

  /** `v` is the first of the least used blocks of the main queue. */
  ghost predicate LeastUsed(s: Store, fast: Tier, a: seq<BlockKey>, v: BlockKey, b: seq<BlockKey>) {
    s.main == a + [v] + b && NoDup(s.main) && InMain(s.blocks, v, fast) &&
    (forall k :: k in a ==> InMain(s.blocks, k, fast) && s.blocks[k].freq > s.blocks[v].freq) &&
    (forall k :: k in b ==> InMain(s.blocks, k, fast) && s.blocks[k].freq >= s.blocks[v].freq)
  }

  /** `v` has gone. Every round has cost each block one use, so the others have lost as many uses as the
      victim had, and those before it one more; the queue has turned to just behind the victim. */
  ghost predicate Turned(s: Store, p: Picked, a: seq<BlockKey>, v: BlockKey, b: seq<BlockKey>) {
    v in s.blocks && p.victim == Some(v) && p.store.main == b + a && p.store.small == s.small &&
    Spent(s, p.store, v, s.blocks[v].freq) &&
    (forall k :: k in b ==> Spent(s, p.store, k, s.blocks[v].freq)) &&
    (forall k :: k in a ==> Spent(s, p.store, k, s.blocks[v].freq + 1))
  }

  /** Second chances, exactly: the victim is the first of the least used blocks. */
  lemma {:induction false} SecondChances(s: Store, fast: Tier, a: seq<BlockKey>, v: BlockKey, b: seq<BlockKey>)
    requires LeastUsed(s, fast, a, v, b) && SmallIdle(s, fast)
    ensures Turned(s, S3Pick(s, fast), a, v, b)
    decreases Total(MainFreq(fast), s.blocks)
  {
    if a == [] && s.blocks[v].freq == 0 {
      assert s.main[0] == v && s.main[1..] == b == b + a;
    } else {
      var k := if a == [] then v else a[0];
      assert s.main[0] == k && (a != [] ==> a[0] in a);
      var t := SecondChance(PopMain(s), k);
      TotalInsert(MainFreq(fast), s.blocks, k, t.blocks[k]);
      TotalInsert(SmallBytes(fast), s.blocks, k, t.blocks[k]);
      assert S3Pick(s, fast) == S3Pick(t, fast);
      if a == [] {
        RoundEnds(s, t, fast, v, b);
        SecondChances(t, fast, b, v, []);
        TurnEnds(s, t, S3Pick(t, fast), v, b);
      } else {
        RoundGoesOn(s, t, fast, a, v, b);
        SecondChances(t, fast, a[1..], v, b + [k]);
        TurnGoesOn(s, t, S3Pick(t, fast), a, v, b);
      }
    }
  }

  lemma TurnEnds(s: Store, t: Store, p: Picked, v: BlockKey, b: seq<BlockKey>)
    requires s.main != [] && v in s.blocks && s.blocks[v].freq > 0 && t == SecondChance(PopMain(s), v) && v !in b
    requires Turned(t, p, b, v, [])
    ensures Turned(s, p, [], v, b)
  {
    assert [] + b == b + [];
  }

  lemma TurnGoesOn(s: Store, t: Store, p: Picked, a: seq<BlockKey>, v: BlockKey, b: seq<BlockKey>)
    requires s.main != [] && a != [] && a[0] in s.blocks && s.blocks[a[0]].freq > 0
    requires t == SecondChance(PopMain(s), a[0])
    requires v != a[0] && a[0] !in b && a[0] !in a[1..]
    requires Turned(t, p, a[1..], v, b + [a[0]])
    ensures Turned(s, p, a, v, b)
  {
    var k := a[0];
    assert b + [k] + a[1..] == b + a;
    assert k in b + [k];
    forall j | j in b ensures Spent(s, p.store, j, s.blocks[v].freq) {
      assert j in b + [k];
    }
    forall j | j in a ensures Spent(s, p.store, j, s.blocks[v].freq + 1) {
      assert j == k || j in a[1..];
    }
  }

  lemma RoundEnds(s: Store, t: Store, fast: Tier, v: BlockKey, b: seq<BlockKey>)
    requires LeastUsed(s, fast, [], v, b) && s.blocks[v].freq > 0 && t == SecondChance(PopMain(s), v)
    ensures LeastUsed(t, fast, b, v, []) && v !in b
  {
    assert s.main[0] == v && s.main[1..] == b && t.main == b + [v] == b + [v] + [];
    forall j | j in b ensures j != v {
      var i :| 0 <= i < |b| && b[i] == j;
      assert s.main[i + 1] == j;
    }
    TurnNoDup(s.main);
  }

  lemma RoundGoesOn(s: Store, t: Store, fast: Tier, a: seq<BlockKey>, v: BlockKey, b: seq<BlockKey>)
    requires LeastUsed(s, fast, a, v, b) && a != [] && a[0] in s.blocks && s.blocks[a[0]].freq > 0
    requires t == SecondChance(PopMain(s), a[0])
    ensures LeastUsed(t, fast, a[1..], v, b + [a[0]])
    ensures forall j :: j == v || j in a[1..] || j in b ==> j != a[0]
  {
    var k := a[0];
    assert s.main[0] == k && s.main[1..] == a[1..] + [v] + b && k in a;
    assert t.main == a[1..] + [v] + (b + [k]);
    TurnNoDup(s.main);
    assert s.main[|a|] == v;
    forall j | j in a[1..] ensures j in a && j != k {
      var i :| 0 <= i < |a| - 1 && a[1..][i] == j;
      assert s.main[i + 1] == j && a[i + 1] == j;
    }
    forall j | j in b ensures j != k {
      var i :| 0 <= i < |b| && b[i] == j;
      assert s.main[|a| + 1 + i] == j;
    }
  }

  // ------------------------------------------------ slower tiers

  /** Below the fastest tier the victim is the block whose last access is the oldest. */
  lemma LruPickOldest(s: Store, t: Tier)
    requires Timestamps(s.blocks)
    ensures var p := LruPick(s, t);
            p.store == s &&
            match p.victim
            case None => KeysAt(s.blocks, t) == {}
            case Some(v) =>
              At(s.blocks, v, t) &&
              forall j :: j in KeysAt(s.blocks, t) && j != v ==> Stamp(s.blocks, v) < Stamp(s.blocks, j)
  {
    var index := IndexOf(s.blocks, t);
    forall j | j in KeysAt(s.blocks, t) ensures OrderOf(s.blocks[j], j) in index {
    }
    if index != {} {
      var v := First(index).1;
      assert First(index) in index;
      forall j | j in KeysAt(s.blocks, t) && j != v ensures Stamp(s.blocks, v) < Stamp(s.blocks, j) {
        assert OrderLeq(First(index), OrderOf(s.blocks[j], j));
      }
    }
  }
}

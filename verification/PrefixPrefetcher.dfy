/** The prefix prefetcher: a bounded successor graph learned from request sequences, and
    chains of predicted keys that follow it. */
module PrefixPrefetcher {
  import opened Blocks
  import opened Sequences

  datatype Graph = Graph(maxEdges: nat, successor: map<BlockKey, BlockKey>, fifo: seq<BlockKey>)

  /** `fifo` lists the keys that have a successor, each once, and their number is bounded. */
  ghost predicate Valid(g: Graph) {
    g.maxEdges > 0 && NoDup(g.fifo) && Keys(g.fifo) == g.successor.Keys && |g.fifo| <= g.maxEdges
  }

  /** Drop the oldest edges until the graph fits. */
  ghost function Shrink(g: Graph): Graph
    decreases |g.fifo|
  {
    if |g.successor| <= g.maxEdges || g.fifo == [] then g
    else Shrink(g.(successor := g.successor - {g.fifo[0]}, fifo := g.fifo[1..]))
  }

  ghost function InsertEdge(g: Graph, from: BlockKey, to: BlockKey): Graph {
    if from in g.successor then g.(successor := g.successor[from := to])
    else Shrink(g.(successor := g.successor[from := to], fifo := g.fifo + [from]))
  }

  /** The edges between neighbours, recorded first to last. */
  ghost function Record(g: Graph, keys: seq<BlockKey>): Graph
    decreases |keys|
  {
    if |keys| < 2 then g
    else InsertEdge(Record(g, keys[..|keys| - 1]), keys[|keys| - 2], keys[|keys| - 1])
  }

  lemma EdgeCount(g: Graph)
    requires NoDup(g.fifo) && Keys(g.fifo) == g.successor.Keys
    ensures |g.successor| == |g.fifo|
  {
    NoDupCardinality(g.fifo);
    assert |g.successor| == |g.successor.Keys|;
  }

  /** A graph with one edge too many drops exactly its oldest edge. */
  lemma ShrinkOne(g: Graph)
    requires NoDup(g.fifo) && Keys(g.fifo) == g.successor.Keys && |g.fifo| == g.maxEdges + 1
    ensures var h := g.(successor := g.successor - {g.fifo[0]}, fifo := g.fifo[1..]);
            Shrink(g) == h && NoDup(h.fifo) && Keys(h.fifo) == h.successor.Keys
  {
    var oldest := g.fifo[0];
    var h := g.(successor := g.successor - {oldest}, fifo := g.fifo[1..]);
    assert g.fifo == [oldest] + h.fifo;
    assert Keys(h.fifo) == Keys(g.fifo) - {oldest};
    EdgeCount(g);
    EdgeCount(h);
    assert Shrink(h) == h;
  }

  lemma Grow(g: Graph, from: BlockKey)
    requires Valid(g) && from !in g.successor
    ensures NoDup(g.fifo + [from]) && Keys(g.fifo + [from]) == g.successor.Keys + {from}
    ensures |g.successor.Keys + {from}| == |g.fifo| + 1
  {
    assert from !in Keys(g.fifo);
    EdgeCount(g);
  }

  /** Adding one edge drops at most the oldest one, and none if the edges fit. */
  lemma InsertEdgeValid(g: Graph, from: BlockKey, to: BlockKey)
    requires Valid(g)
    ensures var h := InsertEdge(g, from, to);
            Valid(h) && h.maxEdges == g.maxEdges &&
            (|g.successor.Keys + {from}| <= g.maxEdges ==> h.successor == g.successor[from := to])
  {
    if from !in g.successor {
      Grow(g, from);
      var grown := g.(successor := g.successor[from := to], fifo := g.fifo + [from]);
      assert grown.successor.Keys == g.successor.Keys + {from};
      EdgeCount(grown);
      if |grown.fifo| > g.maxEdges {
        ShrinkOne(grown);
      }
    }
  }

  lemma {:induction false} RecordValid(g: Graph, keys: seq<BlockKey>)
    requires Valid(g)
    ensures Valid(Record(g, keys)) && Record(g, keys).maxEdges == g.maxEdges
    decreases |keys|
  {
    if |keys| >= 2 {
      RecordValid(g, keys[..|keys| - 1]);
      InsertEdgeValid(Record(g, keys[..|keys| - 1]), keys[|keys| - 2], keys[|keys| - 1]);
    }
  }

  // ------------------------------------------------ prediction

  /** The chain from `cursor`, cut short where it would come back to `head`. */
  ghost function Chain(successor: map<BlockKey, BlockKey>, head: BlockKey, cursor: BlockKey,
                       budget: nat): (chain: seq<BlockKey>)
    ensures |chain| <= budget && head !in chain
    decreases budget
  {
    if budget == 0 || cursor !in successor || successor[cursor] == head then []
    else [successor[cursor]] + Chain(successor, head, successor[cursor], budget - 1)
  }

  /** A chain follows the edges one by one, and ends only at its budget, at a key without a successor or where it
      would come back to its head. */
  lemma {:induction false} ChainWalks(successor: map<BlockKey, BlockKey>, head: BlockKey, cursor: BlockKey, budget: nat)
    ensures var walk := [cursor] + Chain(successor, head, cursor, budget);
            var last := walk[|walk| - 1];
            (forall i :: 0 <= i < |walk| - 1 ==> walk[i] in successor && successor[walk[i]] == walk[i + 1]) &&
            (|walk| - 1 < budget ==> last !in successor || successor[last] == head)
    decreases budget
  {
    if budget > 0 && cursor in successor && successor[cursor] != head {
      var next := successor[cursor];
      ChainWalks(successor, head, next, budget - 1);
      var rest := [next] + Chain(successor, head, next, budget - 1);
      assert Chain(successor, head, cursor, budget) == rest;
      assert forall i :: 0 < i < |rest| + 1 ==> ([cursor] + rest)[i] == rest[i - 1];
    }
  }

  /** A new edge goes behind all others and displaces only the oldest; an edge from a known source keeps its
      place. Every other edge stays. */
  lemma InsertEdgeOrder(g: Graph, from: BlockKey, to: BlockKey)
    requires Valid(g)
    ensures var h := InsertEdge(g, from, to);
            h.fifo == (if from in g.successor then g.fifo else if |g.fifo| < g.maxEdges then g.fifo + [from]
                       else (g.fifo + [from])[1..]) &&
            forall k :: k in h.successor ==>
              if k == from then h.successor[k] == to else k in g.successor && h.successor[k] == g.successor[k]
  {
    if from !in g.successor {
      Grow(g, from);
      var grown := g.(successor := g.successor[from := to], fifo := g.fifo + [from]);
      EdgeCount(grown);
      if |grown.fifo| > g.maxEdges {
        ShrinkOne(grown);
      }
    }
  }

  ghost function Predict(g: Graph, head: BlockKey, budget: nat): seq<BlockKey> {
    Chain(g.successor, head, head, budget)
  }

  ghost function PredictEach(g: Graph, anchors: seq<BlockKey>, budget: nat): seq<BlockKey> {
    if anchors == [] then []
    else PredictEach(g, anchors[..|anchors| - 1], budget) + Predict(g, anchors[|anchors| - 1], budget)
  }

  /** `xs` with every key kept only where it first occurs. */
  ghost function Dedup(xs: seq<BlockKey>): seq<BlockKey> {
    if xs == [] then []
    else
      var before, x := Dedup(xs[..|xs| - 1]), xs[|xs| - 1];
      if x in before then before else before + [x]
  }

  lemma {:induction false} DedupKeeps(xs: seq<BlockKey>)
    ensures NoDup(Dedup(xs)) && Keys(Dedup(xs)) == Keys(xs)
  {
    if xs != [] {
      DedupKeeps(xs[..|xs| - 1]);
      var before := Dedup(xs[..|xs| - 1]);
      assert Keys(xs) == Keys(xs[..|xs| - 1]) + {xs[|xs| - 1]};
      assert Keys(before + [xs[|xs| - 1]]) == Keys(before) + {xs[|xs| - 1]};
      assert xs[|xs| - 1] in before <==> xs[|xs| - 1] in Keys(before);
    }
  }

  /** Where a key first occurs. */
  ghost function FirstAt(xs: seq<BlockKey>, x: BlockKey): nat
    requires x in xs
  {
    if x in xs[..|xs| - 1] then FirstAt(xs[..|xs| - 1], x) else |xs| - 1
  }

  /** The deduplicated list orders keys by where they first occur. */
  lemma {:induction false} DedupOrder(xs: seq<BlockKey>, i: nat, j: nat)
    requires i < j < |Dedup(xs)|
    ensures Dedup(xs)[i] in xs && Dedup(xs)[j] in xs && FirstAt(xs, Dedup(xs)[i]) < FirstAt(xs, Dedup(xs)[j])
  {
    var last := |xs| - 1;
    var front := xs[..last];
    DedupKeeps(front);
    DedupKeeps(xs);
    assert Dedup(xs)[i] in Keys(Dedup(xs)) && Dedup(xs)[j] in Keys(Dedup(xs));
    assert Dedup(front)[i] in Keys(Dedup(front));
    if j < |Dedup(front)| {
      DedupOrder(front, i, j);
    } else {
      assert Dedup(xs)[j] !in Keys(Dedup(front));
      FirstAtBound(front, Dedup(xs)[i]);
    }
  }

  lemma {:induction false} FirstAtBound(xs: seq<BlockKey>, x: BlockKey)
    requires x in xs
    ensures FirstAt(xs, x) < |xs| && xs[FirstAt(xs, x)] == x
  {
    if x in xs[..|xs| - 1] {
      FirstAtBound(xs[..|xs| - 1], x);
    } else {
      assert xs == xs[..|xs| - 1] + [xs[|xs| - 1]];
    }
  }

  // ------------------------------------------------ learned sequences are predicted

  /** The graph follows the sequence: each key leads to the next. */
  ghost predicate Follows(successor: map<BlockKey, BlockKey>, keys: seq<BlockKey>) {
    forall i :: 0 <= i < |keys| - 1 ==> keys[i] in successor && successor[keys[i]] == keys[i + 1]
  }

  lemma FollowsPush(successor: map<BlockKey, BlockKey>, keys: seq<BlockKey>)
    requires |keys| >= 2 && NoDup(keys) && Follows(successor, keys[..|keys| - 1])
    ensures Follows(successor[keys[|keys| - 2] := keys[|keys| - 1]], keys)
  {
    var n, front := |keys| - 1, keys[..|keys| - 1];
    forall i | 0 <= i < n
      ensures keys[i] in successor[keys[n - 1] := keys[n]] && successor[keys[n - 1] := keys[n]][keys[i]] == keys[i + 1]
    {
      if i < n - 1 {
        assert front[i] == keys[i] && front[i + 1] == keys[i + 1];
      }
    }
  }

  /** As long as all edges start in a set that fits, the graph comes to follow the sequence. */
  lemma {:induction false} RecordAll(g: Graph, keys: seq<BlockKey>, sources: set<BlockKey>)
    requires Valid(g) && NoDup(keys) && |sources| <= g.maxEdges && g.successor.Keys <= sources
    requires forall i :: 0 <= i < |keys| - 1 ==> keys[i] in sources
    ensures Record(g, keys).successor.Keys <= sources && Follows(Record(g, keys).successor, keys)
    decreases |keys|
  {
    if |keys| >= 2 {
      var n := |keys| - 1;
      var before := Record(g, keys[..n]);
      RecordAll(g, keys[..n], sources);
      RecordValid(g, keys[..n]);
      Subset(before.successor.Keys + {keys[n - 1]}, sources);
      InsertEdgeValid(before, keys[n - 1], keys[n]);
      FollowsPush(before.successor, keys);
    }
  }

  lemma {:induction false} ChainFollows(successor: map<BlockKey, BlockKey>, keys: seq<BlockKey>, pos: nat, budget: nat)
    requires NoDup(keys) && pos + budget < |keys|
    requires Follows(successor, keys)
    ensures Chain(successor, keys[0], keys[pos], budget) == keys[pos + 1..pos + 1 + budget]
    decreases budget
  {
    if budget > 0 {
      ChainFollows(successor, keys, pos + 1, budget - 1);
      assert keys[pos + 1] != keys[0];
      assert keys[pos + 1..pos + 1 + budget] == [keys[pos + 1]] + keys[pos + 2..pos + 1 + budget];
    }
  }

  /** When the old and new edges fit together, a recorded sequence without repetitions is
      predicted back, key by key, from its head. */
  lemma RecordedIsPredicted(g: Graph, keys: seq<BlockKey>, sources: set<BlockKey>, budget: nat)
    requires Valid(g) && NoDup(keys) && budget < |keys|
    requires sources == g.successor.Keys + Keys(keys[..|keys| - 1]) && |sources| <= g.maxEdges
    ensures Predict(Record(g, keys), keys[0], budget) == keys[1..budget + 1]
  {
    SourcesCover(keys, sources);
    RecordAll(g, keys, sources);
    ChainFollows(Record(g, keys).successor, keys, 0, budget);
  }

  /** The newest edges of the graph start at `keys`, in that order. */
  ghost predicate EndsIn(g: Graph, keys: seq<BlockKey>) {
    |keys| <= |g.fifo| && g.fifo[|g.fifo| - |keys|..] == keys
  }

  /** The newest sources are in the graph, and the oldest is not among them unless they are all. */
  lemma NewestHeld(g: Graph, recent: seq<BlockKey>)
    requires Valid(g) && EndsIn(g, recent)
    ensures forall k :: k in recent ==> k in g.successor && (|recent| < |g.fifo| ==> k != g.fifo[0])
  {
    forall k | k in recent ensures k in g.successor && (|recent| < |g.fifo| ==> k != g.fifo[0]) {
      var i :| 0 <= i < |recent| && recent[i] == k;
      assert g.fifo[|g.fifo| - |recent| + i] == k;
      assert k in Keys(g.fifo);
    }
  }

  /** A new edge joins the newest ones; whatever is dropped for it is older than they are. */
  lemma InsertKeepsNewest(g: Graph, recent: seq<BlockKey>, from: BlockKey, to: BlockKey)
    requires Valid(g) && EndsIn(g, recent) && |recent| < g.maxEdges && from !in g.successor
    ensures var h := InsertEdge(g, from, to);
            EndsIn(h, recent + [from]) && from in h.successor && h.successor[from] == to
    ensures forall k :: k in recent ==>
              k in g.successor && k in InsertEdge(g, from, to).successor &&
              InsertEdge(g, from, to).successor[k] == g.successor[k]
    ensures InsertEdge(g, from, to).successor.Keys <= g.successor.Keys + {from}
  {
    var h := InsertEdge(g, from, to);
    NewestHeld(g, recent);
    InsertEdgeOrder(g, from, to);
    InsertEdgeValid(g, from, to);
    NewestGrow(g, h, recent, from);
    NewestHeld(h, recent + [from]);
    assert forall k :: k in recent ==> k in recent + [from];
    assert from in recent + [from];
  }

  lemma NewestGrow(g: Graph, h: Graph, recent: seq<BlockKey>, from: BlockKey)
    requires EndsIn(g, recent)
    requires h.fifo == g.fifo + [from] || (|recent| < |g.fifo| && h.fifo == (g.fifo + [from])[1..])
    ensures EndsIn(h, recent + [from])
  {
    assert (g.fifo + [from])[|g.fifo| - |recent|..] == g.fifo[|g.fifo| - |recent|..] + [from];
  }

  /** A sequence of new sources that fits by itself ends up as the newest part of the graph, however
      full the graph was. */
  lemma {:induction false} RecordNewest(g: Graph, keys: seq<BlockKey>)
    requires Valid(g) && NoDup(keys) && keys != [] && |keys| - 1 <= g.maxEdges
    requires forall i :: 0 <= i < |keys| - 1 ==> keys[i] !in g.successor
    ensures var h := Record(g, keys);
            EndsIn(h, keys[..|keys| - 1]) && Follows(h.successor, keys) &&
            h.successor.Keys <= g.successor.Keys + Keys(keys[..|keys| - 1])
    decreases |keys|
  {
    if |keys| >= 2 {
      var n := |keys| - 1;
      var before, front := Record(g, keys[..n]), keys[..n];
      RecordNewest(g, front);
      RecordValid(g, front);
      assert front[..n - 1] == keys[..n - 1] && keys[..n] == keys[..n - 1] + [keys[n - 1]];
      assert keys[n - 1] !in Keys(keys[..n - 1]);
      InsertKeepsNewest(before, keys[..n - 1], keys[n - 1], keys[n]);
      NewestFollow(before.successor, InsertEdge(before, keys[n - 1], keys[n]).successor, keys);
    } else {
      assert keys[..0] == [] && g.fifo[|g.fifo|..] == [];
    }
  }

  lemma NewestFollow(successor: map<BlockKey, BlockKey>, successor': map<BlockKey, BlockKey>, keys: seq<BlockKey>)
    requires |keys| >= 2 && Follows(successor, keys[..|keys| - 1])
    requires forall k :: k in keys[..|keys| - 2] ==> k in successor && k in successor' && successor'[k] == successor[k]
    requires keys[|keys| - 2] in successor' && successor'[keys[|keys| - 2]] == keys[|keys| - 1]
    ensures Follows(successor', keys)
  {
    var n, front := |keys| - 1, keys[..|keys| - 1];
    forall i | 0 <= i < n ensures keys[i] in successor' && successor'[keys[i]] == keys[i + 1] {
      if i < n - 1 {
        assert keys[..n - 1][i] == keys[i];
        assert front[i] == keys[i] && front[i + 1] == keys[i + 1];
      }
    }
  }

  /** Whatever the graph held before, a recorded sequence of new sources without repetitions is predicted
      back, key by key, from its head, if it fits into the graph by itself. */
  lemma NewSequenceIsPredicted(g: Graph, keys: seq<BlockKey>, budget: nat)
    requires Valid(g) && NoDup(keys) && budget < |keys| && |keys| - 1 <= g.maxEdges
    requires forall i :: 0 <= i < |keys| - 1 ==> keys[i] !in g.successor
    ensures Predict(Record(g, keys), keys[0], budget) == keys[1..budget + 1]
  {
    RecordNewest(g, keys);
    ChainFollows(Record(g, keys).successor, keys, 0, budget);
  }

  lemma SourcesCover(keys: seq<BlockKey>, sources: set<BlockKey>)
    requires keys != [] && Keys(keys[..|keys| - 1]) <= sources
    ensures forall i :: 0 <= i < |keys| - 1 ==> keys[i] in sources
  {
    forall i | 0 <= i < |keys| - 1 ensures keys[i] in sources {
      assert keys[..|keys| - 1][i] == keys[i];
      assert keys[i] in Keys(keys[..|keys| - 1]);
    }
  }

  // ------------------------------------------------ the prefetcher object

  class Prefetcher {
    const maxEdges: nat
    var successor: map<BlockKey, BlockKey>
    var fifo: seq<BlockKey>

    ghost function View(): Graph
      reads this
    {
      Graph(maxEdges, successor, fifo)
    }

    constructor (limit: nat)
      ensures Valid(View()) && successor == map[] && maxEdges == if limit == 0 then 1 else limit
    {
      maxEdges := if limit == 0 then 1 else limit;
      successor, fifo := map[], [];
    }

    method InsertEdgeLocked(from: BlockKey, to: BlockKey)
      modifies this
      ensures View() == InsertEdge(old(View()), from, to)
    {
      if from in successor {
        successor := successor[from := to];
        return;
      }
      successor, fifo := successor[from := to], fifo + [from];
      while |successor| > maxEdges && fifo != []
        invariant Shrink(View()) == InsertEdge(old(View()), from, to)
        decreases |fifo|
      {
        successor, fifo := successor - {fifo[0]}, fifo[1..];
      }
    }

    method RecordSequence(keys: seq<BlockKey>)
      requires Valid(View())
      modifies this
      ensures Valid(View()) && View() == Record(old(View()), keys)
    {
      RecordValid(View(), keys);
      if |keys| < 2 {
        return;
      }
      for i := 0 to |keys| - 1
        invariant View() == Record(old(View()), keys[..i + 1])
      {
        assert keys[..i + 2][..i + 1] == keys[..i + 1];
        InsertEdgeLocked(keys[i], keys[i + 1]);
      }
      assert keys[..|keys| - 1 + 1] == keys;
    }

    method PredictChain(head: BlockKey, budget: nat) returns (chain: seq<BlockKey>)
      ensures chain == Predict(View(), head, budget)
    {
      chain := [];
      var cursor := head;
      for i := 0 to budget
        invariant chain + Chain(successor, head, cursor, budget - i) == Predict(View(), head, budget)
      {
        if cursor !in successor {
          return;
        }
        cursor := successor[cursor];
        if cursor == head {
          return;
        }
        assert chain + ([cursor] + Chain(successor, head, cursor, budget - i - 1)) ==
                 (chain + [cursor]) + Chain(successor, head, cursor, budget - i - 1);
        chain := chain + [cursor];
      }
    }

    /** One pass over all anchors with a shared set of keys already seen. */
    method PredictChainMulti(anchors: seq<BlockKey>, budget: nat) returns (merged: seq<BlockKey>)
      ensures merged == Dedup(PredictEach(View(), anchors, budget))
    {
      merged := [];
      var seen: set<BlockKey> := {};
      ghost var all: seq<BlockKey> := [];
      for a := 0 to |anchors|
        invariant all == PredictEach(View(), anchors[..a], budget)
        invariant merged == Dedup(all) && seen == Keys(merged)
      {
        assert anchors[..a + 1][..a] == anchors[..a];
        var anchor, cursor := anchors[a], anchors[a];
        ghost var goal := all + Predict(View(), anchor, budget);
        var i := 0;
        while i < budget
          invariant 0 <= i <= budget
          invariant all + Chain(successor, anchor, cursor, budget - i) == goal
          invariant merged == Dedup(all) && seen == Keys(merged)
        {
          if cursor !in successor || successor[cursor] == anchor {
            break;
          }
          cursor := successor[cursor];
          ghost var rest := Chain(successor, anchor, cursor, budget - i - 1);
          assert all + ([cursor] + rest) == (all + [cursor]) + rest;
          assert (all + [cursor])[..|all|] == all;
          all := all + [cursor];
          if cursor !in seen {
            seen := seen + {cursor};
            merged := merged + [cursor];
          }
          i := i + 1;
        }
        assert all == goal;
      }
      assert anchors[..|anchors|] == anchors;
    }
  }
}

/** Which keys a batch eviction takes: the oldest unused ones of each queue, from the small queue only
    while it is over its budget, and never a used key of the small queue from there. */
module OffloadOrder {
  import opened Blocks
  import opened Sequences
  import opened OffloadPolicy

  // ------------------------------------------------ one place for every key

  ghost predicate Disjoint(s: Search) {
    forall x: OffloadKey :: Held(s, x) <= 1
  }

  lemma OnePlace(s: Search, x: OffloadKey)
    requires Disjoint(s)
    ensures x in s.small ==> x !in s.main && x !in KeysOf(s.victims)
    ensures x in s.main ==> x !in KeysOf(s.victims)
    ensures s.small != [] ==> s.small[0] !in s.small[1..]
    ensures s.main != [] ==> s.main[0] !in s.main[1..]
  {
    assert Held(s, x) <= 1;
    CountIn(s.small, x);
    CountIn(s.main, x);
    CountIn(KeysOf(s.victims), x);
    if s.small != [] {
      assert Held(s, s.small[0]) <= 1;
      CountPop(s.small, s.small[0]);
      CountIn(s.small[1..], s.small[0]);
    }
    if s.main != [] {
      assert Held(s, s.main[0]) <= 1;
      CountPop(s.main, s.main[0]);
      CountIn(s.main[1..], s.main[0]);
    }
  }

  lemma AdvanceDisjoint(s: Search, rules: Rules)
    requires (s.small != [] || s.main != []) && Disjoint(s)
    ensures Disjoint(Advance(s, rules))
  {
    forall x: OffloadKey ensures Held(Advance(s, rules), x) <= 1 {
      AdvanceHeld(s, rules, x);
      assert Held(s, x) <= 1;
    }
  }

  lemma TakenKey(victims: seq<(OffloadKey, bool)>, k: OffloadKey, small: bool)
    ensures (k, small) in victims ==> k in KeysOf(victims)
  {
    if (k, small) in victims {
      var i :| 0 <= i < |victims| && victims[i] == (k, small);
      assert KeysOf(victims)[i] == k;
    }
  }

  // ------------------------------------------------ what becomes of a key that was reached

  /** A used key of the small queue has moved to the main queue; an unused one is a victim if it may be
      evicted, and set aside if not. */
  ghost predicate SmallFate(c: Search, s: Search, rules: Rules, k: OffloadKey) {
    if FreqOf(c.freq, k) > 0 then k in s.main || k in s.skippedMain || (k, false) in s.victims
    else if rules.Allows(k) then (k, true) in s.victims
    else k in s.skippedSmall
  }

  /** The first `i` keys of the small queue have been served, and the others wait unchanged. */
  ghost predicate SmallServed(c: Search, s: Search, rules: Rules, i: nat) {
    i <= |c.small| && s.small == c.small[i..] &&
    (forall k :: k in c.small[..i] ==> SmallFate(c, s, rules, k)) &&
    (forall k :: k in s.small ==> FreqOf(s.freq, k) == FreqOf(c.freq, k)) &&
    (forall k :: (k, true) in s.victims ==> k in c.small[..i] && FreqOf(c.freq, k) == 0)
  }

  ghost predicate MainFate(c: Search, s: Search, rules: Rules, k: OffloadKey) {
    FreqOf(c.freq, k) == 0 ==> if rules.Allows(k) then (k, false) in s.victims else k in s.skippedMain
  }

  /** The first `p` keys of the main queue have been served at least once; an unused one is a victim if it
      may be evicted. The others wait unchanged in front. Victims have no use left. */
  ghost predicate MainServed(c: Search, s: Search, rules: Rules, p: nat) {
    p <= |c.main| && c.main[p..] <= s.main &&
    (forall k :: k in c.main[..p] ==> MainFate(c, s, rules, k)) &&
    (forall k :: k in c.main[p..] ==> FreqOf(s.freq, k) == FreqOf(c.freq, k)) &&
    (forall k :: (k, false) in s.victims ==> FreqOf(s.freq, k) == 0)
  }

  lemma FrontOf(q: seq<OffloadKey>, i: nat)
    requires i < |q|
    ensures q[i..][0] == q[i] && q[i..][1..] == q[i + 1..] && q[..i + 1] == q[..i] + [q[i]]
  {
  }

  lemma SmallStepSmall(c: Search, s: Search, rules: Rules, i: nat)
    requires Disjoint(s) && s.small != [] && SmallServed(c, s, rules, i)
    ensures SmallServed(c, AdvanceSmall(s, rules), rules, i + 1)
  {
    var k, t := s.small[0], AdvanceSmall(s, rules);
    FrontOf(c.small, i);
    OnePlace(s, k);
    assert k in s.small;
    forall j | j in c.small[..i + 1] ensures SmallFate(c, t, rules, j) {
      assert j == k || SmallFate(c, s, rules, j);
    }
  }

  lemma SmallStepMain(c: Search, s: Search, rules: Rules, i: nat)
    requires Disjoint(s) && s.main != [] && SmallServed(c, s, rules, i)
    ensures SmallServed(c, AdvanceMain(s, rules), rules, i)
  {
    var k, t := s.main[0], AdvanceMain(s, rules);
    forall j | j in s.small ensures j != k {
      OnePlace(s, j);
    }
    forall j | j in c.small[..i] ensures SmallFate(c, t, rules, j) {
      assert SmallFate(c, s, rules, j);
      assert j in s.main ==> j == k || j in s.main[1..];
    }
  }

  lemma MainStepSmall(c: Search, s: Search, rules: Rules, p: nat)
    requires Disjoint(s) && s.small != [] && MainServed(c, s, rules, p)
    ensures MainServed(c, AdvanceSmall(s, rules), rules, p)
  {
    var k, t := s.small[0], AdvanceSmall(s, rules);
    OnePlace(s, k);
    assert k in s.small;
    forall j | j in c.main[p..] ensures j in s.main {
      var x :| 0 <= x < |c.main[p..]| && c.main[p..][x] == j;
      assert s.main[x] == j;
    }
    forall j | (j, false) in t.victims ensures FreqOf(t.freq, j) == 0 {
      TakenKey(s.victims, j, false);
    }
    forall j | j in c.main[..p] ensures MainFate(c, t, rules, j) {
      assert MainFate(c, s, rules, j);
    }
  }

  lemma MainStepMain(c: Search, s: Search, rules: Rules, p: nat) returns (p': nat)
    requires Disjoint(s) && s.main != [] && MainServed(c, s, rules, p)
    ensures p <= p' && MainServed(c, AdvanceMain(s, rules), rules, p')
  {
    var k, t := s.main[0], AdvanceMain(s, rules);
    OnePlace(s, k);
    assert k in s.main;
    forall j | (j, false) in t.victims ensures FreqOf(t.freq, j) == 0 {
      TakenKey(s.victims, j, false);
    }
    if p < |c.main| {
      FrontOf(c.main, p);
      assert s.main[0] == c.main[p..][0];
      MainTail(c, s, p);
      forall j | j in c.main[..p + 1] ensures MainFate(c, t, rules, j) {
        assert j == k || MainFate(c, s, rules, j);
        assert j == k ==> k in c.main[p..];
      }
      p' := p + 1;
    } else {
      forall j | j in c.main[..p] ensures MainFate(c, t, rules, j) {
        assert MainFate(c, s, rules, j);
      }
      p' := p;
    }
  }

  lemma MainTail(c: Search, s: Search, p: nat)
    requires p < |c.main| && c.main[p..] <= s.main && s.main[0] !in s.main[1..]
    ensures c.main[p + 1..] <= s.main[1..] && s.main[0] !in c.main[p + 1..]
    ensures forall j :: j in c.main[p + 1..] ==> j in c.main[p..]
  {
    var n := |c.main| - p;
    assert c.main[p..] == s.main[..n];
    assert c.main[p + 1..] == c.main[p..][1..] == s.main[1..n];
    forall j | j in c.main[p + 1..] ensures j in s.main[1..] && j in c.main[p..] {
      var x :| 0 <= x < |c.main[p + 1..]| && c.main[p + 1..][x] == j;
      assert s.main[1..][x] == j && c.main[p..][x + 1] == j;
    }
  }

  lemma {:induction false} FinishServes(c: Search, s: Search, rules: Rules, n: int, i: nat, p: nat)
    returns (i': nat, p': nat)
    requires Disjoint(s) && SmallServed(c, s, rules, i) && MainServed(c, s, rules, p)
    ensures var t := Finish(s, rules, n);
            Disjoint(t) && SmallServed(c, t, rules, i') && MainServed(c, t, rules, p')
    decreases FreqSum(s.freq), |s.small| + |s.main|
  {
    if Finished(s, rules, n) {
      i', p' := i, p;
    } else {
      AdvanceDecreases(s, rules);
      AdvanceDisjoint(s, rules);
      var j, q := i, p;
      if FromSmall(s, rules) {
        SmallStepSmall(c, s, rules, i);
        MainStepSmall(c, s, rules, p);
        j := i + 1;
      } else {
        SmallStepMain(c, s, rules, i);
        q := MainStepMain(c, s, rules, p);
      }
      i', p' := FinishServes(c, Advance(s, rules), rules, n, j, q);
    }
  }

  /** The whole batch, from the start. */
  lemma BatchServes(c: Cache, n: int, protected: set<OffloadKey>) returns (i: nat, p: nat)
    requires Valid(c)
    ensures var t, rules := SearchOf(c, n, protected), RulesOf(c, protected);
            Disjoint(t) && SmallServed(Begin(c), t, rules, i) && MainServed(Begin(c), t, rules, p)
  {
    var b := Begin(c);
    assert KeysOf(b.victims) == [];
    forall x: OffloadKey ensures Held(b, x) <= 1 {
      assert Count(c.small, x) + Count(c.main, x) == if x in c.blocks then 1 else 0;
    }
    i, p := FinishServes(b, b, RulesOf(c, protected), n, 0, 0);
  }

  // ------------------------------------------------ what a batch takes

  /** Used keys are spared: a victim of the small queue had no use when the batch began, a victim of the main
      queue has none left, and a used key of the small queue that was reached is in the main queue or gone
      from there. */
  lemma EvictSparesUsed(c: Cache, n: int, protected: set<OffloadKey>)
    requires Valid(c)
    ensures var t := SearchOf(c, n, protected);
            (forall k :: (k, true) in t.victims ==> k in c.small && FreqOf(c.freq, k) == 0) &&
            (forall k :: (k, false) in t.victims ==> FreqOf(t.freq, k) == 0) &&
            (forall k :: k in c.small && FreqOf(c.freq, k) > 0 ==>
               k in t.small || k in t.main || k in t.skippedMain || (k, false) in t.victims)
  {
    var i, p := BatchServes(c, n, protected);
    var t := SearchOf(c, n, protected);
    forall k | k in c.small && FreqOf(c.freq, k) > 0
      ensures k in t.small || k in t.main || k in t.skippedMain || (k, false) in t.victims
    {
      assert c.small == c.small[..i] + c.small[i..];
      assert k !in c.small[i..] ==> SmallFate(Begin(c), t, RulesOf(c, protected), k);
    }
  }

  /** First in, first out: when an unused key is a victim, so is every unused key before it in its queue that
      may be evicted. */
  lemma EvictOldest(c: Cache, n: int, protected: set<OffloadKey>, small: bool, x: nat, y: nat)
    requires Valid(c)
    requires var queue := if small then c.small else c.main;
             x < y < |queue| && FreqOf(c.freq, queue[x]) == 0 && FreqOf(c.freq, queue[y]) == 0 &&
             queue[x] in c.evictable && queue[x] !in protected &&
             (queue[y], small) in SearchOf(c, n, protected).victims
    ensures var queue := if small then c.small else c.main;
            (queue[x], small) in SearchOf(c, n, protected).victims
  {
    var i, p := BatchServes(c, n, protected);
    var t, b, rules := SearchOf(c, n, protected), Begin(c), RulesOf(c, protected);
    if small {
      Reached(t, c.small, i, y, true);
      assert c.small[..i][x] == c.small[x];
      assert SmallFate(b, t, rules, c.small[x]);
    } else {
      Reached(t, c.main, p, y, false);
      assert c.main[..p][x] == c.main[x];
      assert MainFate(b, t, rules, c.main[x]);
    }
  }

  /** A victim is not among the keys that still wait in order. */
  lemma Reached(t: Search, queue: seq<OffloadKey>, served: nat, y: nat, small: bool)
    requires Disjoint(t) && y < |queue| && served <= |queue| && (queue[y], small) in t.victims
    requires queue[served..] <= (if small then t.small else t.main)
    ensures y < served
  {
    TakenKey(t.victims, queue[y], small);
    OnePlace(t, queue[y]);
    TailHolds(queue, served, y, if small then t.small else t.main);
  }

  lemma TailHolds(queue: seq<OffloadKey>, served: nat, y: nat, q: seq<OffloadKey>)
    requires served <= |queue| && y < |queue| && queue[served..] <= q
    ensures y >= served ==> queue[y] in q
  {
    if y >= served {
      assert queue[served..][y - served] == queue[y];
      assert q[y - served] == queue[y];
    }
  }

  // ------------------------------------------------ which queue

  /** A longer search continues a shorter one, so its first victims are those of the shorter one. */
  lemma {:induction false} FinishTwice(s: Search, rules: Rules, m: int, n: int)
    requires m <= n
    ensures Finish(Finish(s, rules, m), rules, n) == Finish(s, rules, n)
    decreases FreqSum(s.freq), |s.small| + |s.main|
  {
    if !Finished(s, rules, m) {
      AdvanceDecreases(s, rules);
      FinishTwice(Advance(s, rules), rules, m, n);
    }
  }

  lemma {:induction false} VictimsGrow(s: Search, rules: Rules, n: int)
    ensures s.victims <= Finish(s, rules, n).victims
    decreases FreqSum(s.freq), |s.small| + |s.main|
  {
    if !Finished(s, rules, n) {
      AdvanceDecreases(s, rules);
      VictimsGrow(Advance(s, rules), rules, n);
    }
  }

  /** The last victim came from the small queue only if that was over its budget or the main queue was
      empty, and from the main queue only if the small queue was within its budget. */
  ghost predicate LastFromDue(t: Search, budget: nat) {
    t.victims != [] ==>
      if t.victims[|t.victims| - 1].1 then |t.small| + 1 > budget || t.main == []
      else |t.small| <= budget || t.small == []
  }

  lemma {:induction false} FinishDue(s: Search, rules: Rules, n: int)
    requires |s.victims| < n
    ensures |Finish(s, rules, n).victims| == n ==> LastFromDue(Finish(s, rules, n), rules.budget)
    ensures |Finish(s, rules, n).victims| <= n
    decreases FreqSum(s.freq), |s.small| + |s.main|
  {
    if !Finished(s, rules, n) {
      AdvanceDecreases(s, rules);
      if |Advance(s, rules).victims| < n {
        FinishDue(Advance(s, rules), rules, n);
      }
    }
  }

  /** Every victim of a batch came from the queue that was due: cut off after its `m`-th victim, the batch is
      the batch of `m`, whose last victim came from there. */
  lemma EvictFromDue(c: Cache, n: int, m: int, protected: set<OffloadKey>)
    requires 0 < m <= n && |SearchOf(c, n, protected).victims| == n
    ensures var t := SearchOf(c, m, protected);
            |t.victims| == m && t.victims == SearchOf(c, n, protected).victims[..m] && LastFromDue(t, c.smallBudget)
  {
    var b, rules := Begin(c), RulesOf(c, protected);
    FinishTwice(b, rules, m, n);
    VictimsGrow(SearchOf(c, m, protected), rules, n);
    FinishDue(b, rules, m);
    var t := SearchOf(c, m, protected);
    FinishKeepsEnd(b, rules, m);
    assert |t.victims| < m ==> Finish(t, rules, n) == t;
  }

  lemma {:induction false} FinishKeepsEnd(s: Search, rules: Rules, n: int)
    ensures Finished(Finish(s, rules, n), rules, n)
    decreases FreqSum(s.freq), |s.small| + |s.main|
  {
    if !Finished(s, rules, n) {
      AdvanceDecreases(s, rules);
      FinishKeepsEnd(Advance(s, rules), rules, n);
    }
  }

  // ------------------------------------------------ second chances of the main queue

  /** `v` is the first of the least used keys of the main queue, which alone is due. */
  ghost predicate LeastUsed(s: Search, rules: Rules, a: seq<OffloadKey>, v: OffloadKey, b: seq<OffloadKey>) {
    s.main == a + [v] + b && NoDup(s.main) && |s.small| <= rules.budget && rules.Allows(v) &&
    (forall k :: k in s.main ==> k in s.freq) &&
    (forall k :: k in a ==> FreqOf(s.freq, k) > FreqOf(s.freq, v)) &&
    (forall k :: k in b ==> FreqOf(s.freq, k) >= FreqOf(s.freq, v))
  }

  /** `v` is taken after exactly as many rounds as it had uses; the queue has turned to just behind it. */
  ghost predicate Turned(s: Search, t: Search, a: seq<OffloadKey>, v: OffloadKey, b: seq<OffloadKey>) {
    var uses := FreqOf(s.freq, v);
    t.victims == s.victims + [(v, false)] && t.main == b + a && t.small == s.small &&
    FreqOf(t.freq, v) == 0 &&
    (forall k :: k in b ==> FreqOf(t.freq, k) == FreqOf(s.freq, k) - uses) &&
    (forall k :: k in a ==> FreqOf(t.freq, k) == FreqOf(s.freq, k) - uses - 1)
  }

  /** Second chances, exactly: the next victim is the first of the least used keys, and every round costs each
      key one use. */
  lemma {:induction false} SecondChances(s: Search, rules: Rules, a: seq<OffloadKey>, v: OffloadKey, b: seq<OffloadKey>)
    requires LeastUsed(s, rules, a, v, b)
    ensures Turned(s, Finish(s, rules, |s.victims| + 1), a, v, b)
    decreases FreqSum(s.freq)
  {
    var n, t := |s.victims| + 1, Advance(s, rules);
    assert !Finished(s, rules, n) && !FromSmall(s, rules);
    assert Finish(s, rules, n) == Finish(t, rules, n);
    if a == [] && FreqOf(s.freq, v) == 0 {
      assert s.main[0] == v && s.main[1..] == b == b + a;
    } else {
      var k := if a == [] then v else a[0];
      assert s.main[0] == k && (a != [] ==> a[0] in a) && k in s.main;
      FreqSumLess(s.freq, k, s.freq[k] - 1);
      if a == [] {
        RoundEnds(s, t, rules, v, b);
        SecondChances(t, rules, b, v, []);
        TurnEnds(s, t, Finish(t, rules, n), v, b);
      } else {
        RoundGoesOn(s, t, rules, a, v, b);
        SecondChances(t, rules, a[1..], v, b + [k]);
        TurnGoesOn(s, t, Finish(t, rules, n), a, v, b);
      }
    }
  }

  ghost predicate SpendsFirst(s: Search, t: Search, k: OffloadKey) {
    s.main != [] && s.main[0] == k && k in s.freq && s.freq[k] > 0 &&
    t == s.(main := s.main[1..] + [k], freq := s.freq[k := s.freq[k] - 1])
  }

  lemma RoundEnds(s: Search, t: Search, rules: Rules, v: OffloadKey, b: seq<OffloadKey>)
    requires LeastUsed(s, rules, [], v, b) && SpendsFirst(s, t, v)
    ensures LeastUsed(t, rules, b, v, []) && v !in b
  {
    assert s.main[1..] == b && t.main == b + [v] == b + [v] + [];
    forall j | j in b ensures j != v && j in s.main {
      var i :| 0 <= i < |b| && b[i] == j;
      assert s.main[i + 1] == j;
    }
    TurnNoDup(s.main);
  }

  lemma RoundGoesOn(s: Search, t: Search, rules: Rules, a: seq<OffloadKey>, v: OffloadKey, b: seq<OffloadKey>)
    requires LeastUsed(s, rules, a, v, b) && a != [] && SpendsFirst(s, t, a[0])
    ensures LeastUsed(t, rules, a[1..], v, b + [a[0]])
    ensures forall j :: j == v || j in a[1..] || j in b ==> j != a[0]
  {
    var k := a[0];
    assert s.main[1..] == a[1..] + [v] + b && k in a;
    assert t.main == a[1..] + [v] + (b + [k]);
    TurnNoDup(s.main);
    assert s.main[|a|] == v;
    forall j | j in a[1..] ensures j in a && j != k {
      var i :| 0 <= i < |a| - 1 && a[1..][i] == j;
      assert s.main[i + 1] == j && a[i + 1] == j;
    }
    forall j | j in b ensures j != k {
      var i :| 0 <= i < |b| && b[i] == j;
      assert s.main[|a| + 1 + i] == j;
    }
    forall j | j in t.main ensures j in t.freq {
      assert j == k || j in s.main[1..];
      assert j in s.main;
    }
  }

  lemma TurnEnds(s: Search, t: Search, r: Search, v: OffloadKey, b: seq<OffloadKey>)
    requires SpendsFirst(s, t, v) && v !in b && Turned(t, r, b, v, [])
    ensures Turned(s, r, [], v, b)
  {
    assert [] + b == b + [];
  }

  lemma TurnGoesOn(s: Search, t: Search, r: Search, a: seq<OffloadKey>, v: OffloadKey, b: seq<OffloadKey>)
    requires a != [] && SpendsFirst(s, t, a[0]) && v != a[0] && a[0] !in b && a[0] !in a[1..]
    requires Turned(t, r, a[1..], v, b + [a[0]])
    ensures Turned(s, r, a, v, b)
  {
    var k := a[0];
    assert b + [k] + a[1..] == b + a;
    assert k in b + [k];
    forall j | j in b ensures FreqOf(r.freq, j) == FreqOf(s.freq, j) - FreqOf(s.freq, v) {
      assert j in b + [k];
    }
    forall j | j in a ensures FreqOf(r.freq, j) == FreqOf(s.freq, j) - FreqOf(s.freq, v) - 1 {
      assert j == k || j in a[1..];
    }
  }

  // ------------------------------------------------ what is remembered

  /** As long as the memory holds all victims of the small queue, it remembers every one of them and nothing of
      the main queue; what it remembered before makes way first. */
  lemma {:induction false} RememberedFromSmall(history: seq<OffloadKey>, victims: seq<(OffloadKey, bool)>,
                                               capacity: nat)
    requires NoDup(history) && |history| <= capacity && NoDup(KeysOf(victims)) && |From(victims, true)| <= capacity
    requires forall k :: k in KeysOf(victims) ==> k !in history
    ensures var r := RememberAll(history, victims, capacity);
            |From(victims, true)| <= |r| && r[|r| - |From(victims, true)|..] == From(victims, true) &&
            (forall k :: (k, false) in victims ==> k !in r) && NoDup(r) && |r| <= capacity
  {
    if victims != [] {
      var last := |victims| - 1;
      var front, v := victims[..last], victims[last];
      var before := RememberAll(history, front, capacity);
      assert KeysOf(victims) == KeysOf(front) + [v.0];
      assert |From(front, true)| <= |From(victims, true)|;
      forall k | k in KeysOf(front) ensures k !in history {
        assert k in KeysOf(victims);
      }
      forall i, j | 0 <= i < j < |KeysOf(front)| ensures KeysOf(front)[i] != KeysOf(front)[j] {
        assert KeysOf(victims)[i] != KeysOf(victims)[j];
      }
      RememberedFromSmall(history, front, capacity);
      RememberAllOk(history, front, capacity);
      RememberStep(history, front, v, before, capacity);
    }
  }

  lemma RememberStep(history: seq<OffloadKey>, front: seq<(OffloadKey, bool)>, v: (OffloadKey, bool),
                     before: seq<OffloadKey>, capacity: nat)
    requires before == RememberAll(history, front, capacity) && NoDup(before) && |before| <= capacity
    requires NoDup(KeysOf(front) + [v.0]) && v.0 !in history && |From(front + [v], true)| <= capacity
    requires forall k :: k in before ==> k in history || k in KeysOf(front)
    requires |From(front, true)| <= |before| && before[|before| - |From(front, true)|..] == From(front, true)
    requires forall k :: (k, false) in front ==> k !in before
    ensures var r, small := RememberAll(history, front + [v], capacity), From(front + [v], true);
            |small| <= |r| && r[|r| - |small|..] == small &&
            (forall k :: (k, false) in front + [v] ==> k !in r) && NoDup(r) && |r| <= capacity
  {
    assert (front + [v])[..|front|] == front;
    var keys := KeysOf(front);
    assert forall i :: 0 <= i < |keys| ==> (keys + [v.0])[i] == keys[i];
    assert (keys + [v.0])[|keys|] == v.0 && v.0 !in keys;
    assert v.0 !in before;
    if v.1 {
      WithoutAbsent(before, v.0);
      ToEndFacts(before, v.0);
      TrimKeepsTail(before, v.0, From(front, true), capacity);
      forall k | (k, false) in front + [v] ensures k !in RememberAll(history, front + [v], capacity) {
        assert (k, false) in front;
        TakenKey(front, k, false);
      }
    } else {
      forall k | (k, false) in front + [v] ensures k !in before {
        assert (k, false) in front || k == v.0;
      }
    }
  }

  /** A key that joins a full memory costs it its oldest, so the newest stay. */
  lemma TrimKeepsTail(q: seq<OffloadKey>, k: OffloadKey, tail: seq<OffloadKey>, capacity: nat)
    requires |q| <= capacity && |tail| + 1 <= capacity && |tail| <= |q| && q[|q| - |tail|..] == tail
    ensures var r := Trim(q + [k], capacity);
            |tail| + 1 <= |r| && r[|r| - |tail| - 1..] == tail + [k]
  {
    if |q| == capacity {
      assert Trim((q + [k])[1..], capacity) == (q + [k])[1..];
    }
    assert (q + [k])[|q| - |tail|..] == tail + [k];
  }
}

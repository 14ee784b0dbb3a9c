/** S3-FIFO caching (small, main and ghost queue) as the benchmarks replay it. */
module S3FifoPolicy {
  import opened Sequences
  import opened Numbers

  /** A key with its use count. */
  type Entry = (int, nat)

  datatype S3 = S3(
    smallCap: nat,
    mainCap: nat,
    ghostCap: nat,
    small: seq<Entry>,
    main: seq<Entry>,
    ghosts: seq<int>)

  function Make(capacity: nat): S3
    requires capacity > 0
  {
    var smallCap := if capacity / 10 > 1 then capacity / 10 else 1;
    S3(smallCap, capacity - smallCap, capacity * 2, [], [], [])
  }

  // ------------------------------------------------ counting keys

  ghost function Seen(q: seq<Entry>, x: int): nat {
    Count(Ids(q), x)
  }

  lemma SeenPop(q: seq<Entry>, x: int)
    requires q != []
    ensures Seen(q, x) == (if q[0].0 == x then 1 else 0) + Seen(q[1..], x)
  {
    CountPop(Ids(q), x);
    assert Ids(q)[1..] == Ids(q[1..]);
  }

  lemma SeenPush(q: seq<Entry>, e: Entry, x: int)
    ensures Seen(q + [e], x) == Seen(q, x) + (if e.0 == x then 1 else 0)
  {
    CountPush(Ids(q), e.0, x);
    assert Ids(q + [e]) == Ids(q) + [e.0];
  }

  /** How often a key is resident: once or not at all. */
  ghost function Held(p: S3, x: int): nat {
    Seen(p.small, x) + Seen(p.main, x)
  }

  /** The queues are within their capacities and no key is in two places. */
  ghost predicate Sound(p: S3) {
    |p.small| <= p.smallCap && |p.main| <= p.mainCap && |p.ghosts| <= p.ghostCap &&
    forall x :: Held(p, x) + Count(p.ghosts, x) <= 1
  }

  // ------------------------------------------------ the main queue

  ghost function Uses(q: seq<Entry>): nat {
    if q == [] then 0 else q[0].1 + Uses(q[1..])
  }

  lemma {:induction false} UsesPush(q: seq<Entry>, e: Entry)
    ensures Uses(q + [e]) == Uses(q) + e.1
  {
    if q == [] {
      assert q + [e] == [e];
    } else {
      UsesPush(q[1..], e);
      assert (q + [e])[1..] == q[1..] + [e];
    }
  }

  datatype Drained = Drained(main: seq<Entry>, evicted: seq<int>)

  /** Second chance: reused keys go round again until the queue fits. */
  function Drain(main: seq<Entry>, cap: nat): Drained
    decreases Uses(main), |main|
  {
    if |main| <= cap then Drained(main, [])
    else
      var e, rest := main[0], main[1..];
      if e.1 > 0 then
        UsesPush(rest, (e.0, e.1 - 1));
        Drain(rest + [(e.0, e.1 - 1)], cap)
      else
        var d := Drain(rest, cap);
        Drained(d.main, [e.0] + d.evicted)
  }

  /** Draining loses no key: each stays or is evicted, and only the excess is evicted. */
  lemma {:induction false} DrainFacts(main: seq<Entry>, cap: nat, x: int)
    ensures var d := Drain(main, cap);
            Seen(d.main, x) + Count(d.evicted, x) == Seen(main, x) &&
            |d.main| + |d.evicted| == |main| && |d.main| <= cap && (|main| >= cap ==> |d.main| == cap)
    decreases Uses(main), |main|
  {
    if |main| > cap {
      var e, rest := main[0], main[1..];
      SeenPop(main, x);
      if e.1 > 0 {
        UsesPush(rest, (e.0, e.1 - 1));
        SeenPush(rest, (e.0, e.1 - 1), x);
        DrainFacts(rest + [(e.0, e.1 - 1)], cap, x);
      } else {
        DrainFacts(rest, cap, x);
        var d := Drain(rest, cap);
        CountPop([e.0] + d.evicted, x);
        assert ([e.0] + d.evicted)[1..] == d.evicted;
      }
    }
  }

  // ------------------------------------------------ admission

  datatype Admission = Admission(policy: S3, evicted: seq<int>)

  /** A dictionary keeps the place of a key that it already holds. */
  function Remember(ghosts: seq<int>, v: int, cap: nat): seq<int> {
    Trim(if v in ghosts then ghosts else ghosts + [v], cap)
  }

  lemma {:induction false} TrimFacts(ghosts: seq<int>, cap: nat, x: int)
    ensures |Trim(ghosts, cap)| <= cap && Count(Trim(ghosts, cap), x) <= Count(ghosts, x)
  {
    if |ghosts| > cap {
      CountPop(ghosts, x);
      TrimFacts(ghosts[1..], cap, x);
    }
  }

  function InsertMain(p: S3, k: int): Admission {
    var d := Drain(p.main + [(k, 0)], p.mainCap);
    Admission(p.(main := d.main), d.evicted)
  }

  /** Reused keys of an overfull small queue move to the main queue; the others are evicted
      and remembered as ghosts. */
  function DrainSmall(p: S3): Admission
    decreases |p.small|
  {
    if |p.small| <= p.smallCap then Admission(p, [])
    else
      var e, rest := p.small[0], p.(small := p.small[1..]);
      var first := if e.1 > 0 then InsertMain(rest, e.0)
                   else Admission(rest.(ghosts := Remember(p.ghosts, e.0, p.ghostCap)), [e.0]);
      var second := DrainSmall(first.policy);
      Admission(second.policy, first.evicted + second.evicted)
  }

  function InsertSmall(p: S3, k: int): Admission {
    DrainSmall(p.(small := p.small + [(k, 0)]))
  }

  ghost predicate SameCaps(p: S3, q: S3) {
    q.smallCap == p.smallCap && q.mainCap == p.mainCap && q.ghostCap == p.ghostCap
  }

  predicate Contains(p: S3, k: int) {
    k in Ids(p.small) || k in Ids(p.main)
  }

  function Admit(p: S3, k: int): Admission {
    if Contains(p, k) then Admission(p, [])
    else if k in p.ghosts then InsertMain(p.(ghosts := Without(p.ghosts, k)), k)
    else InsertSmall(p, k)
  }

  lemma InsertMainFacts(p: S3, k: int, x: int)
    ensures var a := InsertMain(p, k);
            Held(a.policy, x) + Count(a.evicted, x) == Held(p, x) + (if x == k then 1 else 0) &&
            |a.policy.main| <= p.mainCap && (|p.main| <= p.mainCap ==> |a.evicted| <= 1)
  {
    SeenPush(p.main, (k, 0), x);
    DrainFacts(p.main + [(k, 0)], p.mainCap, x);
  }

  /** With one key too many, the small queue passes on exactly its oldest key. */
  lemma DrainSmallOnce(p: S3)
    requires |p.small| == p.smallCap + 1
    ensures var e, rest := p.small[0], p.(small := p.small[1..]);
            DrainSmall(p) == if e.1 > 0 then InsertMain(rest, e.0)
                             else Admission(rest.(ghosts := Remember(p.ghosts, e.0, p.ghostCap)), [e.0])
  {
    var e, rest := p.small[0], p.(small := p.small[1..]);
    var first := if e.1 > 0 then InsertMain(rest, e.0)
                 else Admission(rest.(ghosts := Remember(p.ghosts, e.0, p.ghostCap)), [e.0]);
    assert DrainSmall(first.policy) == Admission(first.policy, []);
    assert first.evicted + [] == first.evicted;
  }

  lemma RememberFacts(ghosts: seq<int>, v: int, cap: nat, x: int)
    ensures |Remember(ghosts, v, cap)| <= cap
    ensures Count(Remember(ghosts, v, cap), x) <= Count(ghosts, x) + (if x == v then 1 else 0)
  {
    CountPush(ghosts, v, x);
    TrimFacts(if v in ghosts then ghosts else ghosts + [v], cap, x);
  }

  lemma InsertSmallFacts(p: S3, k: int, x: int)
    requires |p.small| <= p.smallCap && |p.main| <= p.mainCap && |p.ghosts| <= p.ghostCap
    ensures var a := InsertSmall(p, k);
            Held(a.policy, x) + Count(a.evicted, x) == Held(p, x) + (if x == k then 1 else 0) &&
            Held(a.policy, x) + Count(a.policy.ghosts, x) <= Held(p, x) + Count(p.ghosts, x) +
            (if x == k then 1 else 0) &&
            |a.policy.small| <= p.smallCap && |a.policy.main| <= p.mainCap && |a.policy.ghosts| <= p.ghostCap &&
            SameCaps(p, a.policy) && |a.evicted| <= 1
  {
    var q := p.(small := p.small + [(k, 0)]);
    SeenPush(p.small, (k, 0), x);
    if |q.small| > q.smallCap {
      DrainSmallOnce(q);
      SeenPop(q.small, x);
      var e, rest := q.small[0], q.(small := q.small[1..]);
      if e.1 > 0 {
        InsertMainFacts(rest, e.0, x);
      } else {
        RememberFacts(p.ghosts, e.0, p.ghostCap, x);
      }
    }
  }

  /** Admission keeps the queues disjoint and within bounds, and calls back for exactly the
      key that leaves, at most one. */
  lemma AdmitFacts(p: S3, k: int)
    requires Sound(p)
    ensures var a := Admit(p, k);
            Sound(a.policy) && SameCaps(p, a.policy) && |a.evicted| <= 1 &&
            forall x :: Held(a.policy, x) + Count(a.evicted, x) ==
              Held(p, x) + (if x == k && Held(p, k) == 0 then 1 else 0)
  {
    var a := Admit(p, k);
    CountIn(Ids(p.small), k);
    CountIn(Ids(p.main), k);
    CountIn(p.ghosts, k);
    WithoutShorter(p.ghosts, k);
    InsertSmallFacts(p, k, 0);
    InsertMainFacts(p.(ghosts := Without(p.ghosts, k)), k, 0);
    forall x
      ensures Held(a.policy, x) + Count(a.policy.ghosts, x) <= 1
      ensures Held(a.policy, x) + Count(a.evicted, x) == Held(p, x) + (if x == k && Held(p, k) == 0 then 1 else 0)
    {
      assert Held(p, x) + Count(p.ghosts, x) <= 1;
      if !Contains(p, k) && k in p.ghosts {
        CountWithout(p.ghosts, k, x);
        InsertMainFacts(p.(ghosts := Without(p.ghosts, k)), k, x);
      } else if !Contains(p, k) {
        InsertSmallFacts(p, k, x);
      }
    }
  }

  lemma {:induction false} WithoutShorter(q: seq<int>, k: int)
    ensures |Without(q, k)| <= |q|
  {
    if q != [] {
      WithoutShorter(q[1..], k);
    }
  }

  // ------------------------------------------------ access

  /** One more use of a key, up to three. */
  function Bump(q: seq<Entry>, k: int): seq<Entry> {
    seq(|q|, i requires 0 <= i < |q| => if q[i].0 == k then (k, if q[i].1 < 3 then q[i].1 + 1 else 3) else q[i])
  }

  function Touch(p: S3, k: int): S3 {
    if k in Ids(p.small) then p.(small := Bump(p.small, k))
    else p.(main := Bump(p.main, k))
  }

  function Access(p: S3, k: int): Admission {
    if Contains(p, k) then Admission(Touch(p, k), []) else Admit(p, k)
  }

  function Remove(p: S3, k: int): S3 {
    if k in Ids(p.small) then p.(small := Drop(p.small, k)) else p.(main := Drop(p.main, k))
  }

  lemma RemoveFacts(p: S3, k: int)
    requires Sound(p)
    ensures Sound(Remove(p, k)) && SameCaps(p, Remove(p, k))
    ensures forall x :: Held(Remove(p, k), x) == if x == k then 0 else Held(p, x)
  {
    DropIds(p.small, k);
    DropIds(p.main, k);
    WithoutShorter(Ids(p.small), k);
    WithoutShorter(Ids(p.main), k);
    forall x ensures Held(Remove(p, k), x) == if x == k then 0 else Held(p, x) {
      CountWithout(Ids(p.small), k, x);
      CountWithout(Ids(p.main), k, x);
      CountIn(Ids(p.small), k);
      assert Held(p, x) + Count(p.ghosts, x) <= 1;
    }
  }

  /** Whether there is room for a key: in the main queue if its ghost is remembered; otherwise
      in the small queue, or in the main queue if the key that must make way was used. */
  predicate Room(p: S3, k: int) {
    Contains(p, k) ||
    (if k in p.ghosts then |p.main| < p.mainCap
     else |p.small| < p.smallCap || (p.small != [] && p.small[0].1 > 0 && |p.main| < p.mainCap))
  }

  /** Admission evicts nothing exactly when there is room. */
  lemma AdmitRoom(p: S3, k: int)
    requires Sound(p)
    ensures Admit(p, k).evicted == [] <==> Room(p, k)
  {
    if !Contains(p, k) {
      if k in p.ghosts {
        InsertMainRoom(p.(ghosts := Without(p.ghosts, k)), k);
      } else {
        var q := p.(small := p.small + [(k, 0)]);
        if |q.small| > p.smallCap {
          DrainSmallOnce(q);
          InsertMainRoom(q.(small := q.small[1..]), q.small[0].0);
        }
      }
    }
  }

  lemma InsertMainRoom(p: S3, k: int)
    requires |p.main| <= p.mainCap
    ensures InsertMain(p, k).evicted == [] <==> |p.main| < p.mainCap
  {
    DrainFacts(p.main + [(k, 0)], p.mainCap, k);
  }

  lemma TouchFacts(p: S3, k: int)
    requires Sound(p)
    ensures Sound(Touch(p, k)) && SameCaps(p, Touch(p, k)) && forall x :: Held(Touch(p, k), x) == Held(p, x)
  {
    assert Ids(Bump(p.small, k)) == Ids(p.small) && Ids(Bump(p.main, k)) == Ids(p.main);
    forall x ensures Held(Touch(p, k), x) == Held(p, x) && Held(Touch(p, k), x) + Count(p.ghosts, x) <= 1 {
      assert Held(p, x) + Count(p.ghosts, x) <= 1;
    }
  }

  /** A touch counts one use, up to three, for its key and for no other, and moves nothing. */
  lemma TouchCounts(p: S3, k: int)
    requires Sound(p)
    ensures var t := Touch(p, k);
            CountedIn(p.small, t.small, k) && CountedIn(p.main, t.main, k) && t.ghosts == p.ghosts
  {
    assert Held(p, k) <= 1;
    CountIn(Ids(p.small), k);
    CountIn(Ids(p.main), k);
    forall i | 0 <= i < |p.small| ensures p.small[i].0 == k ==> k in Ids(p.small) {
      assert Ids(p.small)[i] == p.small[i].0;
    }
    forall i | 0 <= i < |p.main| ensures p.main[i].0 == k ==> k in Ids(p.main) {
      assert Ids(p.main)[i] == p.main[i].0;
    }
  }

  ghost predicate CountedIn(q: seq<Entry>, t: seq<Entry>, k: int) {
    |t| == |q| &&
    forall i :: 0 <= i < |q| ==> t[i].0 == q[i].0 && t[i].1 == if q[i].0 == k then Min(q[i].1 + 1, 3) else q[i].1
  }

  // ------------------------------------------------ second chances

  /** The entries with so many uses taken from each. */
  ghost function Lower(q: seq<Entry>, n: nat): seq<Entry>
    requires forall i :: 0 <= i < |q| ==> q[i].1 >= n
  {
    seq(|q|, i requires 0 <= i < |q| => (q[i].0, q[i].1 - n))
  }

  ghost predicate Above(q: seq<Entry>, n: nat) {
    forall i :: 0 <= i < |q| ==> q[i].1 >= n
  }

  /** Second chances, exactly: of a queue with one key too many, the first of the least used leaves. Every round
      costs each key one use, and the queue has turned to just behind it. */
  lemma {:induction false} SecondChances(a: seq<Entry>, v: Entry, b: seq<Entry>)
    requires Above(a, v.1 + 1) && Above(b, v.1)
    ensures Drain(a + [v] + b, |a| + |b|) == Drained(Lower(b, v.1) + Lower(a, v.1 + 1), [v.0])
    decreases v.1, |a|
  {
    var q, cap := a + [v] + b, |a| + |b|;
    if a == [] {
      assert q[0] == v && q[1..] == b;
      if v.1 == 0 {
        assert Lower(b, 0) == b && Lower(a, 1) == [];
        assert Drain(b, cap) == Drained(b, []);
      } else {
        var u := (v.0, v.1 - 1);
        UsesPush(b, u);
        SecondChances(b, u, []);
        assert b + [u] == b + [u] + [];
        assert Lower([], u.1) + Lower(b, u.1 + 1) == Lower(b, v.1) + Lower(a, v.1 + 1);
      }
    } else {
      var u, rest := (a[0].0, a[0].1 - 1), a[1..];
      assert q[0] == a[0] && q[1..] == rest + [v] + b;
      UsesPush(q[1..], u);
      SecondChances(rest, v, b + [u]);
      assert q[1..] + [u] == rest + [v] + (b + [u]);
      assert Lower(b + [u], v.1) + Lower(rest, v.1 + 1) == Lower(b, v.1) + Lower(a, v.1 + 1);
    }
  }

  /** Where a new key goes, and what makes way for it: a ghost enters the main queue; any other key enters the
      small queue, whose oldest key leaves it if it is full: to the main queue if it was used, else as a ghost. */
  lemma AdmitPlaces(p: S3, k: int)
    requires Sound(p) && !Contains(p, k)
    ensures var a := Admit(p, k);
            var o := a.policy;
            if k in p.ghosts then
              o.small == p.small && k !in o.ghosts &&
              (|p.main| < p.mainCap ==> o.main == p.main + [(k, 0)] && a.evicted == [])
            else if |p.small| < p.smallCap then
              o == p.(small := p.small + [(k, 0)]) && a.evicted == []
            else
              var e := (p.small + [(k, 0)])[0];
              o.small == (p.small + [(k, 0)])[1..] &&
              if e.1 == 0 then a.evicted == [e.0] && o.main == p.main && o.ghosts == Remember(p.ghosts, e.0, p.ghostCap)
              else o.ghosts == p.ghosts && (|p.main| < p.mainCap ==> o.main == p.main + [(e.0, 0)] && a.evicted == [])
  {
    if k in p.ghosts {
      CountIn(p.ghosts, k);
      CountWithout(p.ghosts, k, k);
      CountIn(Without(p.ghosts, k), k);
    } else if |p.small| >= p.smallCap {
      DrainSmallOnce(p.(small := p.small + [(k, 0)]));
    }
  }

  ghost function AccessAll(p: S3, trace: seq<int>): S3 {
    if trace == [] then p else Access(AccessAll(p, trace[..|trace| - 1]), trace[|trace| - 1]).policy
  }

  /** After any trace, the queues are pairwise disjoint and within their capacities, so at
      most `capacity` keys are resident. */
  lemma {:induction false} AccessAllOk(capacity: nat, trace: seq<int>)
    requires capacity > 0
    ensures var p := AccessAll(Make(capacity), trace);
            Sound(p) && SameCaps(Make(capacity), p) && |p.small| + |p.main| <= capacity
  {
    if trace == [] {
      forall x ensures Held(Make(capacity), x) + Count(Make(capacity).ghosts, x) <= 1 {
        CountIn(Ids(Make(capacity).small), x);
      }
    } else {
      var before, k := AccessAll(Make(capacity), trace[..|trace| - 1]), trace[|trace| - 1];
      AccessAllOk(capacity, trace[..|trace| - 1]);
      AdmitFacts(before, k);
      TouchFacts(before, k);
    }
  }

  // ------------------------------------------------ scan resistance

  ghost predicate Unused(q: seq<Entry>) {
    forall i :: 0 <= i < |q| ==> q[i].1 == 0
  }

  ghost predicate Unknown(p: S3, k: int) {
    k !in Ids(p.small) && k !in Ids(p.main) && k !in p.ghosts
  }

  /** Admitting an unknown key while no small-queue key was reused leaves the main queue alone. */
  lemma ScanStep(p: S3, k: int)
    requires Sound(p) && Unused(p.small) && Unknown(p, k)
    ensures var q := Access(p, k).policy;
            q.main == p.main && Unused(q.small) && forall j :: j != k && Unknown(p, j) ==> Unknown(q, j)
  {
    var q := p.(small := p.small + [(k, 0)]);
    if |q.small| > q.smallCap {
      DrainSmallOnce(q);
      var e, rest := q.small[0], q.small[1..];
      forall j | j != k && Unknown(p, j) ensures Unknown(Access(p, k).policy, j) {
        assert Ids(q.small) == Ids(p.small) + [k] && Ids(rest) == Ids(q.small)[1..];
        assert e.0 == Ids(q.small)[0];
      }
    } else {
      assert Ids(q.small) == Ids(p.small) + [k];
    }
  }

  /** Scan resistance: a scan of any length over distinct unknown keys, every one a miss, leaves
      the main queue's keys, order and use counts exactly as they were. */
  lemma {:induction false} ScanResistant(p: S3, scan: seq<int>)
    requires Sound(p) && Unused(p.small) && NoDup(scan) && forall i :: 0 <= i < |scan| ==> Unknown(p, scan[i])
    ensures var q := AccessAll(p, scan);
            q.main == p.main && Sound(q) && Unused(q.small) && forall j :: j !in scan && Unknown(p, j) ==> Unknown(q, j)
  {
    if scan != [] {
      var last := |scan| - 1;
      var before := AccessAll(p, scan[..last]);
      ScanResistant(p, scan[..last]);
      assert scan[last] !in scan[..last];
      AdmitFacts(before, scan[last]);
      ScanStep(before, scan[last]);
    }
  }

  // ------------------------------------------------ the policy object

  class S3Fifo {
    const smallCap: nat
    const mainCap: nat
    const ghostCap: nat
    var small: seq<Entry>
    var main: seq<Entry>
    var ghosts: seq<int>

    ghost function View(): S3
      reads this
    {
      S3(smallCap, mainCap, ghostCap, small, main, ghosts)
    }

    constructor (capacity: nat)
      requires capacity > 0
      ensures View() == Make(capacity) && Sound(View())
    {
      AccessAllOk(capacity, []);
      smallCap := Make(capacity).smallCap;
      mainCap := Make(capacity).mainCap;
      ghostCap := Make(capacity).ghostCap;
      small, main, ghosts := [], [], [];
    }

    method InsertIntoMain(k: int) returns (evicted: seq<int>)
      modifies this`main
      ensures Admission(View(), evicted) == InsertMain(old(View()), k)
    {
      main := main + [(k, 0)];
      evicted := [];
      ghost var goal := Drain(main, mainCap);
      while |main| > mainCap
        invariant Drained(Drain(main, mainCap).main, evicted + Drain(main, mainCap).evicted) == goal
        decreases Uses(main), |main|
      {
        var e, rest := main[0], main[1..];
        if e.1 > 0 {
          UsesPush(rest, (e.0, e.1 - 1));
          main := rest + [(e.0, e.1 - 1)];
        } else {
          ghost var later := Drain(rest, mainCap).evicted;
          assert evicted + ([e.0] + later) == (evicted + [e.0]) + later;
          main, evicted := rest, evicted + [e.0];
        }
      }
    }

    method InsertIntoSmall(k: int) returns (evicted: seq<int>)
      modifies this`small, this`main, this`ghosts
      ensures Admission(View(), evicted) == InsertSmall(old(View()), k)
    {
      small := small + [(k, 0)];
      evicted := [];
      ghost var goal := DrainSmall(View());
      while |small| > smallCap
        invariant Admission(DrainSmall(View()).policy, evicted + DrainSmall(View()).evicted) == goal
        decreases |small|
      {
        var e, before := small[0], evicted;
        var out;
        small := small[1..];
        if e.1 > 0 {
          out := InsertIntoMain(e.0);
        } else {
          RememberKey(e.0);
          out := [e.0];
        }
        ghost var later := DrainSmall(View()).evicted;
        assert before + (out + later) == (before + out) + later;
        evicted := evicted + out;
      }
    }

    method RememberKey(v: int)
      modifies this`ghosts
      ensures ghosts == Remember(old(ghosts), v, ghostCap)
    {
      if v !in ghosts {
        ghosts := ghosts + [v];
      }
      while |ghosts| > ghostCap
        invariant Trim(ghosts, ghostCap) == Remember(old(ghosts), v, ghostCap)
        decreases |ghosts|
      {
        ghosts := ghosts[1..];
      }
    }

    /** Admit a key; the result lists the keys the eviction callback is called for. */
    method AdmitKey(k: int) returns (evicted: seq<int>)
      requires Sound(View())
      modifies this
      ensures Admission(View(), evicted) == Admit(old(View()), k) && Sound(View()) && |evicted| <= 1
    {
      AdmitFacts(View(), k);
      if k in Ids(small) || k in Ids(main) {
        return [];
      }
      if k in ghosts {
        ghosts := Without(ghosts, k);
        evicted := InsertIntoMain(k);
      } else {
        evicted := InsertIntoSmall(k);
      }
    }

    method AccessKey(k: int) returns (hit: bool, evicted: seq<int>)
      requires Sound(View())
      modifies this
      ensures hit == Contains(old(View()), k) && Admission(View(), evicted) == Access(old(View()), k) && Sound(View())
    {
      TouchFacts(View(), k);
      if k in Ids(small) {
        small := Bump(small, k);
        return true, [];
      }
      if k in Ids(main) {
        main := Bump(main, k);
        return true, [];
      }
      evicted := AdmitKey(k);
      hit := false;
    }
  }
}

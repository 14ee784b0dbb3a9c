/** The S3-FIFO eviction policy plugged into vLLM's CPU offloading manager: batch
    eviction that either frees exactly the requested number of blocks or none. */
module OffloadPolicy {
  import opened Blocks
  import opened Sequences
  import opened Numbers

  type OffloadKey = nat

  datatype BlockStatus = BlockStatus(blockId: nat, refCount: int)

  const FREQ_CAP: nat := 3

  // ------------------------------------------------ the search for victims

  /** The queues during a search: what is still queued, what was set aside because it may
      not be evicted, and the victims so far, each with the queue it came from. */
  datatype Search = Search(
    small: seq<OffloadKey>,
    main: seq<OffloadKey>,
    freq: map<OffloadKey, nat>,
    skippedSmall: seq<OffloadKey>,
    skippedMain: seq<OffloadKey>,
    victims: seq<(OffloadKey, bool)>)

  /** Which keys a batch may take. */
  datatype Rules = Rules(budget: nat, protected: set<OffloadKey>, evictable: set<OffloadKey>) {
    predicate Allows(k: OffloadKey) {
      k !in protected && k in evictable
    }
  }

  function FreqOf(freq: map<OffloadKey, nat>, k: OffloadKey): nat {
    if k in freq then freq[k] else 0
  }

  ghost function FreqSum(freq: map<OffloadKey, nat>): nat
    decreases |freq|
  {
    if freq == map[] then 0 else
      var k :| k in freq;
      assert (freq - {k}).Keys == freq.Keys - {k};
      freq[k] + FreqSum(freq - {k})
  }

  lemma {:induction false} FreqSumRemove(freq: map<OffloadKey, nat>, k: OffloadKey)
    requires k in freq
    ensures FreqSum(freq) == freq[k] + FreqSum(freq - {k})
    decreases |freq|
  {
    var first :| first in freq && FreqSum(freq) == freq[first] + FreqSum(freq - {first});
    if first != k {
      assert (freq - {k}).Keys == freq.Keys - {k} && (freq - {first}).Keys == freq.Keys - {first};
      FreqSumRemove(freq - {first}, k);
      FreqSumRemove(freq - {k}, first);
      assert freq - {first} - {k} == freq - {k} - {first};
    }
  }

  lemma FreqSumLess(freq: map<OffloadKey, nat>, k: OffloadKey, n: nat)
    requires k in freq && n < freq[k]
    ensures FreqSum(freq[k := n]) < FreqSum(freq)
  {
    FreqSumRemove(freq, k);
    FreqSumRemove(freq[k := n], k);
    assert freq[k := n] - {k} == freq - {k};
  }

  predicate FromSmall(s: Search, rules: Rules) {
    (|s.small| > rules.budget && s.small != []) || s.main == []
  }

  /** The search reaches its end when it has enough victims or both queues are empty. */
  predicate Finished(s: Search, rules: Rules, n: int) {
    |s.victims| >= n || (s.small == [] && s.main == [])
  }

  /** The front key of the small queue is promoted if reused, set aside, or taken. */
  function AdvanceSmall(s: Search, rules: Rules): Search
    requires s.small != []
  {
    var k, t := s.small[0], s.(small := s.small[1..]);
    if FreqOf(s.freq, k) > 0 then t.(freq := s.freq[k := 0], main := s.main + [k])
    else if !rules.Allows(k) then t.(skippedSmall := s.skippedSmall + [k])
    else t.(victims := s.victims + [(k, true)])
  }

  /** The front key of the main queue goes round again if reused, is set aside, or taken. */
  function AdvanceMain(s: Search, rules: Rules): Search
    requires s.main != []
  {
    var k, t := s.main[0], s.(main := s.main[1..]);
    if FreqOf(s.freq, k) > 0 then t.(freq := s.freq[k := s.freq[k] - 1], main := s.main[1..] + [k])
    else if !rules.Allows(k) then t.(skippedMain := s.skippedMain + [k])
    else t.(victims := s.victims + [(k, false)])
  }

  function Advance(s: Search, rules: Rules): Search
    requires s.small != [] || s.main != []
  {
    if FromSmall(s, rules) then AdvanceSmall(s, rules) else AdvanceMain(s, rules)
  }

  /** The search terminates: a reused key spends a use, any other key leaves the queues. */
  lemma AdvanceDecreases(s: Search, rules: Rules)
    requires s.small != [] || s.main != []
    ensures var t := Advance(s, rules);
            FreqSum(t.freq) < FreqSum(s.freq) ||
            (t.freq == s.freq && |t.small| + |t.main| < |s.small| + |s.main|)
  {
    var k := if FromSmall(s, rules) then s.small[0] else s.main[0];
    if FreqOf(s.freq, k) > 0 {
      FreqSumLess(s.freq, k, if FromSmall(s, rules) then 0 else s.freq[k] - 1);
    }
  }

  ghost function Finish(s: Search, rules: Rules, n: int): Search
    decreases FreqSum(s.freq), |s.small| + |s.main|
  {
    if Finished(s, rules, n) then s
    else
      AdvanceDecreases(s, rules);
      Finish(Advance(s, rules), rules, n)
  }

  function KeysOf(victims: seq<(OffloadKey, bool)>): (r: seq<OffloadKey>)
    ensures |r| == |victims| && forall i :: 0 <= i < |r| ==> r[i] == victims[i].0
  {
    seq(|victims|, i requires 0 <= i < |victims| => victims[i].0)
  }

  /** The victims taken from the small queue, or those taken from the main queue. */
  function From(victims: seq<(OffloadKey, bool)>, small: bool): seq<OffloadKey> {
    if victims == [] then []
    else
      var rest, v := From(victims[..|victims| - 1], small), victims[|victims| - 1];
      if v.1 == small then rest + [v.0] else rest
  }

  /** How often the search handles a key, wherever the key is now. */
  ghost function Held(s: Search, x: OffloadKey): nat {
    Count(s.small, x) + Count(s.main, x) + Count(s.skippedSmall, x) + Count(s.skippedMain, x) +
    Count(KeysOf(s.victims), x)
  }

  /** What was set aside may not be evicted; what was taken may. */
  ghost predicate Sorted(s: Search, rules: Rules) {
    (forall k :: k in s.skippedSmall ==> !rules.Allows(k)) &&
    (forall k :: k in s.skippedMain ==> !rules.Allows(k)) &&
    (forall k :: k in KeysOf(s.victims) ==> rules.Allows(k))
  }

  lemma KeysOfPush(victims: seq<(OffloadKey, bool)>, v: (OffloadKey, bool))
    ensures KeysOf(victims + [v]) == KeysOf(victims) + [v.0]
  {
  }

  lemma AdvanceSmallHeld(s: Search, rules: Rules, x: OffloadKey)
    requires s.small != []
    ensures Held(AdvanceSmall(s, rules), x) == Held(s, x)
  {
    var k := s.small[0];
    CountPop(s.small, x);
    CountPush(s.main, k, x);
    CountPush(s.skippedSmall, k, x);
    CountPush(KeysOf(s.victims), k, x);
    KeysOfPush(s.victims, (k, true));
  }

  lemma AdvanceMainHeld(s: Search, rules: Rules, x: OffloadKey)
    requires s.main != []
    ensures Held(AdvanceMain(s, rules), x) == Held(s, x)
  {
    var k := s.main[0];
    CountPop(s.main, x);
    CountPush(s.main[1..], k, x);
    CountPush(s.skippedMain, k, x);
    CountPush(KeysOf(s.victims), k, x);
    KeysOfPush(s.victims, (k, false));
  }

  lemma AdvanceHeld(s: Search, rules: Rules, x: OffloadKey)
    requires s.small != [] || s.main != []
    ensures Held(Advance(s, rules), x) == Held(s, x)
  {
    if FromSmall(s, rules) {
      AdvanceSmallHeld(s, rules, x);
    } else {
      AdvanceMainHeld(s, rules, x);
    }
  }

  lemma AdvanceSorted(s: Search, rules: Rules)
    requires (s.small != [] || s.main != []) && Sorted(s, rules)
    ensures Sorted(Advance(s, rules), rules) && Advance(s, rules).freq.Keys == s.freq.Keys
  {
    var k := if FromSmall(s, rules) then s.small[0] else s.main[0];
    KeysOfPush(s.victims, (k, FromSmall(s, rules)));
  }

  /** No key is lost or duplicated, and the search gives up only with every key decided. */
  lemma {:induction false} FinishKeeps(s: Search, rules: Rules, n: int)
    requires Sorted(s, rules)
    ensures var t := Finish(s, rules, n);
            (forall x: OffloadKey :: Held(t, x) == Held(s, x)) &&
            Sorted(t, rules) && Finished(t, rules, n) && t.freq.Keys == s.freq.Keys
    ensures |s.victims| <= n ==> |Finish(s, rules, n).victims| <= n
    decreases FreqSum(s.freq), |s.small| + |s.main|
  {
    if !Finished(s, rules, n) {
      AdvanceDecreases(s, rules);
      forall x: OffloadKey { AdvanceHeld(s, rules, x); }
      AdvanceSorted(s, rules);
      FinishKeeps(Advance(s, rules), rules, n);
    }
  }

  lemma {:induction false} FromSplits(victims: seq<(OffloadKey, bool)>, x: OffloadKey)
    ensures Count(From(victims, true), x) + Count(From(victims, false), x) == Count(KeysOf(victims), x)
  {
    if victims != [] {
      var last := |victims| - 1;
      FromSplits(victims[..last], x);
      assert KeysOf(victims) == KeysOf(victims[..last]) + [victims[last].0];
    } else {
      assert KeysOf(victims) == [];
    }
  }

  // ------------------------------------------------ the policy's state

  datatype Cache = Cache(
    smallBudget: nat,
    ghostCapacity: nat,
    blocks: map<OffloadKey, BlockStatus>,
    small: seq<OffloadKey>,
    main: seq<OffloadKey>,
    freq: map<OffloadKey, nat>,
    evictable: set<OffloadKey>,
    history: seq<OffloadKey>)

  /** The two queues partition the resident keys; the ghost queue remembers other keys. */
  ghost predicate Valid(c: Cache) {
    (forall x: OffloadKey :: Count(c.small, x) + Count(c.main, x) == if x in c.blocks then 1 else 0) &&
    c.freq.Keys == c.blocks.Keys &&
    NoDup(c.history) && |c.history| <= c.ghostCapacity && forall k :: k in c.history ==> k !in c.blocks
  }

  /** The resident keys that a batch may evict. */
  ghost function Eligible(c: Cache, protected: set<OffloadKey>): set<OffloadKey> {
    set k | k in c.blocks && k in c.evictable && k !in protected
  }

  function Remember(history: seq<OffloadKey>, k: OffloadKey, capacity: nat): seq<OffloadKey> {
    Trim(ToEnd(history, k), capacity)
  }

  /** Only victims of the small queue are remembered. */
  function RememberAll(history: seq<OffloadKey>, victims: seq<(OffloadKey, bool)>, capacity: nat): seq<OffloadKey> {
    if victims == [] then history
    else
      var before, v := RememberAll(history, victims[..|victims| - 1], capacity), victims[|victims| - 1];
      if v.1 then Remember(before, v.0, capacity) else before
  }

  ghost function Begin(c: Cache): Search {
    Search(c.small, c.main, c.freq, [], [], [])
  }

  ghost function RulesOf(c: Cache, protected: set<OffloadKey>): Rules {
    Rules(c.smallBudget, protected, c.evictable)
  }

  /** The queues with everything set aside, and on failure the victims, put back in front. */
  ghost function Restore(c: Cache, t: Search, failed: bool): Cache {
    c.(small := t.skippedSmall + (if failed then From(t.victims, true) else []) + t.small,
       main := t.skippedMain + (if failed then From(t.victims, false) else []) + t.main,
       freq := t.freq)
  }

  ghost function Commit(c: Cache, victims: seq<(OffloadKey, bool)>): Cache {
    var gone := Keys(KeysOf(victims));
    c.(blocks := c.blocks - gone, freq := c.freq - gone, evictable := c.evictable - gone,
       history := RememberAll(c.history, victims, c.ghostCapacity))
  }

  ghost function SearchOf(c: Cache, n: int, protected: set<OffloadKey>): Search {
    Finish(Begin(c), RulesOf(c, protected), n)
  }

  /** Whether a batch finds as many victims as asked for. */
  ghost predicate Succeeds(c: Cache, n: int, protected: set<OffloadKey>) {
    n == 0 || |SearchOf(c, n, protected).victims| == n
  }

  ghost function AfterEvict(c: Cache, n: int, protected: set<OffloadKey>): Cache {
    var t := SearchOf(c, n, protected);
    if n == 0 then c
    else if |t.victims| != n then Restore(c, t, true)
    else Commit(Restore(c, t, false), t.victims)
  }

  // ------------------------------------------------ all or nothing

  lemma SearchPartition(c: Cache, n: int, protected: set<OffloadKey>)
    requires Valid(c)
    ensures var t := SearchOf(c, n, protected);
            (forall x: OffloadKey :: Held(t, x) == if x in c.blocks then 1 else 0) &&
            Sorted(t, RulesOf(c, protected)) && Finished(t, RulesOf(c, protected), n) &&
            t.freq.Keys == c.freq.Keys && (0 <= n ==> |t.victims| <= n) && NoDup(KeysOf(t.victims))
  {
    var s, t := Begin(c), SearchOf(c, n, protected);
    assert KeysOf(s.victims) == [];
    FinishKeeps(s, RulesOf(c, protected), n);
    forall x: OffloadKey ensures Held(s, x) == if x in c.blocks then 1 else 0 {
      assert Count(c.small, x) + Count(c.main, x) == if x in c.blocks then 1 else 0;
    }
    forall x | x in KeysOf(t.victims) ensures Count(KeysOf(t.victims), x) == 1 {
      assert Held(t, x) <= 1;
      CountIn(KeysOf(t.victims), x);
    }
    CountNoDup(KeysOf(t.victims));
  }

  /** The victims are eligible, and if the search gave up they are all the eligible keys. */
  lemma VictimsEligible(c: Cache, n: int, protected: set<OffloadKey>)
    requires Valid(c)
    ensures var t := SearchOf(c, n, protected);
            var taken := Keys(KeysOf(t.victims));
            taken <= Eligible(c, protected) && |taken| == |t.victims| &&
            (|t.victims| < n ==> taken == Eligible(c, protected))
  {
    SearchPartition(c, n, protected);
    var t := SearchOf(c, n, protected);
    NoDupCardinality(KeysOf(t.victims));
    forall x | x in KeysOf(t.victims) ensures x in Eligible(c, protected) {
      CountIn(KeysOf(t.victims), x);
      assert Held(t, x) > 0;
    }
    if |t.victims| < n {
      forall x | x in Eligible(c, protected) ensures x in KeysOf(t.victims) {
        assert Held(t, x) == 1;
        CountIn(KeysOf(t.victims), x);
        CountIn(t.skippedSmall, x);
        CountIn(t.skippedMain, x);
      }
    }
  }

  /** Completeness: a batch of `n` succeeds exactly when `n` resident keys may be evicted. */
  lemma EvictComplete(c: Cache, n: int, protected: set<OffloadKey>)
    requires Valid(c)
    ensures Succeeds(c, n, protected) <==> 0 <= n <= |Eligible(c, protected)|
  {
    VictimsEligible(c, n, protected);
    SearchPartition(c, n, protected);
    Subset(Keys(KeysOf(SearchOf(c, n, protected).victims)), Eligible(c, protected));
  }

  lemma RestoreCount(c: Cache, t: Search, failed: bool, x: OffloadKey)
    ensures var r := Restore(c, t, failed);
            Count(r.small, x) + Count(r.main, x) + (if failed then 0 else Count(KeysOf(t.victims), x)) == Held(t, x)
  {
    var small, main := if failed then From(t.victims, true) else [], if failed then From(t.victims, false) else [];
    CountPlus(t.skippedSmall, small, x);
    CountPlus(t.skippedSmall + small, t.small, x);
    CountPlus(t.skippedMain, main, x);
    CountPlus(t.skippedMain + main, t.main, x);
    FromSplits(t.victims, x);
  }

  lemma {:induction false} RememberAllOk(history: seq<OffloadKey>, victims: seq<(OffloadKey, bool)>, capacity: nat)
    requires NoDup(history) && |history| <= capacity
    ensures var r := RememberAll(history, victims, capacity);
            NoDup(r) && |r| <= capacity && forall k :: k in r ==> k in history || k in KeysOf(victims)
  {
    if victims != [] {
      var last := |victims| - 1;
      RememberAllOk(history, victims[..last], capacity);
      var before := RememberAll(history, victims[..last], capacity);
      assert forall k :: k in KeysOf(victims[..last]) ==> k in KeysOf(victims);
      assert KeysOf(victims)[last] == victims[last].0;
      ToEndFacts(before, victims[last].0);
      assert forall k :: k in ToEnd(before, victims[last].0) ==> k in Keys(ToEnd(before, victims[last].0));
    }
  }

  /** The queues hold the resident keys, each once, whether or not the batch succeeds. */
  lemma EvictPartition(c: Cache, n: int, protected: set<OffloadKey>)
    requires Valid(c) && n != 0
    ensures var r := AfterEvict(c, n, protected);
            forall x: OffloadKey :: Count(r.small, x) + Count(r.main, x) == if x in r.blocks then 1 else 0
  {
    SearchPartition(c, n, protected);
    var t, r := SearchOf(c, n, protected), AfterEvict(c, n, protected);
    forall x: OffloadKey ensures Count(r.small, x) + Count(r.main, x) == if x in r.blocks then 1 else 0 {
      RestoreCount(c, t, |t.victims| != n, x);
      CountIn(KeysOf(t.victims), x);
      assert Held(t, x) == if x in c.blocks then 1 else 0;
    }
  }

  /** All or nothing: a successful batch removes exactly its victims, `n` distinct eligible
      keys; a failed one leaves residency, evictability and history as they were. Either way
      no key is lost or duplicated across the queues. */
  lemma EvictAllOrNothing(c: Cache, n: int, protected: set<OffloadKey>)
    requires Valid(c)
    ensures var r, t := AfterEvict(c, n, protected), SearchOf(c, n, protected);
            Valid(r) &&
            (!Succeeds(c, n, protected) ==> r == c.(small := r.small, main := r.main, freq := r.freq)) &&
            (Succeeds(c, n, protected) && n != 0 ==>
               var taken := Keys(KeysOf(t.victims));
               taken <= Eligible(c, protected) && |taken| == n && NoDup(KeysOf(t.victims)) &&
               r.blocks == c.blocks - taken && r.evictable == c.evictable - taken)
  {
    if n != 0 {
      SearchPartition(c, n, protected);
      VictimsEligible(c, n, protected);
      EvictPartition(c, n, protected);
      RememberAllOk(c.history, SearchOf(c, n, protected).victims, c.ghostCapacity);
    }
  }

  /** The cache with a block added, and its key at the back of the small queue. */
  ghost function Inserted(c: Cache, key: OffloadKey, block: BlockStatus): Cache {
    c.(blocks := c.blocks[key := block], freq := c.freq[key := 0], history := Without(c.history, key),
       small := if key in c.small then c.small else c.small + [key],
       evictable := if block.refCount == 0 then c.evictable + {key} else c.evictable)
  }

  // ------------------------------------------------ the policy object

  class S3FIFOCachePolicy {
    const smallBudget: nat
    const ghostCapacity: nat
    var blocks: map<OffloadKey, BlockStatus>
    var small: seq<OffloadKey>
    var main: seq<OffloadKey>
    var freq: map<OffloadKey, nat>
    var evictable: set<OffloadKey>
    var history: seq<OffloadKey>

    ghost function View(): Cache
      reads this
    {
      Cache(smallBudget, ghostCapacity, blocks, small, main, freq, evictable, history)
    }

    constructor (capacity: int)
      ensures Valid(View()) && blocks == map[] && evictable == {} && history == []
      ensures smallBudget == Max(1, capacity / 10) && ghostCapacity == Max(1, 2 * capacity)
    {
      smallBudget, ghostCapacity := Max(1, capacity / 10), Max(1, 2 * capacity);
      blocks, small, main, freq, evictable, history := map[], [], [], map[], {}, [];
    }

    /** A new block enters the small queue, even if the ghost queue remembers its key: the
        lookup in the ghost queue yields nothing whether or not the key is there. The queues
        stay a partition exactly when the key was not waiting in the main queue. */
    method Insert(key: OffloadKey, block: BlockStatus)
      modifies this
      ensures blocks == old(blocks)[key := block] && freq == old(freq)[key := 0]
      ensures main == old(main) && small == if key in old(small) then old(small) else old(small) + [key]
      ensures history == Without(old(history), key)
      ensures evictable == if block.refCount == 0 then old(evictable) + {key} else old(evictable)
      ensures old(Valid(View())) ==> (Valid(View()) <==> key !in old(main))
    {
      blocks := blocks[key := block];
      freq := freq[key := 0];
      history := Without(history, key);
      if key !in small {
        small := small + [key];
      }
      if block.refCount == 0 {
        evictable := evictable + {key};
      }
      assert View() == Inserted(old(View()), key, block);
      if old(Valid(View())) {
        InsertPartition(old(View()), key, block);
      }
    }

    /** Forget a resident block; a key that is not resident is refused. */
    method Remove(key: OffloadKey) returns (found: bool)
      requires Valid(View())
      modifies this
      ensures found == (key in old(blocks)) && Valid(View())
      ensures View() == if found then Removed(old(View()), key) else old(View())
    {
      if key !in blocks {
        return false;
      }
      blocks, freq := blocks - {key}, freq - {key};
      small, main := Without(small, key), Without(main, key);
      evictable := evictable - {key};
      assert View() == Removed(old(View()), key);
      RemovePartition(old(View()), key);
      return true;
    }

    /** Every occurrence of a resident key counts one use, up to the cap. */
    method Touch(keys: seq<OffloadKey>)
      modifies this`freq
      ensures freq.Keys == old(freq).Keys && (old(Valid(View())) ==> Valid(View()))
      ensures forall k :: k in freq && old(freq)[k] <= FREQ_CAP ==>
                freq[k] == Min(old(freq)[k] + Count(keys, k), FREQ_CAP)
    {
      for i := 0 to |keys|
        invariant freq.Keys == old(freq).Keys
        invariant forall k :: k in freq && old(freq)[k] <= FREQ_CAP ==>
                    freq[k] == Min(old(freq)[k] + Count(keys[..i], k), FREQ_CAP)
      {
        assert keys[..i + 1] == keys[..i] + [keys[i]];
        if keys[i] in freq {
          freq := freq[keys[i] := Min(freq[keys[i]] + 1, FREQ_CAP)];
        }
      }
      assert keys[..|keys|] == keys;
    }

    /** Evict a batch of `n` blocks, or report that fewer may be evicted. */
    method Evict(n: int, protected: set<OffloadKey>) returns (result: Option<seq<(OffloadKey, BlockStatus)>>)
      requires Valid(View())
      modifies this
      ensures Valid(View()) && View() == AfterEvict(old(View()), n, protected)
      ensures result.Some? <==> 0 <= n <= |Eligible(old(View()), protected)|
      ensures result.Some? ==>
                |result.value| == n &&
                var victims := SearchOf(old(View()), n, protected).victims;
                n != 0 ==> forall i :: 0 <= i < n ==>
                  i < |victims| && victims[i].0 in old(blocks) &&
                  result.value[i] == (victims[i].0, old(blocks)[victims[i].0])
    {
      EvictComplete(View(), n, protected);
      EvictAllOrNothing(View(), n, protected);
      if n == 0 {
        return Some([]);
      }
      var rules := Rules(smallBudget, protected, evictable);
      var victims := FindVictims(n, rules);
      if |victims| != n {
        return None;
      }
      VictimsResident(old(View()), n, protected);
      var evicted := TakeVictims(victims);
      return Some(evicted);
    }

    /** Remove the victims from the cache, in order. */
    method TakeVictims(victims: seq<(OffloadKey, bool)>) returns (evicted: seq<(OffloadKey, BlockStatus)>)
      requires NoDup(KeysOf(victims)) && forall i :: 0 <= i < |victims| ==> victims[i].0 in blocks
      modifies this
      ensures View() == Commit(old(View()), victims)
      ensures |evicted| == |victims| &&
              forall i :: 0 <= i < |victims| ==> evicted[i] == (victims[i].0, old(blocks)[victims[i].0])
    {
      evicted := [];
      assert KeysOf(victims[..0]) == [];
      for i := 0 to |victims|
        invariant |evicted| == i
        invariant forall j :: 0 <= j < i ==> evicted[j] == (victims[j].0, old(blocks)[victims[j].0])
        invariant View() == Commit(old(View()), victims[..i])
      {
        CommitNext(old(View()), victims, i);
        var k := victims[i].0;
        evicted := evicted + [(k, blocks[k])];
        blocks, freq, evictable := blocks - {k}, freq - {k}, evictable - {k};
        if victims[i].1 {
          GhostInsert(k);
        }
      }
      assert victims[..|victims|] == victims;
    }

    /** Search the queues, then put back what may not be evicted, and on failure everything. */
    method FindVictims(n: int, rules: Rules) returns (victims: seq<(OffloadKey, bool)>)
      requires rules.budget == smallBudget
      modifies this`small, this`main, this`freq
      ensures var t := Finish(Begin(old(View())), rules, n);
              victims == t.victims && View() == Restore(old(View()), t, |victims| != n)
    {
      var skippedSmall, skippedMain;
      skippedSmall, skippedMain, victims := SearchQueues(n, rules);
      var failed := |victims| != n;
      small := skippedSmall + (if failed then From(victims, true) else []) + small;
      main := skippedMain + (if failed then From(victims, false) else []) + main;
    }

    /** The search itself, in place. */
    method SearchQueues(n: int, rules: Rules)
      returns (skippedSmall: seq<OffloadKey>, skippedMain: seq<OffloadKey>, victims: seq<(OffloadKey, bool)>)
      requires rules.budget == smallBudget
      modifies this`small, this`main, this`freq
      ensures Search(small, main, freq, skippedSmall, skippedMain, victims) == Finish(Begin(old(View())), rules, n)
    {
      skippedSmall, skippedMain, victims := [], [], [];
      ghost var goal := Finish(Begin(View()), rules, n);
      while |victims| < n
        invariant Finish(Search(small, main, freq, skippedSmall, skippedMain, victims), rules, n) == goal
        decreases FreqSum(freq), |small| + |main|
      {
        ghost var s := Search(small, main, freq, skippedSmall, skippedMain, victims);
        if (|small| > smallBudget && small != []) || main == [] {
          if small == [] {
            break;
          }
          AdvanceDecreases(s, rules);
          var k := small[0];
          small := small[1..];
          if FreqOf(freq, k) > 0 {
            freq := freq[k := 0];
            main := main + [k];
          } else if k in rules.protected || k !in rules.evictable {
            skippedSmall := skippedSmall + [k];
          } else {
            victims := victims + [(k, true)];
          }
        } else {
          AdvanceDecreases(s, rules);
          var k := main[0];
          main := main[1..];
          if FreqOf(freq, k) > 0 {
            freq := freq[k := freq[k] - 1];
            main := main + [k];
          } else if k in rules.protected || k !in rules.evictable {
            skippedMain := skippedMain + [k];
          } else {
            victims := victims + [(k, false)];
          }
        }
        assert Search(small, main, freq, skippedSmall, skippedMain, victims) == Advance(s, rules);
      }
    }

    method GhostInsert(k: OffloadKey)
      modifies this`history
      ensures history == Remember(old(history), k, ghostCapacity)
    {
      history := ToEnd(history, k);
      while |history| > ghostCapacity
        invariant Trim(history, ghostCapacity) == Remember(old(history), k, ghostCapacity)
        decreases |history|
      {
        history := history[1..];
      }
    }
  }

  ghost function Removed(c: Cache, key: OffloadKey): Cache {
    c.(blocks := c.blocks - {key}, freq := c.freq - {key}, evictable := c.evictable - {key},
       small := Without(c.small, key), main := Without(c.main, key))
  }

  lemma RemovePartition(c: Cache, key: OffloadKey)
    requires Valid(c)
    ensures Valid(Removed(c, key))
  {
    forall x: OffloadKey
      ensures Count(Without(c.small, key), x) + Count(Without(c.main, key), x) == if x in c.blocks - {key} then 1 else 0
    {
      assert Count(c.small, x) + Count(c.main, x) == if x in c.blocks then 1 else 0;
      CountWithout(c.small, key, x);
      CountWithout(c.main, key, x);
    }
  }

  /** Inserting keeps the queues a partition exactly when the key is not in the main queue. */
  lemma InsertPartition(c: Cache, key: OffloadKey, block: BlockStatus)
    requires Valid(c)
    ensures Valid(Inserted(c, key, block)) <==> key !in c.main
  {
    var r := Inserted(c, key, block);
    forall x: OffloadKey
      ensures Count(r.small, x) + Count(r.main, x) ==
                (if x in r.blocks then 1 else 0) + (if x == key && x in c.main then 1 else 0)
    {
      InsertCounts(c, key, block, x);
    }
    WithoutNoDup(c.history, key);
    WithoutKeys(c.history, key);
    assert forall k :: k in r.history <==> k in Keys(r.history);
    if key in c.main {
      assert Count(r.small, key) + Count(r.main, key) == 2;
    }
  }

  lemma InsertCounts(c: Cache, key: OffloadKey, block: BlockStatus, x: OffloadKey)
    requires Valid(c)
    ensures var r := Inserted(c, key, block);
            Count(r.small, x) + Count(r.main, x) ==
              (if x in r.blocks then 1 else 0) + (if x == key && x in c.main then 1 else 0)
  {
    assert Count(c.small, x) + Count(c.main, x) == if x in c.blocks then 1 else 0;
    CountPush(c.small, key, x);
    CountIn(c.small, x);
    CountIn(c.main, x);
  }

  lemma VictimsResident(c: Cache, n: int, protected: set<OffloadKey>)
    requires Valid(c)
    ensures var victims := SearchOf(c, n, protected).victims;
            NoDup(KeysOf(victims)) && forall i :: 0 <= i < |victims| ==> victims[i].0 in c.blocks
  {
    SearchPartition(c, n, protected);
    VictimsEligible(c, n, protected);
    var victims := SearchOf(c, n, protected).victims;
    forall i | 0 <= i < |victims| ensures victims[i].0 in c.blocks {
      assert KeysOf(victims)[i] in Keys(KeysOf(victims));
    }
  }

  /** Committing one more victim. */
  lemma CommitNext(c: Cache, victims: seq<(OffloadKey, bool)>, i: nat)
    requires i < |victims| && NoDup(KeysOf(victims)) && victims[i].0 in c.blocks
    ensures var before, after, k := Commit(c, victims[..i]), Commit(c, victims[..i + 1]), victims[i].0;
            k in before.blocks && before.blocks[k] == c.blocks[k] &&
            after == before.(blocks := before.blocks - {k}, freq := before.freq - {k},
                             evictable := before.evictable - {k},
                             history := if victims[i].1 then Remember(before.history, k, c.ghostCapacity)
                                        else before.history)
  {
    var k, done := victims[i].0, Keys(KeysOf(victims[..i]));
    assert victims[..i + 1] == victims[..i] + [victims[i]] && victims[..i + 1][..i] == victims[..i];
    KeysOfPush(victims[..i], victims[i]);
    assert Keys(KeysOf(victims[..i + 1])) == done + {k};
    assert k !in done by {
      assert KeysOf(victims)[i] == k;
      assert forall j :: 0 <= j < i ==> KeysOf(victims[..i])[j] == KeysOf(victims)[j];
    }
    assert c.blocks - (done + {k}) == c.blocks - done - {k};
    assert c.freq - (done + {k}) == c.freq - done - {k};
    assert c.evictable - (done + {k}) == c.evictable - done - {k};
  }
}

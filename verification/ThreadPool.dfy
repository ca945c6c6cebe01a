/** The round-robin choice of I/O loops in net/EventLoopThreadPool.cpp. */
module ThreadPool {

  /** The loop `getNextLoop` returns: the base loop for an empty pool, else the one whose turn it is. */
  function Picked<T>(base: T, loops: seq<T>, next: nat): T {
    if next < |loops| then loops[next] else base
  }

  /** The turn after a call, with the wrap at the end of the pool. */
  function Advanced(size: nat, next: nat): nat {
    if size == 0 then next else if next + 1 >= size then 0 else next + 1
  }

  /** What call number `k`, counted from zero, ought to return. */
  function TurnOf<T>(base: T, loops: seq<T>, k: nat): (loop: T)
    ensures if loops == [] then loop == base else loop in loops
  {
    if loops == [] then base else loops[k % |loops|]
  }

  /** The first `m` calls. */
  function Turns<T>(base: T, loops: seq<T>, m: nat): (turns: seq<T>)
    ensures |turns| == m
    ensures forall k :: 0 <= k < m ==> turns[k] == TurnOf(base, loops, k)
  {
    if m == 0 then [] else Turns(base, loops, m - 1) + [TurnOf(base, loops, m - 1)]
  }

  /** The remainder moves on as the index does: by one, and back to zero at the end. */
  lemma NextTurn(size: nat, k: nat)
    requires size > 0
    ensures Advanced(size, k % size) == (k + 1) % size
    ensures (k + 1) / size == k / size + if Advanced(size, k % size) == 0 then 1 else 0
  {
    var q, r := k / size, k % size;
    assert k == q * size + r;
    if r + 1 < size {
      DivMod(k + 1, size, q, r + 1);
    } else {
      assert (q + 1) * size == q * size + size;
      DivMod(k + 1, size, q + 1, 0);
    }
  }

  lemma DivMod(n: nat, size: nat, q: nat, r: nat)
    requires r < size && n == q * size + r
    ensures n / size == q && n % size == r
  {
    var q', r' := n / size, n % size;
    assert n == q' * size + r';
    assert q' < q ==> (q' + 1) * size <= q * size;
    assert q < q' ==> (q + 1) * size <= q' * size;
  }

  /** How often place `i` comes up in the first `m` turns. */
  function Share(size: nat, m: nat, i: nat): (n: nat)
    requires size > 0
    ensures m / size <= n <= m / size + 1
  {
    m / size + if i < m % size then 1 else 0
  }

  lemma ShareGrows(size: nat, k: nat, i: nat)
    requires i < size
    ensures Share(size, 0, i) == 0
    ensures Share(size, k + 1, i) == Share(size, k, i) + if i == k % size then 1 else 0
  {
    DivMod(0, size, 0, 0);
    NextTurn(size, k);
  }

  lemma CountGrows<T>(base: T, loops: seq<T>, k: nat, loop: T)
    ensures multiset(Turns(base, loops, k + 1))[loop]
            == multiset(Turns(base, loops, k))[loop] + if TurnOf(base, loops, k) == loop then 1 else 0
  {
    assert Turns(base, loops, k + 1) == Turns(base, loops, k) + [TurnOf(base, loops, k)];
  }

  lemma WhoseTurn<T>(base: T, loops: seq<T>, k: nat, i: nat)
    requires i < |loops| && forall j, k :: 0 <= j < k < |loops| ==> loops[j] != loops[k]
    ensures TurnOf(base, loops, k) == loops[i] <==> i == k % |loops|
  {
    var r := k % |loops|;
    assert r < i ==> loops[r] != loops[i];
    assert i < r ==> loops[i] != loops[r];
  }

  /**
   After any number of calls each loop has had its exact share: the calls divided by the loops,
   and one more for the loops whose turn has come since. So two totals differ by one at most.
  */
  lemma {:induction false} TurnsAreBalanced<T>(base: T, loops: seq<T>, m: nat, i: nat)
    requires i < |loops| && forall j, k :: 0 <= j < k < |loops| ==> loops[j] != loops[k]
    ensures multiset(Turns(base, loops, m))[loops[i]] == Share(|loops|, m, i)
  {
    hide Share, TurnOf;
    if m == 0 {
      ShareGrows(|loops|, 0, i);
    } else {
      TurnsAreBalanced(base, loops, m - 1, i);
      hide Turns;
      ShareGrows(|loops|, m - 1, i);
      CountGrows(base, loops, m - 1, loops[i]);
      WhoseTurn(base, loops, m - 1, i);
    }
  }

  class EventLoopThreadPool<T> {
    const baseLoop: T
    var started: bool
    var numThreads: nat
    var next: nat
    var loops: seq<T>

    /** What the calls have returned since the pool got its loops. */
    ghost var returned: seq<T>

    ghost predicate Valid()
      reads this
    {
      && returned == Turns(baseLoop, loops, |returned|)
      && next == (if loops == [] then 0 else |returned| % |loops|)
      && (!started ==> loops == [])
    }

    constructor (baseLoop: T)
      ensures Valid() && this.baseLoop == baseLoop && !started && loops == [] && numThreads == 0 && returned == []
    {
      this.baseLoop := baseLoop;
      started, numThreads, next, loops, returned := false, 0, 0, [], [];
    }

    method SetThreadNum(numThreads: nat)
      requires Valid()
      modifies this`numThreads
      ensures Valid() && this.numThreads == numThreads
    {
      this.numThreads := numThreads;
    }

    /** `loopOf(i)` is the loop the i-th new thread turns out to run. */
    method Start(loopOf: nat -> T)
      requires Valid() && !started
      modifies this
      ensures Valid() && started && numThreads == old(numThreads)
      ensures |loops| == numThreads && forall i :: 0 <= i < numThreads ==> loops[i] == loopOf(i)
      ensures returned == []
    {
      started := true;
      returned := [];
      var i := 0;
      while i < numThreads
        invariant 0 <= i <= numThreads == old(numThreads)
        invariant started && next == 0 && returned == []
        invariant |loops| == i && forall k :: 0 <= k < i ==> loops[k] == loopOf(k)
      {
        loops := loops + [loopOf(i)];
        i := i + 1;
      }
    }

    method GetNextLoop() returns (loop: T)
      requires Valid()
      modifies this`next, this`returned
      ensures Valid() && returned == old(returned) + [loop]
      ensures loop == TurnOf(baseLoop, loops, |old(returned)|)
      ensures loop == Picked(baseLoop, loops, old(next)) && next == Advanced(|loops|, old(next))
    {
      loop := baseLoop;
      if loops != [] {
        NextTurn(|loops|, |returned|);
        loop := loops[next];
        next := next + 1;
        if next >= |loops| {
          next := 0;
        }
      }
      returned := returned + [loop];
    }
  }
}

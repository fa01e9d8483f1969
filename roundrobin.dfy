/**
  * The round-robin selection shared by the cyclic arbiters: a per-token
  * 32-bit counter is read and incremented on every acquire, and the value
  * read selects the adapter at that position modulo the pool size.
  */
module RoundRobin {
  import opened Common

  const NEGATIVE_INDEX := "The current index is negative"

  /**
    * The slot a non-negative counter value selects in a pool of `size`
    * adapters; an empty pool makes the remainder divide by zero.
    */
  function SelectIndex(c: nat, size: nat): (r: Result<nat>)
    ensures r.Ok? <==> size > 0
    ensures r.Err? ==> r.error == ArithmeticError
    ensures r.Ok? ==> r.value < size
    ensures c < size ==> r == Ok(c)
  {
    if size == 0 then Err(ArithmeticError) else Ok(c % size)
  }

  /**
    * Reduces the counter value into the pool by repeated remainders while it
    * is out of range, exactly as the acquire loop does.
    */
  method Normalise(c: nat, size: nat) returns (r: Result<nat>)
    ensures r == SelectIndex(c, size)
  {
    var currentIndex: nat := c;
    while currentIndex >= size
      invariant currentIndex <= c
      invariant size > 0 ==> currentIndex % size == c % size
      decreases currentIndex
    {
      if size == 0 {
        return Err(ArithmeticError);
      }
      currentIndex := currentIndex % size;
    }
    r := Ok(currentIndex);
  }

  /**
    * What an acquire returns for counter value `c` once the tenant's pool has
    * been looked up: the pool's own error first, then the negative-counter
    * error, then the selected adapter.
    */
  function Pick<T>(c: Int32, pool: Result<seq<T>>): (r: Result<T>)
    ensures r.Ok? <==> pool.Ok? && 0 <= c && |pool.value| > 0
    ensures r.Ok? ==> r.value in pool.value
    ensures pool.Err? ==> r == Err(pool.error)
    ensures pool.Ok? && c < 0 ==> r == Err(IllegalState(NEGATIVE_INDEX))
    ensures pool.Ok? && 0 <= c && |pool.value| == 0 ==> r == Err(ArithmeticError)
    ensures pool.Ok? && 0 <= c < |pool.value| ==> r == Ok(pool.value[c])
  {
    if pool.Err? then Err(pool.error)
    else if c < 0 then Err(IllegalState(NEGATIVE_INDEX))
    else
      match SelectIndex(c, |pool.value|)
      case Err(e) => Err(e)
      case Ok(i) => Ok(pool.value[i])
  }

  /** A token's counter; `computeIfAbsent` creates it at zero on the token's first acquire. */
  function CounterOf(counters: map<Token, Int32>, token: Token): Int32 {
    if token in counters then counters[token] else 0
  }

  /** `compareAndSet` on the counter of `token`: it changes only if it still holds `expected`. */
  function CompareAndSet(counters: map<Token, Int32>, token: Token, expected: Int32, update: Int32): map<Token, Int32> {
    if token in counters && counters[token] == expected then counters[token := update] else counters
  }

  /** The counter after `n` acquires starting from `c`. */
  function CounterAfter(c: Int32, n: nat): Int32 {
    if n == 0 then c else WrapInc(CounterAfter(c, n - 1))
  }

  /** The results of `n` successive acquires on a fixed pool, starting from counter `c`. */
  function Picks<T>(c: Int32, pool: seq<T>, n: nat): seq<Result<T>> {
    seq(n, i requires 0 <= i < n => Pick(CounterAfter(c, i), Ok(pool)))
  }

  /** Until the counter reaches INT_MAX it simply counts acquires. */
  lemma {:induction false} CounterNoWrap(c: Int32, n: nat)
    requires c + n <= INT_MAX
    ensures CounterAfter(c, n) == c + n
  {
    if n > 0 {
      CounterNoWrap(c, n - 1);
    }
  }

  /** Successive acquires visit the pool cyclically: the i-th gets slot (c + i) mod size. */
  lemma RoundRobinCycle<T>(c: Int32, pool: seq<T>, n: nat)
    requires 0 <= c && c + n <= INT_MAX + 1 && |pool| > 0
    ensures forall i :: 0 <= i < n ==> Picks(c, pool, n)[i] == Ok(pool[(c + i) % |pool|])
  {
    forall i | 0 <= i < n
      ensures Picks(c, pool, n)[i] == Ok(pool[(c + i) % |pool|])
    {
      CounterNoWrap(c, i);
    }
  }

  /** Within any |pool| consecutive acquires that do not wrap, every adapter is handed out. */
  lemma EveryAdapterOncePerCycle<T>(c: Int32, pool: seq<T>)
    requires 0 <= c && c + |pool| <= INT_MAX + 1 && |pool| > 0
    ensures forall j :: 0 <= j < |pool| ==> Ok(pool[j]) in Picks(c, pool, |pool|)
  {
    var picks := Picks(c, pool, |pool|);
    RoundRobinCycle(c, pool, |pool|);
    forall j | 0 <= j < |pool|
      ensures Ok(pool[j]) in picks
    {
      var i := (j - c % |pool| + |pool|) % |pool|;
      ModShift(c, j, |pool|);
      assert picks[i] == Ok(pool[j]);
    }
  }

  lemma ModShift(c: nat, j: nat, size: nat)
    requires 0 <= j < size
    ensures (c + (j - c % size + size) % size) % size == j
  {
    var q := c / size;
    var r := c % size;
    var k := j - r + size;
    if k < size {
      assert k % size == k;
      assert c + k == (q + 1) * size + j;
      MultiplePlus(q + 1, size, j);
    } else {
      assert k % size == k - size by {
        MultiplePlus(1, size, k - size);
      }
      assert c + (k - size) == q * size + j;
      MultiplePlus(q, size, j);
    }
  }

  lemma MultiplePlus(q: int, size: int, j: int)
    requires size > 0 && 0 <= j < size
    ensures (q * size + j) % size == j
  {
    var x := q * size + j;
    var d, m := x / size, x % size;
    assert x == d * size + m;
    var t := q - d;
    assert t * size == m - j by {
      assert q * size - d * size == (q - d) * size;
    }
    if t >= 1 {
      MulAtLeast(t, size);
    } else if t <= -1 {
      MulAtLeast(-t, size);
    }
  }

  lemma MulAtLeast(t: int, size: int)
    requires t >= 1 && size > 0
    ensures t * size >= size
  {
    assert t * size == (t - 1) * size + size;
    assert (t - 1) * size >= 0;
  }

  /**
    * After 2^31 acquires from zero the counter has wrapped to INT_MIN, and the
    * next acquire fails with the negative-index error.
    */
  lemma WrapAroundFails<T>(pool: seq<T>)
    ensures CounterAfter(0, INT_MAX + 1) == INT_MIN
    ensures Pick(CounterAfter(0, INT_MAX + 1), Ok(pool)) == Err(IllegalState(NEGATIVE_INDEX))
  {
    CounterNoWrap(0, INT_MAX);
  }
}

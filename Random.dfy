/**
 * The `random` module, as an oracle. A run is given the values the generator
 * will produce, by position, and every draw reads the value at the current
 * position and moves one position on; the operators thread that position
 * through their calls in the order the source makes them. The contracts of
 * the operators hold for every sequence of values.
 */
module Random {
  /** A value of `random.random()`. */
  type Unit = r: real | 0.0 <= r < 1.0

  /** The values `random()` returns and the raw values the integer draws are taken from. */
  datatype Draws = Draws(units: nat -> Unit, ints: nat -> nat)

  /** `random.randint(lo, hi)`. */
  function RandInt(draws: Draws, pos: nat, lo: int, hi: int): (r: int)
    requires lo <= hi
    ensures lo <= r <= hi
  {
    lo + draws.ints(pos) % (hi - lo + 1)
  }

  /** `random.choice(s)`. */
  function Choice<T>(draws: Draws, pos: nat, s: seq<T>): (x: T)
    requires |s| > 0
    ensures x in s
  {
    s[draws.ints(pos) % |s|]
  }

  predicate NoRepeats(s: seq<nat>) {
    forall i, j :: 0 <= i < j < |s| ==> s[i] != s[j]
  }

  /** Removing one position of a repeat-free sequence removes exactly its value. */
  lemma RemoveAt(pool: seq<nat>, j: int)
    requires NoRepeats(pool) && 0 <= j < |pool|
    ensures NoRepeats(pool[..j] + pool[j + 1..])
    ensures forall x :: x in pool[..j] + pool[j + 1..] <==> x in pool && x != pool[j]
  {
    var rest := pool[..j] + pool[j + 1..];
    assert forall i :: 0 <= i < |rest| ==> rest[i] == if i < j then pool[i] else pool[i + 1];
    forall x | x in pool && x != pool[j]
      ensures x in rest
    {
      var i :| 0 <= i < |pool| && pool[i] == x;
      if i < j {
        assert rest[i] == x;
      } else {
        assert rest[i - 1] == x;
      }
    }
  }

  /**
   * `random.sample(range(n), k)`: k distinct indices below n, each drawn
   * from the indices not yet taken.
   */
  method Sample(draws: Draws, pos: nat, n: nat, k: nat) returns (picked: seq<nat>, next: nat)
    requires k <= n
    ensures |picked| == k && NoRepeats(picked)
    ensures forall i :: 0 <= i < k ==> picked[i] < n
    ensures next == pos + k
  {
    var pool: seq<nat> := seq(n, i requires 0 <= i => i as nat);
    forall x: nat | x < n
      ensures x in pool
    {
      assert pool[x] == x;
    }
    picked := [];
    var i := 0;
    while i < k
      invariant 0 <= i <= k
      invariant |picked| == i && |pool| == n - i
      invariant NoRepeats(pool) && NoRepeats(picked)
      invariant forall x: nat :: x in pool <==> x < n && x !in picked
      invariant forall j :: 0 <= j < i ==> picked[j] < n
    {
      var j := draws.ints(pos + i) % |pool|;
      var x := pool[j];
      assert x in pool;
      assert x < n && x !in picked;
      RemoveAt(pool, j);
      var pool', picked' := pool[..j] + pool[j + 1..], picked + [x];
      forall y: nat
        ensures y in pool' <==> y < n && y !in picked'
      {
        assert y in picked' <==> y in picked || y == x;
      }
      picked, pool := picked', pool';
      i := i + 1;
    }
    next := pos + k;
  }
}

/** Adding up a measure of the goroutines of a protocol, of which a step changes one. */
module Sums {
  function Bit(b: bool): nat { if b then 1 else 0 }

  function Sum<T>(f: T -> nat, ts: seq<T>): nat {
    if ts == [] then 0 else f(ts[0]) + Sum(f, ts[1..])
  }

  lemma {:induction false} SumUpdate<T>(f: T -> nat, ts: seq<T>, i: nat, x: T)
    requires i < |ts|
    ensures Sum(f, ts[i := x]) == Sum(f, ts) - f(ts[i]) + f(x)
  {
    if i > 0 {
      SumUpdate(f, ts[1..], i - 1, x);
      assert ts[i := x][1..] == ts[1..][i - 1 := x];
    } else {
      assert ts[i := x][1..] == ts[1..];
    }
  }

  /** For measures of at most one. */
  lemma {:induction false} SumAtMost<T>(f: T -> nat, ts: seq<T>)
    requires forall t :: t in ts ==> f(t) <= 1
    ensures Sum(f, ts) <= |ts|
  {
    if ts != [] { SumAtMost(f, ts[1..]); }
  }

  lemma {:induction false} SumZero<T>(f: T -> nat, ts: seq<T>)
    requires forall t :: t in ts ==> f(t) == 0
    ensures Sum(f, ts) == 0
  {
    if ts != [] { SumZero(f, ts[1..]); }
  }

  lemma {:induction false} SumOnes<T>(f: T -> nat, ts: seq<T>)
    requires forall t :: t in ts ==> f(t) == 1
    ensures Sum(f, ts) == |ts|
  {
    if ts != [] { SumOnes(f, ts[1..]); }
  }
}

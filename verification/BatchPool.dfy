/** The bounded pool that classifies one batch: a feeder hands out the indices, each worker
    writes the row of the index it was given, and the caller waits for the workers. */
module BatchPool {
  import opened Options
  import opened Sums

  datatype Worker = Idle | Holding(i: nat) | Exited

  datatype Pool<+R> = Pool(next: nat, closed: bool, workers: seq<Worker>, rows: seq<Option<R>>)

  datatype Step = Hand(w: nat) | Close | Write(w: nat) | Exit(w: nat)

  function Init<R>(items: nat, workers: nat): Pool<R> {
    Pool(0, false, seq(workers, _ => Idle), seq(items, _ => None))
  }

  predicate Enabled<R>(p: Pool<R>, s: Step) {
    match s
    case Hand(w) => !p.closed && p.next < |p.rows| && w < |p.workers| && p.workers[w].Idle?
    case Close => !p.closed && p.next == |p.rows|
    case Write(w) => w < |p.workers| && p.workers[w].Holding? && p.workers[w].i < |p.rows|
    case Exit(w) => p.closed && w < |p.workers| && p.workers[w].Idle?
  }

  /** `one` is what a worker computes for an index. */
  function Apply<R>(one: nat -> R, p: Pool<R>, s: Step): Pool<R>
    requires Enabled(p, s)
  {
    match s
    case Hand(w) => p.(next := p.next + 1, workers := p.workers[w := Holding(p.next)])
    case Close => p.(closed := true)
    case Write(w) => p.(workers := p.workers[w := Idle], rows := p.rows[p.workers[w].i := Some(one(p.workers[w].i))])
    case Exit(w) => p.(workers := p.workers[w := Exited])
  }

  function Exec<R>(one: nat -> R, p: Pool<R>, steps: seq<Step>): Option<Pool<R>>
    decreases |steps|
  {
    if steps == [] then Some(p)
    else if Enabled(p, steps[0]) then Exec(one, Apply(one, p, steps[0]), steps[1..])
    else None
  }

  predicate AllExited<R>(p: Pool<R>) { forall w :: 0 <= w < |p.workers| ==> p.workers[w].Exited? }

  /** A worker has the index. */
  predicate HeldBy<R>(p: Pool<R>, i: nat) { exists w :: 0 <= w < |p.workers| && p.workers[w] == Holding(i) }

  ghost predicate RowRight<R>(one: nat -> R, p: Pool<R>, i: nat)
    requires i < |p.rows|
  {
    match p.rows[i]
    case Some(r) => r == one(i) && i < p.next
    case None => i < p.next ==> HeldBy(p, i)
  }

  ghost predicate Inv<R>(one: nat -> R, p: Pool<R>) {
    && p.next <= |p.rows| && (p.closed ==> p.next == |p.rows|)
    && (forall i: nat :: i < |p.rows| ==> RowRight(one, p, i))
    && (forall w :: 0 <= w < |p.workers| && p.workers[w].Holding? ==>
          p.workers[w].i < p.next && p.rows[p.workers[w].i].None?)
    && (forall v, w :: 0 <= v < w < |p.workers| && p.workers[v].Holding? ==> p.workers[w] != p.workers[v])
    && (forall w :: 0 <= w < |p.workers| && p.workers[w].Exited? ==> p.closed)
  }

  lemma {:induction false} StepKeepsRow<R>(one: nat -> R, p: Pool<R>, s: Step, i: nat)
    requires Inv(one, p) && Enabled(p, s) && i < |p.rows|
    ensures RowRight(one, Apply(one, p, s), i)
  {
    assert RowRight(one, p, i);
    var q := Apply(one, p, s);
    if p.rows[i].None? && i < p.next {
      var v :| 0 <= v < |p.workers| && p.workers[v] == Holding(i);
      assert q.rows[i].Some? || q.workers[v] == Holding(i);
    } else if s.Hand? && i == p.next {
      assert q.workers[s.w] == Holding(i);
    }
  }

  /** No two workers ever have the same index, and a row is written once, by the worker
      that has its index. */
  lemma {:induction false} StepKeepsInv<R>(one: nat -> R, p: Pool<R>, s: Step)
    requires Inv(one, p) && Enabled(p, s)
    ensures Inv(one, Apply(one, p, s))
  {
    if s.Hand? { assert RowRight(one, p, p.next); }
    forall i: nat | i < |p.rows| ensures RowRight(one, Apply(one, p, s), i) { StepKeepsRow(one, p, s, i); }
  }

  function Weight(w: Worker): nat { match w case Idle => 1 case Holding(_) => 2 case Exited => 0 }

  function Weights(ws: seq<Worker>): nat { Sum(Weight, ws) }

  function Left<R>(p: Pool<R>): nat
    requires p.next <= |p.rows|
  {
    2 * (|p.rows| - p.next) + Weights(p.workers) + Bit(!p.closed)
  }

  lemma {:induction false} StepUsesUp<R>(one: nat -> R, p: Pool<R>, s: Step)
    requires Inv(one, p) && Enabled(p, s)
    ensures Left(Apply(one, p, s)) < Left(p)
  {
    match s
    case Hand(w) => SumUpdate(Weight, p.workers, w, Holding(p.next));
    case Close =>
    case Write(w) => SumUpdate(Weight, p.workers, w, Idle);
    case Exit(w) => SumUpdate(Weight, p.workers, w, Exited);
  }

  predicate CanMove<R>(p: Pool<R>) {
    || Enabled(p, Close)
    || exists w: nat :: w < |p.workers| && (Enabled(p, Hand(w)) || Enabled(p, Write(w)) || Enabled(p, Exit(w)))
  }

  lemma {:induction false} NeverStuck<R>(one: nat -> R, p: Pool<R>)
    requires Inv(one, p) && p.workers != []
    ensures AllExited(p) || CanMove(p)
  {
    if !AllExited(p) {
      var w: nat :| w < |p.workers| && !p.workers[w].Exited?;
      match p.workers[w]
      case Idle => assert Enabled(p, Hand(w)) || Enabled(p, Close) || Enabled(p, Exit(w));
      case Holding(i) => assert Enabled(p, Write(w));
      case Exited =>
    }
  }

  lemma {:induction false} ExecKeeps<R>(one: nat -> R, p: Pool<R>, steps: seq<Step>)
    requires Inv(one, p) && Exec(one, p, steps).Some?
    ensures var q := Exec(one, p, steps).value;
      && Inv(one, q) && Left(q) + |steps| <= Left(p)
      && |q.rows| == |p.rows| && |q.workers| == |p.workers|
    decreases |steps|
  {
    if steps != [] {
      StepKeepsInv(one, p, steps[0]);
      StepUsesUp(one, p, steps[0]);
      ExecKeeps(one, Apply(one, p, steps[0]), steps[1..]);
    }
  }

  /** Every interleaving of every batch: it is short, never deadlocks, and once the workers
      are gone row `i` is the row of index `i`, whatever the workers did. */
  lemma {:induction false} EveryRun<R>(one: nat -> R, items: nat, workers: nat, steps: seq<Step>)
    requires workers > 0 && Exec(one, Init<R>(items, workers), steps).Some?
    ensures var p := Exec(one, Init<R>(items, workers), steps).value;
      && |steps| <= 2 * items + workers + 1
      && (AllExited(p) || CanMove(p))
      && (AllExited(p) ==> p.rows == seq(items, i requires 0 <= i < items => Some(one(i))))
  {
    var start := Init<R>(items, workers);
    SumOnes(Weight, start.workers);
    ExecKeeps(one, start, steps);
    var p := Exec(one, start, steps).value;
    NeverStuck(one, p);
    if AllExited(p) {
      assert p.workers[0].Exited?;
      forall i: nat | i < items ensures p.rows[i] == Some(one(i)) { assert RowRight(one, p, i); }
    }
  }
}

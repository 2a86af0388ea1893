/** The channel-fed worker pool behind ingestion and discovery runs, as a machine whose
    steps interleave freely: a feeder, the workers, a closer that waits for them, the
    collecting caller, and a cancellation that may come at any time. The channels are
    unbuffered, so a send and its receive are one step. */
module WorkerPool {
  import opened Options
  import opened Sums

  datatype Worker<+R> =
    | Idle                         // receiving from the work channel
    | Holding(i: nat)              // processing item i
    | Sending(i: nat, result: R)   // offering its result
    | Exited

  datatype Pool<+R> = Pool(
    items: nat,             // how many items there are
    next: nat,              // the first item not handed out
    feeding: bool,          // the feeder runs; it closes the work channel when it stops
    workers: seq<Worker<R>>,
    resultsClosed: bool,
    out: seq<(nat, R)>,     // what the caller has collected
    returned: bool,
    cancelled: bool)

  datatype Step<+R> =
    | Hand(w: nat) | StopFeeding
    | Finish(w: nat, result: R) | Deliver(w: nat) | Exit(w: nat)
    | CloseResults | Return | Cancel

  function Init<R>(items: nat, workers: nat): Pool<R> {
    Pool(items, 0, true, seq(workers, _ => Idle), false, [], false, false)
  }

  predicate AllExited<R>(p: Pool<R>) { forall w :: 0 <= w < |p.workers| ==> p.workers[w].Exited? }

  predicate Enabled<R>(p: Pool<R>, s: Step<R>) {
    match s
    case Hand(w) => p.feeding && p.next < p.items && w < |p.workers| && p.workers[w].Idle?
    case StopFeeding => p.feeding && (p.next == p.items || p.cancelled)
    case Finish(w, _) => w < |p.workers| && p.workers[w].Holding?
    case Deliver(w) => w < |p.workers| && p.workers[w].Sending? && !p.returned
    case Exit(w) => w < |p.workers| && p.workers[w].Idle? && !p.feeding
    case CloseResults => AllExited(p) && !p.resultsClosed
    case Return => p.resultsClosed && !p.returned
    case Cancel => !p.cancelled
  }

  function Apply<R>(p: Pool<R>, s: Step<R>): Pool<R>
    requires Enabled(p, s)
  {
    match s
    case Hand(w) => p.(workers := p.workers[w := Holding(p.next)], next := p.next + 1)
    case StopFeeding => p.(feeding := false)
    case Finish(w, r) => p.(workers := p.workers[w := Sending(p.workers[w].i, r)])
    case Deliver(w) =>
      p.(workers := p.workers[w := Idle], out := p.out + [(p.workers[w].i, p.workers[w].result)])
    case Exit(w) => p.(workers := p.workers[w := Exited])
    case CloseResults => p.(resultsClosed := true)
    case Return => p.(returned := true)
    case Cancel => p.(cancelled := true)
  }

  /** The state after a run, if every step of it was enabled. */
  function Exec<R>(p: Pool<R>, steps: seq<Step<R>>): Option<Pool<R>>
    decreases |steps|
  {
    if steps == [] then Some(p)
    else if Enabled(p, steps[0]) then Exec(Apply(p, steps[0]), steps[1..])
    else None
  }

  /** A send on the closed results channel would crash the process. */
  predicate SendsOnClosed<R>(p: Pool<R>) {
    p.resultsClosed && exists w :: 0 <= w < |p.workers| && p.workers[w].Sending?
  }

  predicate Done<R>(p: Pool<R>) { p.returned && !p.feeding && AllExited(p) }

  // ----- Who has which item ----------------------------------------------------------

  predicate Owns<R>(w: Worker<R>, i: nat) { (w.Holding? || w.Sending?) && w.i == i }

  /** How many workers have item `i`, and how many have any. */
  function Held<R>(ws: seq<Worker<R>>, i: nat): nat {
    if ws == [] then 0 else Bit(Owns(ws[0], i)) + Held(ws[1..], i)
  }

  function Busy<R>(ws: seq<Worker<R>>): nat {
    if ws == [] then 0 else Bit(ws[0].Holding? || ws[0].Sending?) + Busy(ws[1..])
  }

  /** How many results for item `i` the caller has. */
  function Collected<R>(out: seq<(nat, R)>, i: nat): nat {
    if out == [] then 0 else Collected(out[..|out| - 1], i) + Bit(out[|out| - 1].0 == i)
  }

  lemma {:induction false} HeldUpdate<R>(ws: seq<Worker<R>>, w: nat, x: Worker<R>, i: nat)
    requires w < |ws|
    ensures Held(ws[w := x], i) == Held(ws, i) - Bit(Owns(ws[w], i)) + Bit(Owns(x, i))
    ensures Busy(ws[w := x]) == Busy(ws) - Bit(ws[w].Holding? || ws[w].Sending?) + Bit(x.Holding? || x.Sending?)
  {
    if w > 0 {
      HeldUpdate(ws[1..], w - 1, x, i);
      assert ws[w := x][1..] == ws[1..][w - 1 := x];
    } else {
      assert ws[w := x][1..] == ws[1..];
    }
  }

  lemma {:induction false} NoneHeld<R>(ws: seq<Worker<R>>, i: nat)
    requires forall w :: 0 <= w < |ws| ==> ws[w].Idle? || ws[w].Exited?
    ensures Held(ws, i) == 0 == Busy(ws)
  {
    if ws != [] { NoneHeld(ws[1..], i); }
  }

  // ----- What every step keeps ---------------------------------------------------------

  /** Item `i` is with one worker or among the results once it was handed out. */
  ghost predicate Placed<R>(p: Pool<R>, i: nat) {
    Collected(p.out, i) + Held(p.workers, i) == Bit(i < p.next)
  }

  ghost predicate Inv<R>(p: Pool<R>) {
    && p.next <= p.items
    && (forall i: nat :: Placed(p, i))
    && |p.out| + Busy(p.workers) == p.next
    && (!p.feeding ==> p.next == p.items || p.cancelled)
    && (p.feeding ==> forall w :: 0 <= w < |p.workers| ==> !p.workers[w].Exited?)
    && (p.resultsClosed ==> AllExited(p))
    && (p.returned ==> p.resultsClosed)
  }

  lemma {:induction false} InitInv<R>(items: nat, workers: nat)
    ensures Inv(Init<R>(items, workers))
  {
    var p := Init<R>(items, workers);
    forall i: nat ensures Placed(p, i) { NoneHeld(p.workers, i); }
    NoneHeld(p.workers, 0);
  }

  lemma {:induction false} StepPlaces<R>(p: Pool<R>, s: Step<R>, i: nat)
    requires Enabled(p, s) && Placed(p, i) && |p.out| + Busy(p.workers) == p.next
    ensures var q := Apply(p, s); Placed(q, i) && |q.out| + Busy(q.workers) == q.next
  {
    match s
    case Hand(w) => HeldUpdate(p.workers, w, Holding(p.next), i);
    case Finish(w, r) => HeldUpdate(p.workers, w, Sending(p.workers[w].i, r), i);
    case Deliver(w) =>
      HeldUpdate(p.workers, w, Idle, i);
    case Exit(w) => HeldUpdate(p.workers, w, Exited, i);
    case _ =>
  }

  lemma {:induction false} StepKeepsInv<R>(p: Pool<R>, s: Step<R>)
    requires Inv(p) && Enabled(p, s)
    ensures Inv(Apply(p, s))
  {
    forall i: nat ensures Placed(Apply(p, s), i) { StepPlaces(p, s, i); }
    StepPlaces(p, s, 0);
  }

  // ----- Termination ----------------------------------------------------------------------

  function Weight<R>(w: Worker<R>): nat {
    match w case Idle => 1 case Holding(_) => 3 case Sending(_, _) => 2 case Exited => 0
  }

  function Weights<R>(ws: seq<Worker<R>>): nat {
    Sum(Weight, ws)
  }

  /** How many steps are left at most. */
  function Left<R>(p: Pool<R>): nat
    requires p.next <= p.items
  {
    3 * (p.items - p.next) + Weights(p.workers)
      + Bit(p.feeding) + Bit(!p.resultsClosed) + Bit(!p.returned) + Bit(!p.cancelled)
  }

  lemma {:induction false} StepUsesUp<R>(p: Pool<R>, s: Step<R>)
    requires Inv(p) && Enabled(p, s)
    ensures Left(Apply(p, s)) < Left(p)
  {
    match s
    case Hand(w) => SumUpdate(Weight, p.workers, w, Holding(p.next));
    case Finish(w, r) => SumUpdate(Weight, p.workers, w, Sending(p.workers[w].i, r));
    case Deliver(w) => SumUpdate(Weight, p.workers, w, Idle);
    case Exit(w) => SumUpdate(Weight, p.workers, w, Exited);
    case _ =>
  }

  // ----- No deadlock -----------------------------------------------------------------------

  predicate CanMove<R(!new)>(p: Pool<R>, r: R) {
    || Enabled(p, StopFeeding) || Enabled(p, CloseResults) || Enabled(p, Return)
    || exists w: nat :: w < |p.workers| &&
         (Enabled(p, Hand(w)) || Enabled(p, Finish(w, r)) || Enabled(p, Deliver(w)) || Enabled(p, Exit(w)))
  }

  /** With a worker, the pool is never stuck before it is done: `r` is any result the
      processing may yield. */
  lemma {:induction false} NeverStuck<R(!new)>(p: Pool<R>, r: R)
    requires Inv(p) && p.workers != []
    ensures Done(p) || CanMove(p, r)
  {
    if !AllExited(p) {
      var w: nat :| w < |p.workers| && !p.workers[w].Exited?;
      match p.workers[w]
      case Idle =>
        assert Enabled(p, Hand(w)) || Enabled(p, StopFeeding) || Enabled(p, Exit(w));
      case Holding(_) => assert Enabled(p, Finish(w, r));
      case Sending(_, _) => assert Enabled(p, Deliver(w));
      case Exited =>
    } else {
      assert p.workers[0].Exited?;
    }
  }

  // ----- Whole runs --------------------------------------------------------------------------

  lemma {:induction false} StepFrame<R>(p: Pool<R>, s: Step<R>)
    requires Enabled(p, s)
    ensures var q := Apply(p, s);
      && q.items == p.items && |q.workers| == |p.workers|
      && (q.cancelled <==> p.cancelled || s == Cancel)
  {}

  lemma {:induction false} ExecKeeps<R>(p: Pool<R>, steps: seq<Step<R>>)
    requires Inv(p) && Exec(p, steps).Some?
    ensures var q := Exec(p, steps).value;
      && Inv(q) && Left(q) + |steps| <= Left(p)
      && q.items == p.items && |q.workers| == |p.workers|
      && (q.cancelled <==> p.cancelled || Cancel in steps)
    decreases |steps|
  {
    if steps != [] {
      var q := Apply(p, steps[0]);
      StepKeepsInv(p, steps[0]);
      StepUsesUp(p, steps[0]);
      StepFrame(p, steps[0]);
      ExecKeeps(q, steps[1..]);
    }
  }

  /** What the constructors do with a worker count below one. */
  function Clamp(workers: int): (w: nat) { if workers < 1 then 1 else workers }

  /** Every interleaving of every run: it is short, never sends on the closed channel,
      never deadlocks, and once the caller has returned it holds exactly one result for
      each of the first `next` items - all of them unless the run was cancelled. */
  lemma {:induction false} EveryRun<R(!new)>(items: nat, workers: int, steps: seq<Step<R>>, r: R)
    requires Exec(Init<R>(items, Clamp(workers)), steps).Some?
    ensures var p := Exec(Init<R>(items, Clamp(workers)), steps).value;
      && |steps| <= 3 * items + Clamp(workers) + 4
      && !SendsOnClosed(p)
      && (Done(p) || CanMove(p, r))
      && (p.returned ==>
            && Done(p) && p.next <= items && |p.out| == p.next
            && (forall i: nat :: Collected(p.out, i) == Bit(i < p.next))
            && (Cancel !in steps ==> p.next == items))
  {
    var start := Init<R>(items, Clamp(workers));
    InitInv<R>(items, Clamp(workers));
    SumOnes(Weight, start.workers);
    ExecKeeps(start, steps);
    var p := Exec(start, steps).value;
    NeverStuck(p, r);
    if p.resultsClosed {
      assert p.workers[0].Exited?;
      NoneHeld(p.workers, 0);
      forall i: nat ensures Collected(p.out, i) == Bit(i < p.next) {
        assert Placed(p, i);
        NoneHeld(p.workers, i);
      }
    }
  }

  // ----- Why the worker count is clamped ---------------------------------------------------------

  ghost predicate NoWorkers<R>(p: Pool<R>) {
    p.workers == [] && p.next == 0 && p.out == [] && (p.feeding || p.items == 0 || p.cancelled)
  }

  lemma {:induction false} NoWorkersKept<R>(p: Pool<R>, steps: seq<Step<R>>)
    requires NoWorkers(p) && Exec(p, steps).Some?
    ensures NoWorkers(Exec(p, steps).value)
    decreases |steps|
  {
    if steps != [] { NoWorkersKept(Apply(p, steps[0]), steps[1..]); }
  }

  /** When nothing but a cancellation can happen any more, the feeder has stopped exactly
      if there was a worker, or nothing to feed, or a cancellation. With no worker and
      something to feed it waits for ever, although the caller has long returned with
      nothing. */
  lemma {:induction false} FeederStopsIff<R(!new)>(items: nat, workers: nat, steps: seq<Step<R>>, r: R)
    requires Exec(Init<R>(items, workers), steps).Some?
    requires !CanMove(Exec(Init<R>(items, workers), steps).value, r)
    ensures var p := Exec(Init<R>(items, workers), steps).value;
      && p.returned
      && (!p.feeding <==> workers > 0 || items == 0 || Cancel in steps)
      && (workers == 0 ==> p.out == [])
  {
    var start := Init<R>(items, workers);
    InitInv<R>(items, workers);
    ExecKeeps(start, steps);
    var p := Exec(start, steps).value;
    if workers > 0 {
      NeverStuck(p, r);
    } else {
      NoWorkersKept(start, steps);
      assert AllExited(p);
      assert !Enabled(p, StopFeeding) && !Enabled(p, CloseResults) && !Enabled(p, Return);
    }
  }
}

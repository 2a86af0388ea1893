/** The cap on search queries: an atomic counter that is raised first and lowered again
    when it went over, shared by any number of goroutines. */
module SearchBudget {
  import opened Options
  import opened Sums

  /** A goroutine is between two calls of Take, or has gone over and must undo. */
  datatype Phase = Ready | Overdrawn

  datatype Shared = Shared(
    max: int,
    used: int,              // the atomic counter
    threads: seq<Phase>,
    granted: nat,           // Takes that succeeded
    refused: nat,           // Takes that returned the error
    begun: nat)             // Takes that reached the counter

  /** The two atomic steps of Take: add one and look at the sum; subtract one again. */
  datatype Step = Add(t: nat) | Undo(t: nat)

  function Init(max: int, threads: nat): Shared {
    Shared(max, 0, seq(threads, _ => Ready), 0, 0, 0)
  }

  predicate Enabled(s: Shared, step: Step) {
    match step
    case Add(t) => t < |s.threads| && s.threads[t].Ready?
    case Undo(t) => t < |s.threads| && s.threads[t].Overdrawn?
  }

  function Apply(s: Shared, step: Step): Shared
    requires Enabled(s, step)
  {
    match step
    case Add(t) =>
      var sum := s.used + 1;
      if sum > s.max then s.(used := sum, threads := s.threads[t := Overdrawn], begun := s.begun + 1)
      else s.(used := sum, granted := s.granted + 1, begun := s.begun + 1)
    case Undo(t) =>
      s.(used := s.used - 1, threads := s.threads[t := Ready], refused := s.refused + 1)
  }

  function Exec(s: Shared, steps: seq<Step>): Option<Shared>
    decreases |steps|
  {
    if steps == [] then Some(s)
    else if Enabled(s, steps[0]) then Exec(Apply(s, steps[0]), steps[1..])
    else None
  }

  function IsOver(p: Phase): nat { Bit(p.Overdrawn?) }

  function Over(threads: seq<Phase>): nat { Sum(IsOver, threads) }

  function Min(a: int, b: int): int { if a <= b then a else b }
  function Max(a: int, b: int): int { if a >= b then a else b }

  /** The counter an exact, one-step Take would keep after `begun` calls. */
  function Exact(max: int, begun: nat): nat { Min(begun, Max(max, 0)) }

  ghost predicate Inv(s: Shared) {
    && s.granted == Exact(s.max, s.begun)
    && s.used == s.granted + Over(s.threads)
    && s.begun == s.granted + s.refused + Over(s.threads)
  }

  lemma {:induction false} StepKeepsInv(s: Shared, step: Step)
    requires Inv(s) && Enabled(s, step)
    ensures Inv(Apply(s, step))
    ensures step.Add? ==> (Apply(s, step).granted == s.granted + 1 <==> s.begun < s.max)
  {
    match step
    case Add(t) => SumUpdate(IsOver, s.threads, t, Overdrawn);
    case Undo(t) => SumUpdate(IsOver, s.threads, t, Ready);
  }

  lemma {:induction false} ExecKeeps(s: Shared, steps: seq<Step>)
    requires Inv(s) && Exec(s, steps).Some?
    ensures var e := Exec(s, steps).value;
      Inv(e) && e.max == s.max && |e.threads| == |s.threads|
    decreases |steps|
  {
    if steps != [] {
      StepKeepsInv(s, steps[0]);
      ExecKeeps(Apply(s, steps[0]), steps[1..]);
    }
  }

  /** Every interleaving: the grants are those of an exact counter, so never more than
      the limit; while a Take is being refused the whole limit has been granted; and the
      counter exceeds the grants by the refusals still under way, one per goroutine at
      most. */
  lemma {:induction false} EveryRun(max: int, threads: nat, steps: seq<Step>)
    requires Exec(Init(max, threads), steps).Some?
    ensures var s := Exec(Init(max, threads), steps).value;
      && s.granted == Exact(max, s.begun) <= Max(max, 0)
      && (s.refused + Over(s.threads) > 0 ==> s.granted == Max(max, 0))
      && s.used == s.granted + Over(s.threads) <= Max(max, 0) + threads
      && (Over(s.threads) == 0 ==> s.used == s.granted)
  {
    var start := Init(max, threads);
    SumZero(IsOver, start.threads);
    ExecKeeps(start, steps);
    SumAtMost(IsOver, Exec(start, steps).value.threads);
  }

  /** The step that decides a Take decides it as the exact counter would: the grant goes
      to the first `max` callers that reach it. */
  lemma {:induction false} TakeIsExact(max: int, threads: nat, steps: seq<Step>, t: nat)
    requires Exec(Init(max, threads), steps).Some?
    requires Enabled(Exec(Init(max, threads), steps).value, Add(t))
    ensures var s := Exec(Init(max, threads), steps).value;
      && (Apply(s, Add(t)).threads[t].Ready? <==> s.begun < max)
      && (Apply(s, Add(t)).threads[t].Ready? <==> s.granted < max)
  {
    var start := Init(max, threads);
    SumZero(IsOver, start.threads);
    ExecKeeps(start, steps);
    StepKeepsInv(Exec(start, steps).value, Add(t));
  }

  // ----- One metered search -------------------------------------------------------------

  /** The budget as one goroutine sees it between its own calls. */
  class Budget {
    const max: int
    var used: int

    constructor (max: int)
      ensures this.max == max && used == 0
    {
      this.max := max;
      used := 0;
    }

    method Take() returns (ok: bool)
      modifies this
      ensures ok <==> old(used) < max
      ensures used == old(used) + if ok then 1 else 0
    {
      used := used + 1;
      if used > max {
        used := used - 1;
        return false;
      }
      return true;
    }
  }

  /** How one request went. `Broken` is a failure after which the context is cancelled or
      the key is known to be bad; only `Transient` is worth a second try. */
  datatype Attempt = Found(results: seq<string>) | Transient | Broken

  datatype Outcome = Results(results: seq<string>) | Exhausted | Cancelled | Failed(last: Attempt)

  /** At most two requests go out, each paid for before it is sent; the second only after
      a transient failure, unless the context ends during the delay between them. */
  method Metered(budget: Budget, first: Attempt, second: Attempt, cancelledWaiting: bool)
    returns (outcome: Outcome, sent: nat)
    modifies budget
    ensures outcome == Exhausted <==>
      sent == 0 || (sent == 1 && first.Transient? && !cancelledWaiting && budget.used == budget.max)
    ensures outcome == Cancelled <==> sent == 1 && first.Transient? && cancelledWaiting
    ensures sent == 1 && first.Found? ==> outcome == Results(first.results)
    ensures sent == 1 && first.Broken? ==> outcome == Failed(first)
    ensures sent == 2 ==> outcome == if second.Found? then Results(second.results) else Failed(second)
    ensures budget.used == old(budget.used) + sent && sent <= 2
    ensures sent == 0 <==> old(budget.used) >= budget.max
    ensures sent == 2 <==> old(budget.used) + 2 <= budget.max && first.Transient? && !cancelledWaiting
    ensures old(budget.used) <= budget.max ==> budget.used <= budget.max
  {
    var last := Broken;
    sent := 0;
    var attempt := 0;
    while attempt < 2
      invariant 0 <= attempt <= 2 && sent == attempt
      invariant budget.used == old(budget.used) + sent
      invariant sent > 0 ==> budget.used <= budget.max
      invariant attempt == 1 ==> last == first && first.Transient?
      invariant attempt == 2 ==> last == second && !second.Found? && first.Transient? && !cancelledWaiting
    {
      if attempt > 0 && cancelledWaiting { return Cancelled, sent; }
      var ok := budget.Take();
      if !ok { return Exhausted, sent; }
      sent := sent + 1;
      var reply := if attempt == 0 then first else second;
      if reply.Found? { return Results(reply.results), sent; }
      last := reply;
      if reply.Broken? { return Failed(last), sent; }
      attempt := attempt + 1;
    }
    outcome := Failed(last);
  }
}

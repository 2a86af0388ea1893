/** Looking up many company names at once on three job-board providers. The workers, the
    feeding caller, the shared failure counter, the abort flag and the cancellation
    interleave freely. */
module BoardGuess {
  import opened Sums
  import opened BoardVerdict

  /** The run stops after this many failed probes. */
  const MAX_PROBE_ERRORS: nat := 25

  // ----- What the probes of one name add up to ----------------------------------------------

  datatype Board = Board(slot: nat, proven: bool)

  datatype Outcome = Outcome(
    done: bool, needsDomain: bool,
    boards: seq<Board>, allProven: bool,
    refused: nat, failed: nat)

  const BLANK := Outcome(false, false, [], false, 0, 0)

  function Record(o: Outcome, slot: nat, p: Probe): Outcome {
    match p
    case Errored => o.(failed := o.failed + 1)
    case Answer(v) =>
      match v
      case Owned => o.(boards := o.boards + [Board(slot, false)], allProven := false)
      case Proven => o.(boards := o.boards + [Board(slot, true)])
      case Foreign => o.(refused := o.refused + 1)
      case NamedOther => o.(refused := o.refused + 1)
      case Uncorroborated => o.(refused := o.refused + 1)
      case _ => o
  }

  function Tally(trail: seq<Probe>): Outcome {
    if trail == [] then Outcome(false, false, [], true, 0, 0)
    else Record(Tally(trail[..|trail| - 1]), |trail| - 1, trail[|trail| - 1])
  }

  /** The tally lists exactly the slots with a usable board ... */
  lemma {:induction false} BoardsAre(trail: seq<Probe>, b: Board)
    ensures b in Tally(trail).boards <==>
      b.slot < |trail| && trail[b.slot] == Answer(if b.proven then Proven else Owned)
  {
    if trail != [] {
      var front, n := trail[..|trail| - 1], |trail| - 1;
      BoardsAre(front, b);
      assert b.slot < n ==> front[b.slot] == trail[b.slot];
    }
  }

  /** ... in order, and knows whether all of them were proven and whether a probe failed. */
  lemma {:induction false} TallyMeans(trail: seq<Probe>)
    ensures var o := Tally(trail);
      && (o.allProven <==> Answer(Owned) !in trail)
      && (o.failed > 0 <==> Errored in trail)
      && (o.refused > 0 <==> Answer(Foreign) in trail || Answer(NamedOther) in trail || Answer(Uncorroborated) in trail)
      && (forall i :: 0 <= i < |o.boards| ==> o.boards[i].slot < |trail|)
      && (forall i, j :: 0 <= i < j < |o.boards| ==> o.boards[i].slot < o.boards[j].slot)
  {
    if trail != [] {
      var front := trail[..|trail| - 1];
      TallyMeans(front);
      assert trail == front + [trail[|trail| - 1]];
    }
  }

  // ----- The machine ---------------------------------------------------------------------------

  datatype Worker =
    | Idle
    | Asking(i: nat)     // about to look at the context, or finished with name i
    | Probing(i: nat)    // a request is under way
    | Counting(i: nat)   // it failed; the failure is recorded but not counted yet
    | Tripping(i: nat)   // the count reached the limit; the abort flag comes next
    | Stopping(i: nat)   // this worker set the flag; the cancellation comes next
    | Exited

  datatype Status = Open | Finished | Left

  datatype Run = Run(
    needs: seq<bool>,        // names never looked up without a domain
    slots: seq<nat>,         // how many boards each name is tried on
    next: nat, feeding: bool,
    workers: seq<Worker>,
    holder: seq<nat>,        // the worker a name was handed to
    trails: seq<seq<Probe>>, // what each name's probes gave so far
    status: seq<Status>,     // Open until the worker stores the name's outcome
    errors: nat, aborted: bool, cancelled: bool,
    outside: bool)           // the caller cancelled

  datatype Step =
    | Hand(w: nat) | StopFeeding
    | Look(w: nat) | Reply(w: nat, p: Probe) | Count(w: nat) | Trip(w: nat) | Stop(w: nat) | Finish(w: nat)
    | Exit(w: nat) | Cancel

  function Init(needs: seq<bool>, slots: seq<nat>, workers: nat): Run
    requires |needs| == |slots|
  {
    Run(needs, slots, 0, true, seq(workers, _ => Idle), seq(|needs|, _ => 0),
        seq(|needs|, _ => []), seq(|needs|, _ => Open), 0, false, false, false)
  }

  predicate HasItem(w: Worker) { !w.Idle? && !w.Exited? }

  predicate Shaped(r: Run) {
    && |r.slots| == |r.needs| == |r.holder| == |r.trails| == |r.status|
    && r.next <= |r.needs|
    && forall w :: 0 <= w < |r.workers| && HasItem(r.workers[w]) ==> r.workers[w].i < |r.needs|
  }

  predicate Enabled(r: Run, s: Step)
    requires Shaped(r)
  {
    match s
    case Hand(w) => r.feeding && r.next < |r.needs| && w < |r.workers| && r.workers[w].Idle?
    case StopFeeding => r.feeding && (r.next == |r.needs| || r.cancelled)
    case Look(w) =>
      w < |r.workers| && r.workers[w].Asking? &&
      var i := r.workers[w].i; !r.needs[i] && |r.trails[i]| < r.slots[i]
    case Reply(w, _) => w < |r.workers| && r.workers[w].Probing?
    case Count(w) => w < |r.workers| && r.workers[w].Counting?
    case Trip(w) => w < |r.workers| && r.workers[w].Tripping?
    case Stop(w) => w < |r.workers| && r.workers[w].Stopping?
    case Finish(w) =>
      w < |r.workers| && r.workers[w].Asking? &&
      var i := r.workers[w].i; r.needs[i] || |r.trails[i]| >= r.slots[i]
    case Exit(w) => w < |r.workers| && r.workers[w].Idle? && !r.feeding
    case Cancel => !r.cancelled
  }

  function Apply(r: Run, s: Step): Run
    requires Shaped(r) && Enabled(r, s)
  {
    match s
    case Hand(w) =>
      r.(workers := r.workers[w := Asking(r.next)], holder := r.holder[r.next := w], next := r.next + 1)
    case StopFeeding => r.(feeding := false)
    case Look(w) =>
      var i := r.workers[w].i;
      if r.cancelled then r.(workers := r.workers[w := Idle], status := r.status[i := Left])
      else r.(workers := r.workers[w := Probing(i)])
    case Reply(w, p) =>
      var i := r.workers[w].i;
      if p.Errored? && r.cancelled then r.(workers := r.workers[w := Idle], status := r.status[i := Left])
      else r.(workers := r.workers[w := if p.Errored? then Counting(i) else Asking(i)],
              trails := r.trails[i := r.trails[i] + [p]])
    case Count(w) =>
      var i := r.workers[w].i;
      r.(errors := r.errors + 1,
         workers := r.workers[w := if r.errors + 1 >= MAX_PROBE_ERRORS then Tripping(i) else Asking(i)])
    case Trip(w) =>
      var i := r.workers[w].i;
      if r.aborted then r.(workers := r.workers[w := Asking(i)])
      else r.(aborted := true, workers := r.workers[w := Stopping(i)])
    case Stop(w) => r.(cancelled := true, workers := r.workers[w := Asking(r.workers[w].i)])
    case Finish(w) => r.(workers := r.workers[w := Idle], status := r.status[r.workers[w].i := Finished])
    case Exit(w) => r.(workers := r.workers[w := Exited])
    case Cancel => r.(cancelled := true, outside := true)
  }

  /** What is stored for name `i`. */
  function Result(r: Run, i: nat): Outcome
    requires Shaped(r) && i < |r.needs|
  {
    match r.status[i]
    case Open => BLANK
    case Left => Tally(r.trails[i])
    case Finished => if r.needs[i] then BLANK.(done := true, needsDomain := true) else Tally(r.trails[i]).(done := true)
  }

  // ----- What every step keeps -------------------------------------------------------------------

  /** The worker's item is its own, open, and not overrun. */
  ghost predicate WorkerOK(r: Run, w: nat)
    requires Shaped(r) && w < |r.workers|
  {
    var x := r.workers[w];
    HasItem(x) ==>
      && x.i < r.next && r.holder[x.i] == w && r.status[x.i].Open?
      && (r.needs[x.i] ==> x.Asking?)
      && (x.Probing? ==> |r.trails[x.i]| < r.slots[x.i])
  }

  /** An open name that was handed out is with its holder; a name is finished only when
      every board was tried, and left only after a cancellation. */
  ghost predicate ItemOK(r: Run, i: nat)
    requires Shaped(r) && i < |r.needs|
  {
    && |r.trails[i]| <= r.slots[i]
    && (r.needs[i] ==> r.trails[i] == [])
    && (i >= r.next ==> r.status[i].Open? && r.trails[i] == [])
    && (i < r.next && r.status[i].Open? ==>
          var w := r.holder[i]; w < |r.workers| && HasItem(r.workers[w]) && r.workers[w].i == i)
    && (r.status[i].Finished? ==> r.needs[i] || |r.trails[i]| == r.slots[i])
    && (r.status[i].Left? ==> r.cancelled && !r.needs[i])
  }

  ghost predicate Inv(r: Run) {
    && Shaped(r)
    && (forall w: nat :: w < |r.workers| ==> WorkerOK(r, w))
    && (forall i: nat :: i < |r.needs| ==> ItemOK(r, i))
    && (r.feeding ==> forall w :: 0 <= w < |r.workers| ==> !r.workers[w].Exited?)
    && (!r.feeding ==> r.next == |r.needs| || r.cancelled)
  }

  predicate ByWorker(s: Step) { !s.StopFeeding? && !s.Cancel? }

  lemma {:induction false} StepShape(r: Run, s: Step)
    requires Shaped(r) && Enabled(r, s)
    ensures var q := Apply(r, s);
      && Shaped(q) && q.needs == r.needs && q.slots == r.slots && |q.workers| == |r.workers|
      && r.next <= q.next && (r.cancelled ==> q.cancelled)
      && (q.outside <==> r.outside || s == Cancel)
  {
    var q := Apply(r, s);
    StepSizes(r, s);
    forall w | 0 <= w < |q.workers| && HasItem(q.workers[w]) ensures q.workers[w].i < |q.needs| {
      assert q.workers[w] == r.workers[w] || w == s.w;
    }
  }

  lemma {:induction false} StepSizes(r: Run, s: Step)
    requires Shaped(r) && Enabled(r, s)
    ensures var q := Apply(r, s);
      && q.needs == r.needs && q.slots == r.slots && |q.workers| == |r.workers|
      && |q.holder| == |r.holder| && |q.trails| == |r.trails| && |q.status| == |r.status|
      && r.next <= q.next <= |r.needs|
      && (ByWorker(s) ==> s.w < |r.workers| && q.workers == r.workers[s.w := q.workers[s.w]])
      && (!ByWorker(s) ==> q.workers == r.workers)
      && (ByWorker(s) && HasItem(q.workers[s.w]) ==> q.workers[s.w].i < |r.needs|)
  {
    match s
    case Hand(w) =>
    case Look(w) =>
    case Reply(w, p) =>
    case _ =>
  }

  /** The name a step works on, if any. */
  function Touched(r: Run, s: Step): nat
    requires Shaped(r) && Enabled(r, s)
  {
    if !ByWorker(s) || s.Exit? then |r.needs| else if s.Hand? then r.next else r.workers[s.w].i
  }

  /** Other names and other workers stay as they are. */
  lemma {:induction false} OtherNamesStay(r: Run, s: Step, j: nat)
    requires Shaped(r) && Enabled(r, s) && Shaped(Apply(r, s)) && j < |r.needs| && j != Touched(r, s)
    ensures var q := Apply(r, s);
      && q.status[j] == r.status[j] && q.trails[j] == r.trails[j] && q.holder[j] == r.holder[j]
      && (j < q.next <==> j < r.next)
  {
    match s
    case Hand(w) =>
    case Look(w) =>
    case Reply(w, p) =>
    case _ =>
  }

  lemma {:induction false} OthersStay(r: Run, s: Step, v: nat)
    requires Shaped(r) && Enabled(r, s) && v < |r.workers|
    ensures |Apply(r, s).workers| == |r.workers|
    ensures !ByWorker(s) || s.w != v ==> Apply(r, s).workers[v] == r.workers[v]
  {}

  lemma {:induction false} OwnWorkerStep(r: Run, s: Step)
    requires Shaped(r) && Enabled(r, s) && Shaped(Apply(r, s)) && ByWorker(s) && WorkerOK(r, s.w)
    requires s.Hand? ==> ItemOK(r, r.next)
    ensures WorkerOK(Apply(r, s), s.w)
  {}

  lemma {:induction false} OwnItemHanded(r: Run, w: nat)
    requires Shaped(r) && Enabled(r, Hand(w)) && Shaped(Apply(r, Hand(w))) && ItemOK(r, r.next)
    ensures ItemOK(Apply(r, Hand(w)), r.next)
  {}

  lemma {:induction false} OwnItemLooked(r: Run, w: nat)
    requires Shaped(r) && Enabled(r, Look(w)) && Shaped(Apply(r, Look(w)))
    requires ItemOK(r, r.workers[w].i) && WorkerOK(r, w)
    ensures ItemOK(Apply(r, Look(w)), r.workers[w].i)
  {}

  lemma {:induction false} OwnItemAnswered(r: Run, w: nat, p: Probe)
    requires Shaped(r) && Enabled(r, Reply(w, p)) && Shaped(Apply(r, Reply(w, p)))
    requires ItemOK(r, r.workers[w].i) && WorkerOK(r, w)
    ensures ItemOK(Apply(r, Reply(w, p)), r.workers[w].i)
  {}

  /** Counting a failure, and what follows from it, leaves the name with its worker. */
  lemma {:induction false} OwnItemKept(r: Run, s: Step)
    requires Shaped(r) && Enabled(r, s) && Shaped(Apply(r, s)) && (s.Count? || s.Trip? || s.Stop?)
    requires ItemOK(r, r.workers[s.w].i) && WorkerOK(r, s.w)
    ensures ItemOK(Apply(r, s), r.workers[s.w].i)
  {}

  lemma {:induction false} OwnItemFinished(r: Run, w: nat)
    requires Shaped(r) && Enabled(r, Finish(w)) && Shaped(Apply(r, Finish(w)))
    requires ItemOK(r, r.workers[w].i) && WorkerOK(r, w)
    ensures ItemOK(Apply(r, Finish(w)), r.workers[w].i)
  {}

  lemma {:induction false} OwnItemStep(r: Run, s: Step)
    requires Shaped(r) && Enabled(r, s) && Shaped(Apply(r, s)) && Touched(r, s) < |r.needs|
    requires ItemOK(r, Touched(r, s)) && WorkerOK(r, s.w)
    ensures ItemOK(Apply(r, s), Touched(r, s))
  {
    match s
    case Hand(w) => OwnItemHanded(r, w);
    case Look(w) => OwnItemLooked(r, w);
    case Reply(w, p) => OwnItemAnswered(r, w, p);
    case Finish(w) => OwnItemFinished(r, w);
    case _ => OwnItemKept(r, s);
  }

  lemma {:induction false} WorkerStep(r: Run, s: Step, w: nat)
    requires Inv(r) && Enabled(r, s) && w < |r.workers|
    requires Shaped(Apply(r, s)) && Apply(r, s).needs == r.needs && Apply(r, s).slots == r.slots
    requires r.next <= Apply(r, s).next
    ensures w < |Apply(r, s).workers| && WorkerOK(Apply(r, s), w)
  {
    OthersStay(r, s, w);
    assert WorkerOK(r, w);
    if ByWorker(s) { assert WorkerOK(r, s.w); }
    if s.Hand? { assert ItemOK(r, r.next); }
    if ByWorker(s) && s.w == w {
      OwnWorkerStep(r, s);
    } else if HasItem(r.workers[w]) {
      OtherNamesStay(r, s, r.workers[w].i);
    }
  }

  lemma {:induction false} ItemStep(r: Run, s: Step, i: nat)
    requires Inv(r) && Enabled(r, s) && i < |r.needs|
    requires Shaped(Apply(r, s)) && Apply(r, s).needs == r.needs && Apply(r, s).slots == r.slots
    requires r.cancelled ==> Apply(r, s).cancelled
    ensures ItemOK(Apply(r, s), i)
  {
    assert ItemOK(r, i);
    if ByWorker(s) { assert WorkerOK(r, s.w); }
    if i == Touched(r, s) {
      OwnItemStep(r, s);
    } else {
      OtherNamesStay(r, s, i);
      if i < r.next && r.status[i].Open? { OthersStay(r, s, r.holder[i]); }
    }
  }

  lemma {:induction false} StepKeepsInv(r: Run, s: Step)
    requires Inv(r) && Enabled(r, s)
    ensures Inv(Apply(r, s))
  {
    var q := Apply(r, s);
    StepShape(r, s);
    forall w: nat | w < |q.workers| ensures WorkerOK(q, w) { WorkerStep(r, s, w); }
    forall i: nat | i < |q.needs| ensures ItemOK(q, i) { ItemStep(r, s, i); }
  }

  // ----- Counting the failures -----------------------------------------------------------------------

  /** Failed probes recorded for the first `n` names. */
  function Failures(trails: seq<seq<Probe>>, n: nat): nat
    requires n <= |trails|
  {
    if n == 0 then 0 else Failures(trails, n - 1) + Tally(trails[n - 1]).failed
  }

  function Counts(w: Worker): nat { Bit(w.Counting?) }

  function Uncounted(ws: seq<Worker>): nat { Sum(Counts, ws) }

  lemma {:induction false} FailuresUpdate(trails: seq<seq<Probe>>, i: nat, p: Probe, n: nat)
    requires i < |trails| && n <= |trails|
    ensures Failures(trails[i := trails[i] + [p]], n) == Failures(trails, n) + Bit(i < n && p.Errored?)
  {
    if n > 0 {
      FailuresUpdate(trails, i, p, n - 1);
      if i == n - 1 { assert (trails[i] + [p])[..|trails[i]|] == trails[i]; }
    }
  }

  lemma {:induction false} NoFailures(trails: seq<seq<Probe>>, n: nat)
    requires n <= |trails| && forall i :: 0 <= i < |trails| ==> trails[i] == []
    ensures Failures(trails, n) == 0
  {
    if n > 0 { NoFailures(trails, n - 1); }
  }

  /** The counter is behind the recorded failures by those being counted, the flag follows
      the counter, and the cancellation follows the flag or the caller. */
  ghost predicate CountOK(r: Run)
    requires Shaped(r)
  {
    && r.errors + Uncounted(r.workers) == Failures(r.trails, |r.trails|)
    && (r.aborted ==> r.errors >= MAX_PROBE_ERRORS)
    && (r.errors >= MAX_PROBE_ERRORS ==> r.aborted || exists w :: 0 <= w < |r.workers| && r.workers[w].Tripping?)
    && (r.aborted ==> r.cancelled || exists w :: 0 <= w < |r.workers| && r.workers[w].Stopping?)
    && (r.cancelled ==> r.aborted || r.outside) && (r.outside ==> r.cancelled)
    && (forall w :: 0 <= w < |r.workers| && r.workers[w].Stopping? ==> r.aborted)
    && (forall w :: 0 <= w < |r.workers| && r.workers[w].Tripping? ==> r.errors >= MAX_PROBE_ERRORS)
  }

  lemma {:induction false} CounterStep(r: Run, s: Step)
    requires Inv(r) && Enabled(r, s)
    ensures var q := Apply(r, s);
      q.errors + Uncounted(q.workers) + Failures(r.trails, |r.trails|)
        == r.errors + Uncounted(r.workers) + Failures(q.trails, |q.trails|)
  {
    if !s.StopFeeding? && !s.Cancel? {
      SumUpdate(Counts, r.workers, s.w, Apply(r, s).workers[s.w]);
    }
    if s.Reply? {
      var i := r.workers[s.w].i;
      FailuresUpdate(r.trails, i, s.p, |r.trails|);
    }
  }

  lemma {:induction false} FlagStep(r: Run, s: Step)
    requires Shaped(r) && CountOK(r) && Enabled(r, s) && Shaped(Apply(r, s))
    ensures var q := Apply(r, s);
      && (q.aborted ==> q.errors >= MAX_PROBE_ERRORS)
      && (q.cancelled ==> q.aborted || q.outside) && (q.outside ==> q.cancelled)
      && (forall w :: 0 <= w < |q.workers| && q.workers[w].Stopping? ==> q.aborted)
      && (forall w :: 0 <= w < |q.workers| && q.workers[w].Tripping? ==> q.errors >= MAX_PROBE_ERRORS)
  {}

  lemma {:induction false} StepKeepsCount(r: Run, s: Step)
    requires Inv(r) && CountOK(r) && Enabled(r, s)
    ensures Shaped(Apply(r, s)) && CountOK(Apply(r, s))
  {
    StepShape(r, s);
    CounterStep(r, s);
    FlagStep(r, s);
    var q := Apply(r, s);
    if q.errors >= MAX_PROBE_ERRORS && !q.aborted { SomeTripping(r, s); }
    if q.aborted && !q.cancelled { SomeStopping(r, s); }
  }

  lemma {:induction false} SomeTripping(r: Run, s: Step)
    requires Shaped(r) && CountOK(r) && Enabled(r, s)
    requires Apply(r, s).errors >= MAX_PROBE_ERRORS && !Apply(r, s).aborted
    ensures var q := Apply(r, s); exists w :: 0 <= w < |q.workers| && q.workers[w].Tripping?
  {
    var q := Apply(r, s);
    var v: nat := if s.Count? then s.w else 0;
    if !s.Count? {
      v :| v < |r.workers| && r.workers[v].Tripping?;
      OthersStay(r, s, v);
    }
    assert q.workers[v].Tripping?;
  }

  lemma {:induction false} SomeStopping(r: Run, s: Step)
    requires Shaped(r) && CountOK(r) && Enabled(r, s)
    requires Apply(r, s).aborted && !Apply(r, s).cancelled
    ensures var q := Apply(r, s); exists w :: 0 <= w < |q.workers| && q.workers[w].Stopping?
  {
    var q := Apply(r, s);
    var v: nat := if s.Trip? then s.w else 0;
    if r.aborted {
      v :| v < |r.workers| && r.workers[v].Stopping?;
      OthersStay(r, s, v);
    }
    assert q.workers[v].Stopping?;
  }

  // ----- Termination and progress ------------------------------------------------------------------------

  function Phase(w: Worker): nat {
    match w
    case Idle => 1 case Exited => 0
    case Asking(_) => 2 case Probing(_) => 1 case Counting(_) => 5 case Tripping(_) => 4 case Stopping(_) => 3
  }

  function Phases(ws: seq<Worker>): nat { Sum(Phase, ws) }

  /** Steps still owed for name `i`. */
  function Owed(r: Run, i: nat): nat
    requires Shaped(r) && i < |r.needs|
  {
    (if r.status[i].Open? && |r.trails[i]| <= r.slots[i] then 6 * (r.slots[i] - |r.trails[i]|) + 3 else 0)
      + if i >= r.next then 2 else 0
  }

  function AllOwed(r: Run, n: nat): nat
    requires Shaped(r) && n <= |r.needs|
  {
    if n == 0 then 0 else AllOwed(r, n - 1) + Owed(r, n - 1)
  }

  function StepsLeft(r: Run): nat
    requires Shaped(r)
  {
    AllOwed(r, |r.needs|) + Phases(r.workers) + Bit(r.feeding) + Bit(!r.cancelled)
  }

  /** Only name `i` is owed less. */
  lemma {:induction false} OwedLess(r: Run, q: Run, i: nat, n: nat)
    requires Shaped(r) && Shaped(q) && |r.needs| == |q.needs| && n <= |r.needs|
    requires forall j: nat :: j < |r.needs| && j != i ==> Owed(q, j) == Owed(r, j)
    ensures i >= n ==> AllOwed(q, n) == AllOwed(r, n)
    ensures i < n ==> AllOwed(q, n) - Owed(q, i) == AllOwed(r, n) - Owed(r, i)
  {
    if n > 0 { OwedLess(r, q, i, n - 1); }
  }

  lemma {:induction false} OwnOwed(r: Run, s: Step)
    requires Shaped(r) && Enabled(r, s) && Shaped(Apply(r, s)) && Touched(r, s) < |r.needs|
    requires ItemOK(r, Touched(r, s)) && WorkerOK(r, s.w)
    ensures Owed(Apply(r, s), Touched(r, s)) + Phase(Apply(r, s).workers[s.w])
      < Owed(r, Touched(r, s)) + Phase(r.workers[s.w])
  {
    var q, i := Apply(r, s), Touched(r, s);
    assert r.status[i].Open? && |r.trails[i]| <= r.slots[i] == q.slots[i];
    if s.Reply? && q.status[i].Open? {
      assert |q.trails[i]| == |r.trails[i]| + 1;
    } else {
      assert q.trails[i] == r.trails[i];
    }
  }

  lemma {:induction false} StepUsesUp(r: Run, s: Step)
    requires Inv(r) && Enabled(r, s)
    ensures Shaped(Apply(r, s)) && StepsLeft(Apply(r, s)) < StepsLeft(r)
  {
    StepShape(r, s);
    var q, i := Apply(r, s), Touched(r, s);
    if ByWorker(s) {
      assert WorkerOK(r, s.w);
      SumUpdate(Phase, r.workers, s.w, q.workers[s.w]);
    }
    if i < |r.needs| {
      assert ItemOK(r, i);
      OwnOwed(r, s);
    }
    forall j: nat | j < |r.needs| && j != i ensures Owed(q, j) == Owed(r, j) { OtherNamesStay(r, s, j); }
    OwedLess(r, q, i, |r.needs|);
    FlagsLeft(r, s);
  }

  lemma {:induction false} FlagsLeft(r: Run, s: Step)
    requires Shaped(r) && Enabled(r, s)
    ensures var q := Apply(r, s);
      && Bit(q.feeding) + Bit(!q.cancelled) <= Bit(r.feeding) + Bit(!r.cancelled)
      && (!ByWorker(s) ==>
            q.workers == r.workers && Bit(q.feeding) + Bit(!q.cancelled) < Bit(r.feeding) + Bit(!r.cancelled))
      && (ByWorker(s) ==> q.workers == r.workers[s.w := q.workers[s.w]])
      && (s.Exit? ==> Phase(q.workers[s.w]) < Phase(r.workers[s.w]))
  {}

  predicate AllExited(r: Run) { forall w :: 0 <= w < |r.workers| ==> r.workers[w].Exited? }

  /** The caller has closed the feed and the workers are gone: Guess reports. */
  predicate Over(r: Run) { !r.feeding && AllExited(r) }

  ghost predicate CanMove(r: Run, p: Probe)
    requires Shaped(r)
  {
    Enabled(r, StopFeeding) || exists w: nat :: w < |r.workers| && WorkerCanMove(r, w, p)
  }

  predicate WorkerCanMove(r: Run, w: nat, p: Probe)
    requires Shaped(r)
  {
    || Enabled(r, Hand(w)) || Enabled(r, Look(w)) || Enabled(r, Reply(w, p)) || Enabled(r, Count(w))
    || Enabled(r, Trip(w)) || Enabled(r, Stop(w)) || Enabled(r, Finish(w)) || Enabled(r, Exit(w))
  }

  lemma {:induction false} NeverStuck(r: Run, p: Probe)
    requires Inv(r) && r.workers != []
    ensures Over(r) || CanMove(r, p)
  {
    if !AllExited(r) {
      var w: nat :| w < |r.workers| && !r.workers[w].Exited?;
      if !r.workers[w].Idle? || !r.feeding || r.next < |r.needs| {
        assert WorkerCanMove(r, w, p);
      } else {
        assert Enabled(r, StopFeeding);
      }
    } else {
      assert r.workers[0].Exited?;
    }
  }

  // ----- Whole runs ------------------------------------------------------------------------------------------

  ghost predicate Exec(r: Run, steps: seq<Step>, last: Run)
    decreases |steps|
  {
    if steps == [] then last == r
    else Shaped(r) && Enabled(r, steps[0]) && Exec(Apply(r, steps[0]), steps[1..], last)
  }

  lemma {:induction false} ExecKeeps(r: Run, steps: seq<Step>, last: Run)
    requires Inv(r) && CountOK(r) && Exec(r, steps, last)
    ensures Inv(last) && CountOK(last) && StepsLeft(last) + |steps| <= StepsLeft(r)
    ensures last.needs == r.needs && last.slots == r.slots && |last.workers| == |r.workers|
    ensures last.outside <==> r.outside || Cancel in steps
    decreases |steps|
  {
    if steps != [] {
      StepShape(r, steps[0]);
      StepKeepsInv(r, steps[0]);
      StepKeepsCount(r, steps[0]);
      StepUsesUp(r, steps[0]);
      ExecKeeps(Apply(r, steps[0]), steps[1..], last);
    }
  }

  lemma {:induction false} InitOK(needs: seq<bool>, slots: seq<nat>, workers: nat)
    requires |needs| == |slots|
    ensures Inv(Init(needs, slots, workers)) && CountOK(Init(needs, slots, workers))
  {
    var r := Init(needs, slots, workers);
    SumZero(Counts, r.workers);
    NoFailures(r.trails, |r.trails|);
  }

  /** Name `i` is completed - wanting a domain, or with every one of its boards tried - or
      the run was cancelled. */
  ghost predicate Settled(r: Run, i: nat)
    requires Shaped(r) && i < |r.needs|
  {
    var o := Result(r, i);
    if o.done then
      if r.needs[i] then o == BLANK.(done := true, needsDomain := true)
      else o == Tally(r.trails[i]).(done := true) && |r.trails[i]| == r.slots[i]
    else r.cancelled
  }

  lemma {:induction false} TallyNotDone(trail: seq<Probe>)
    ensures !Tally(trail).done && !Tally(trail).needsDomain
  {
    if trail != [] { TallyNotDone(trail[..|trail| - 1]); }
  }

  /** Every interleaving of workers, cancellation and abort: no run is longer than the
      bound and none gets stuck. When it is over, every name is either finished - refused
      a look-up for want of a domain, or with every one of its boards tried - or was not
      completed, which only happens when the run was cancelled; it was aborted exactly
      when the failure limit was reached, and cancelled only by that or by the caller. */
  lemma {:induction false} EveryRun(needs: seq<bool>, slots: seq<nat>, workers: nat, steps: seq<Step>, r: Run, p: Probe)
    requires |needs| == |slots| && workers > 0 && Exec(Init(needs, slots, workers), steps, r)
    ensures Shaped(r) && r.needs == needs && r.slots == slots && |steps| <= StepsLeft(Init(needs, slots, workers))
    ensures Over(r) || CanMove(r, p)
    ensures Over(r) ==>
      && (forall i: nat :: i < |needs| ==> Settled(r, i))
      && r.errors == Failures(r.trails, |r.trails|)
      && (r.aborted <==> r.errors >= 25)
      && (r.cancelled <==> r.aborted || Cancel in steps)
  {
    var start := Init(needs, slots, workers);
    InitOK(needs, slots, workers);
    ExecKeeps(start, steps, r);
    NeverStuck(r, p);
    if Over(r) {
      SumZero(Counts, r.workers);
      forall i: nat | i < |needs| ensures Settled(r, i) {
        assert ItemOK(r, i);
        TallyNotDone(r.trails[i]);
      }
    }
  }

  // ----- The report ---------------------------------------------------------------------------------------------

  datatype Class = Unreached | WantsDomain | Ambiguous | NotFound | RefusedOrFailed | Found

  function Classify(o: Outcome): Class {
    if !o.done then Unreached
    else if o.needsDomain then WantsDomain
    else if |o.boards| > 1 && !o.allProven then Ambiguous
    else if o.boards == [] then if o.refused == 0 && o.failed == 0 then NotFound else RefusedOrFailed
    else Found
  }

  /** The first `n` names of one class, in order. */
  function Names(results: seq<Outcome>, n: nat, c: Class): seq<nat>
    requires n <= |results|
  {
    if n == 0 then []
    else Names(results, n - 1, c) + if Classify(results[n - 1]) == c then [n - 1] else []
  }

  function Candidates(results: seq<Outcome>, n: nat): seq<(nat, Board)>
    requires n <= |results|
  {
    if n == 0 then []
    else
      var o := results[n - 1];
      Candidates(results, n - 1) +
        if Classify(o).Found? then seq(|o.boards|, k requires 0 <= k < |o.boards| => (n - 1, o.boards[k])) else []
  }

  datatype Report = Report(
    found: nat, boards: nat, unreached: seq<nat>, needsDomain: seq<nat>, ambiguous: seq<nat>, notFound: seq<nat>)

  /** The boards of a looked-up name may be used: there is one, or the domain proves them all. */
  ghost predicate Usable(o: Outcome) {
    o.done && !o.needsDomain && (|o.boards| == 1 || (|o.boards| > 1 && o.allProven))
  }

  /** Where each name stands in the report, and which boards are candidates. */
  ghost predicate Reports(results: seq<Outcome>, report: Report, candidates: seq<(nat, Board)>) {
    && (forall i: nat :: i in report.unreached <==> i < |results| && !results[i].done)
    && (forall i: nat :: i in report.needsDomain <==> i < |results| && results[i].done && results[i].needsDomain)
    && (forall i: nat :: i in report.ambiguous <==>
          && i < |results| && results[i].done && !results[i].needsDomain
          && |results[i].boards| > 1 && !results[i].allProven)
    && (forall i: nat :: i in report.notFound <==>
          && i < |results| && results[i].done && !results[i].needsDomain && |results[i].boards| == 0
          && results[i].refused == 0 && results[i].failed == 0)
    && (forall i: nat, b :: (i, b) in candidates <==>
          i < |results| && Usable(results[i]) && b in results[i].boards)
    && report.found == |set i: nat | i < |results| && Usable(results[i])|
    && report.boards == |candidates|
  }

  method MakeReport(results: seq<Outcome>) returns (report: Report, candidates: seq<(nat, Board)>)
    ensures Reports(results, report, candidates)
    ensures candidates == Candidates(results, |results|) && report.boards == |candidates|
    ensures report.unreached == Names(results, |results|, Unreached)
    ensures report.needsDomain == Names(results, |results|, WantsDomain)
    ensures report.ambiguous == Names(results, |results|, Ambiguous)
    ensures report.notFound == Names(results, |results|, NotFound)
    ensures report.found == |Names(results, |results|, Found)|
    ensures |results| == report.found + |report.unreached| + |report.needsDomain| + |report.ambiguous|
      + |report.notFound| + |Names(results, |results|, RefusedOrFailed)|
  {
    report := Report(0, 0, [], [], [], []);
    candidates := [];
    for i := 0 to |results|
      invariant candidates == Candidates(results, i) && report.boards == |candidates|
      invariant report.unreached == Names(results, i, Unreached)
      invariant report.needsDomain == Names(results, i, WantsDomain)
      invariant report.ambiguous == Names(results, i, Ambiguous)
      invariant report.notFound == Names(results, i, NotFound)
      invariant report.found == |Names(results, i, Found)|
      invariant i == report.found + |report.unreached| + |report.needsDomain| + |report.ambiguous|
        + |report.notFound| + |Names(results, i, RefusedOrFailed)|
    {
      var o := results[i];
      if !o.done {
        report := report.(unreached := report.unreached + [i]);
        continue;
      }
      if o.needsDomain {
        report := report.(needsDomain := report.needsDomain + [i]);
      } else if |o.boards| > 1 && !o.allProven {
        report := report.(ambiguous := report.ambiguous + [i]);
      } else if |o.boards| == 0 {
        if o.refused == 0 && o.failed == 0 {
          report := report.(notFound := report.notFound + [i]);
        }
      } else {
        report := report.(found := report.found + 1, boards := report.boards + |o.boards|);
        candidates := candidates + seq(|o.boards|, k requires 0 <= k < |o.boards| => (i, o.boards[k]));
      }
    }
    ReportIs(results, report, candidates);
  }

  lemma {:induction false} ReportIs(results: seq<Outcome>, report: Report, candidates: seq<(nat, Board)>)
    requires candidates == Candidates(results, |results|) && report.boards == |candidates|
    requires report.unreached == Names(results, |results|, Unreached)
    requires report.needsDomain == Names(results, |results|, WantsDomain)
    requires report.ambiguous == Names(results, |results|, Ambiguous)
    requires report.notFound == Names(results, |results|, NotFound)
    requires report.found == |Names(results, |results|, Found)|
    ensures Reports(results, report, candidates)
  {
    forall i: nat ensures i in report.unreached <==> i < |results| && Classify(results[i]) == Unreached {
      NamesAre(results, |results|, Unreached, i);
    }
    forall i: nat ensures i in report.needsDomain <==> i < |results| && Classify(results[i]) == WantsDomain {
      NamesAre(results, |results|, WantsDomain, i);
    }
    forall i: nat ensures i in report.ambiguous <==> i < |results| && Classify(results[i]) == Ambiguous {
      NamesAre(results, |results|, Ambiguous, i);
    }
    forall i: nat ensures i in report.notFound <==> i < |results| && Classify(results[i]) == NotFound {
      NamesAre(results, |results|, NotFound, i);
    }
    forall i: nat, b ensures (i, b) in candidates <==> i < |results| && Usable(results[i]) && b in results[i].boards {
      CandidatesAre(results, |results|, i, b);
    }
    FoundCount(results, |results|);
  }

  lemma {:induction false} FoundCount(results: seq<Outcome>, n: nat)
    requires n <= |results|
    ensures |Names(results, n, Found)| == |set i: nat | i < n && Usable(results[i])|
  {
    if n > 0 {
      FoundCount(results, n - 1);
      var before, now := set i: nat | i < n - 1 && Usable(results[i]), set i: nat | i < n && Usable(results[i]);
      assert now == if Usable(results[n - 1]) then before + {n - 1} else before;
    }
  }

  /** The candidates are exactly the boards of the names that may be used. */
  lemma {:induction false} CandidatesAre(results: seq<Outcome>, n: nat, i: nat, b: Board)
    requires n <= |results|
    ensures (i, b) in Candidates(results, n) <==> i < n && Usable(results[i]) && b in results[i].boards
  {
    if n > 0 {
      CandidatesAre(results, n - 1, i, b);
      var o := results[n - 1];
      var mine := seq(|o.boards|, k requires 0 <= k < |o.boards| => (n - 1, o.boards[k]));
      if (i, b) in mine {
        var k :| 0 <= k < |mine| && mine[k] == (i, b);
        assert b == o.boards[k];
      }
      if i == n - 1 && b in o.boards {
        var k :| 0 <= k < |o.boards| && o.boards[k] == b;
        assert mine[k] == (i, b);
      }
    }
  }

  /** Every name falls into exactly one list. */
  lemma {:induction false} NamesAre(results: seq<Outcome>, n: nat, c: Class, i: nat)
    requires n <= |results|
    ensures i in Names(results, n, c) <==> i < n && Classify(results[i]) == c
  {
    if n > 0 { NamesAre(results, n - 1, c, i); }
  }

  /** Every answer recorded in a run is one the probe may give for the name it was made for. */
  ghost predicate Probed(entries: seq<Entry>, r: Run, steps: seq<Step>)
    decreases |steps|
  {
    steps == [] || (
      && Shaped(r) && Enabled(r, steps[0]) && |entries| == |r.needs|
      && (steps[0].Reply? ==> Possible(entries[r.workers[steps[0].w].i], steps[0].p))
      && Probed(entries, Apply(r, steps[0]), steps[1..]))
  }

  ghost predicate AllPossible(entries: seq<Entry>, trails: seq<seq<Probe>>) {
    |trails| == |entries| &&
    forall k, j :: 0 <= k < |trails| && 0 <= j < |trails[k]| ==> Possible(entries[k], trails[k][j])
  }

  lemma {:induction false} StepPossible(entries: seq<Entry>, r: Run, s: Step)
    requires Shaped(r) && Enabled(r, s) && |entries| == |r.needs| && AllPossible(entries, r.trails)
    requires s.Reply? ==> Possible(entries[r.workers[s.w].i], s.p)
    ensures AllPossible(entries, Apply(r, s).trails)
  {
    var q := Apply(r, s);
    if q.trails != r.trails {
      var i := r.workers[s.w].i;
      forall k, j | 0 <= k < |q.trails| && 0 <= j < |q.trails[k]| ensures Possible(entries[k], q.trails[k][j]) {
        assert q.trails[k][j] == if k == i && j == |r.trails[i]| then s.p else r.trails[k][j];
      }
    }
  }

  lemma {:induction false} TrailsPossible(entries: seq<Entry>, r: Run, steps: seq<Step>, last: Run)
    requires Exec(r, steps, last) && Probed(entries, r, steps) && AllPossible(entries, r.trails)
    ensures AllPossible(entries, last.trails)
    decreases |steps|
  {
    if steps != [] {
      StepPossible(entries, r, steps[0]);
      TrailsPossible(entries, Apply(r, steps[0]), steps[1..], last);
    }
  }

  /** From a finished run to its candidates: the name's probes are complete, the board is
      one of them, and more than one board, or an everyday word, needs domain proof for
      every board. All that is asked of the probes is that they answer as their contracts in
      BoardVerdict say. */
  lemma {:induction false} EveryCandidate(
      entries: seq<Entry>, needs: seq<bool>, slots: seq<nat>, workers: nat, steps: seq<Step>, r: Run,
      results: seq<Outcome>, i: nat, b: Board)
    requires |entries| == |needs| == |slots| && workers > 0
    requires forall k: nat :: k < |needs| ==> needs[k] == NeedsDomain(entries[k])
    requires Exec(Init(needs, slots, workers), steps, r) && Shaped(r) && |r.needs| == |needs| && Over(r)
    requires Probed(entries, Init(needs, slots, workers), steps)
    requires |results| == |needs| && forall k: nat :: k < |needs| ==> results[k] == Result(r, k)
    requires (i, b) in Candidates(results, |results|)
    ensures i < |needs| && !needs[i] && |r.trails[i]| == slots[i] && b.slot < slots[i]
    ensures r.trails[i][b.slot] == Answer(if b.proven then Proven else Owned)
    ensures Possible(entries[i], Answer(if b.proven then Proven else Owned))
    ensures entries[i].common ==> b.proven
    ensures b.proven ==> entries[i].domain != ""
    ensures !b.proven ==> forall k: nat :: k < slots[i] && k != b.slot ==>
      r.trails[i][k] != Answer(Owned) && r.trails[i][k] != Answer(Proven)
  {
    EveryRun(needs, slots, workers, steps, r, Errored);
    CandidatesAre(results, |results|, i, b);
    assert results[i] == Result(r, i) && Settled(r, i) && r.slots[i] == slots[i];
    TallyNotDone(r.trails[i]);
    assert !needs[i];
    OnlyBoard(r.trails[i], b);
    TrailsPossible(entries, Init(needs, slots, workers), steps, r);
    PossibleAnswers(entries[i], r.trails[i][b.slot]);
  }

  /** The usable boards of one trail, seen from one of them. */
  lemma {:induction false} OnlyBoard(trail: seq<Probe>, b: Board)
    requires b in Tally(trail).boards && (|Tally(trail).boards| == 1 || Tally(trail).allProven)
    ensures b.slot < |trail| && trail[b.slot] == Answer(if b.proven then Proven else Owned)
    ensures !b.proven ==> forall k: nat :: k < |trail| && k != b.slot ==>
      trail[k] != Answer(Owned) && trail[k] != Answer(Proven)
  {
    TallyMeans(trail);
    BoardsAre(trail, b);
    var o := Tally(trail);
    if !b.proven {
      assert |o.boards| == 1;
      forall k: nat | k < |trail| && k != b.slot ensures trail[k] != Answer(Owned) && trail[k] != Answer(Proven) {
        BoardsAre(trail, Board(k, true));
        BoardsAre(trail, Board(k, false));
      }
    }
  }
}

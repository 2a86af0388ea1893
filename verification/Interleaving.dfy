/** Logs of atomic steps by several owners, and when their interleaving does not matter. */
module Interleaving {

  /** The state after the steps of a log. */
  ghost function Run<S, T>(exec: (S, T) -> S, s: S, log: seq<T>): S {
    if log == [] then s else exec(Run(exec, s, log[..|log| - 1]), log[|log| - 1])
  }

  /** The outcomes of the steps of a log that belong to `owner`. */
  ghost function Outcomes<S, T, O>(
    exec: (S, T) -> S, out: (S, T) -> O, owner: T -> int, s: S, log: seq<T>, t: int): seq<O>
  {
    if log == [] then []
    else
      var front, last := log[..|log| - 1], log[|log| - 1];
      Outcomes(exec, out, owner, s, front, t) + (if owner(last) == t then [out(Run(exec, s, front), last)] else [])
  }

  /** The steps of one owner, in order, and those of the others. */
  ghost function Of<T>(owner: T -> int, log: seq<T>, t: int): seq<T> {
    if log == [] then []
    else Of(owner, log[..|log| - 1], t) + (if owner(log[|log| - 1]) == t then [log[|log| - 1]] else [])
  }

  ghost function Others<T>(owner: T -> int, log: seq<T>, t: int): seq<T> {
    if log == [] then []
    else Others(owner, log[..|log| - 1], t) + (if owner(log[|log| - 1]) != t then [log[|log| - 1]] else [])
  }

  /** Two steps give the same state in either order, and neither changes the other's outcome. */
  ghost predicate Commute<S(!new), T, O>(exec: (S, T) -> S, out: (S, T) -> O, a: T, b: T) {
    forall s :: exec(exec(s, a), b) == exec(exec(s, b), a) && out(exec(s, a), b) == out(s, b)
  }

  lemma {:induction false} RunConcat<S, T>(exec: (S, T) -> S, s: S, a: seq<T>, b: seq<T>)
    ensures Run(exec, s, a + b) == Run(exec, Run(exec, s, a), b)
  {
    if b == [] {
      assert a + b == a;
    } else {
      assert (a + b)[..|a + b| - 1] == a + b[..|b| - 1];
      RunConcat(exec, s, a, b[..|b| - 1]);
    }
  }

  /** A step that commutes with every step of a log can be taken before the log. */
  lemma {:induction false} PassOver<S(!new), T, O>(exec: (S, T) -> S, out: (S, T) -> O, s: S, log: seq<T>, step: T)
    requires forall i :: 0 <= i < |log| ==> Commute(exec, out, log[i], step)
    ensures exec(Run(exec, s, log), step) == Run(exec, exec(s, step), log)
    ensures out(Run(exec, s, log), step) == out(s, step)
  {
    if log != [] {
      var front, last := log[..|log| - 1], log[|log| - 1];
      PassOver(exec, out, s, front, step);
      assert Commute(exec, out, last, step);
    }
  }

  lemma {:induction false} OthersAre<T>(owner: T -> int, log: seq<T>, t: int, step: T)
    requires step in Others(owner, log, t)
    ensures owner(step) != t && exists i :: 0 <= i < |log| && log[i] == step
  {
    var n := |log| - 1;
    if step in Others(owner, log[..n], t) {
      OthersAre(owner, log[..n], t, step);
      var i :| 0 <= i < n && log[..n][i] == step;
      assert log[i] == step;
    } else {
      assert log[n] == step;
    }
  }

  /** Steps of different owners commute. */
  ghost predicate Unrelated<S(!new), T, O>(exec: (S, T) -> S, out: (S, T) -> O, owner: T -> int, log: seq<T>) {
    forall i, j :: 0 <= i < |log| && 0 <= j < |log| && owner(log[i]) != owner(log[j]) ==>
      Commute(exec, out, log[i], log[j])
  }

  lemma {:induction false} OfSnoc<T>(owner: T -> int, log: seq<T>, step: T, t: int)
    ensures Of(owner, log + [step], t) == if owner(step) == t then Of(owner, log, t) + [step] else Of(owner, log, t)
    ensures Others(owner, log + [step], t) ==
      if owner(step) == t then Others(owner, log, t) else Others(owner, log, t) + [step]
  {}

  lemma {:induction false} RunSnoc<S, T>(exec: (S, T) -> S, s: S, log: seq<T>, step: T)
    ensures Run(exec, s, log + [step]) == exec(Run(exec, s, log), step)
  {}

  lemma {:induction false} UnrelatedFront<S(!new), T, O>(
    exec: (S, T) -> S, out: (S, T) -> O, owner: T -> int, log: seq<T>, step: T, t: int)
    requires Unrelated(exec, out, owner, log + [step])
    ensures Unrelated(exec, out, owner, log)
    ensures owner(step) == t ==> forall x :: x in Others(owner, log, t) ==> Commute(exec, out, x, step)
  {
    var all := log + [step];
    assert all[|log|] == step;
    assert forall i :: 0 <= i < |log| ==> all[i] == log[i];
    if owner(step) == t {
      forall x | x in Others(owner, log, t) ensures Commute(exec, out, x, step) {
        OthersAre(owner, log, t, x);
        var i :| 0 <= i < |log| && log[i] == x;
        assert all[i] == x;
      }
    }
  }

  /** The log has the effect of the steps of one owner, taken first and in one go, followed
      by the steps of the others. */
  lemma {:induction false} SequentialState<S(!new), T, O>(
    exec: (S, T) -> S, out: (S, T) -> O, owner: T -> int, s: S, log: seq<T>, t: int)
    requires Unrelated(exec, out, owner, log)
    ensures Run(exec, s, log) == Run(exec, Run(exec, s, Of(owner, log, t)), Others(owner, log, t))
  {
    if log != [] {
      var front, step := log[..|log| - 1], log[|log| - 1];
      assert log == front + [step];
      UnrelatedFront(exec, out, owner, front, step, t);
      SequentialState(exec, out, owner, s, front, t);
      OfSnoc(owner, front, step, t);
      var own, rest := Of(owner, front, t), Others(owner, front, t);
      RunSnoc(exec, s, front, step);
      if owner(step) == t {
        PassOver(exec, out, Run(exec, s, own), rest, step);
        RunSnoc(exec, s, own, step);
      } else {
        RunSnoc(exec, Run(exec, s, own), rest, step);
      }
    }
  }

  /** The steps of the owners in the given order, each owner's in one go. */
  ghost function InTurn<T>(owner: T -> int, log: seq<T>, order: seq<int>): seq<T> {
    if order == [] then [] else Of(owner, log, order[0]) + InTurn(owner, log, order[1..])
  }

  /** Each step of the owner has the outcome it has when its steps are taken alone. */
  lemma {:induction false} SequentialOutcomes<S(!new), T, O>(
    exec: (S, T) -> S, out: (S, T) -> O, owner: T -> int, s: S, log: seq<T>, t: int)
    requires Unrelated(exec, out, owner, log)
    ensures Outcomes(exec, out, owner, s, log, t) == Outcomes(exec, out, owner, s, Of(owner, log, t), t)
  {
    if log != [] {
      var front, step := log[..|log| - 1], log[|log| - 1];
      assert log == front + [step];
      UnrelatedFront(exec, out, owner, front, step, t);
      SequentialOutcomes(exec, out, owner, s, front, t);
      OfSnoc(owner, front, step, t);
      if owner(step) == t {
        var own, rest := Of(owner, front, t), Others(owner, front, t);
        SequentialState(exec, out, owner, s, front, t);
        PassOver(exec, out, Run(exec, s, own), rest, step);
      }
    }
  }

  lemma {:induction false} OfAre<T>(owner: T -> int, log: seq<T>, t: int, step: T)
    requires step in Of(owner, log, t)
    ensures owner(step) == t && step in log
  {
    var n := |log| - 1;
    if step in Of(owner, log[..n], t) {
      OfAre(owner, log[..n], t, step);
    }
  }

  /** The steps of another owner are all among the others, in the same order. */
  lemma {:induction false} OfOthers<T>(owner: T -> int, log: seq<T>, t: int, u: int)
    requires u != t
    ensures Of(owner, Others(owner, log, t), u) == Of(owner, log, u)
  {
    if log != [] {
      var front, step := log[..|log| - 1], log[|log| - 1];
      assert log == front + [step];
      OfOthers(owner, front, t, u);
      OfSnoc(owner, front, step, t);
      OfSnoc(owner, front, step, u);
      OfSnoc(owner, Others(owner, front, t), step, u);
    }
  }

  lemma {:induction false} InTurnOthers<T>(owner: T -> int, log: seq<T>, t: int, order: seq<int>)
    requires t !in order
    ensures InTurn(owner, Others(owner, log, t), order) == InTurn(owner, log, order)
  {
    if order != [] {
      assert order[0] in order;
      OfOthers(owner, log, t, order[0]);
      InTurnOthers(owner, log, t, order[1..]);
    }
  }

  predicate Distinct(order: seq<int>) { forall i, j :: 0 <= i < j < |order| ==> order[i] != order[j] }

  /** The order names every owner of a step, each once. */
  predicate Covers<T>(owner: T -> int, log: seq<T>, order: seq<int>) {
    Distinct(order) && forall i :: 0 <= i < |log| ==> owner(log[i]) in order
  }

  lemma {:induction false} OthersLeft<S(!new), T, O>(
    exec: (S, T) -> S, out: (S, T) -> O, owner: T -> int, log: seq<T>, order: seq<int>)
    requires order != [] && Covers(owner, log, order) && Unrelated(exec, out, owner, log)
    ensures Covers(owner, Others(owner, log, order[0]), order[1..])
    ensures Unrelated(exec, out, owner, Others(owner, log, order[0]))
    ensures order[0] !in order[1..]
  {
    var rest := Others(owner, log, order[0]);
    forall i | 0 <= i < |rest|
      ensures owner(rest[i]) in order[1..] && exists h :: 0 <= h < |log| && log[h] == rest[i]
    {
      OthersAre(owner, log, order[0], rest[i]);
      var h :| 0 <= h < |log| && log[h] == rest[i];
      assert owner(log[h]) in order;
    }
    forall i, j | 0 <= i < |rest| && 0 <= j < |rest| && owner(rest[i]) != owner(rest[j])
      ensures Commute(exec, out, rest[i], rest[j])
    {
      var a, b :| 0 <= a < |log| && log[a] == rest[i] && 0 <= b < |log| && log[b] == rest[j];
      assert Commute(exec, out, log[a], log[b]);
    }
  }

  /** A log has the effect of its owners' steps taken in turn, in any order of the owners. */
  lemma {:induction false} InTurnState<S(!new), T, O>(
    exec: (S, T) -> S, out: (S, T) -> O, owner: T -> int, s: S, log: seq<T>, order: seq<int>)
    requires Unrelated(exec, out, owner, log) && Covers(owner, log, order)
    ensures Run(exec, s, log) == Run(exec, s, InTurn(owner, log, order))
    decreases |order|
  {
    assert log != [] ==> owner(log[0]) in order;
    if order != [] {
      var t, rest := order[0], Others(owner, log, order[0]);
      SequentialState(exec, out, owner, s, log, t);
      OthersLeft(exec, out, owner, log, order);
      var mid := Run(exec, s, Of(owner, log, t));
      InTurnState(exec, out, owner, mid, rest, order[1..]);
      InTurnOthers(owner, log, t, order[1..]);
      RunConcat(exec, s, Of(owner, log, t), InTurn(owner, log, order[1..]));
    }
  }
}

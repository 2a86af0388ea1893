/** Classifying every job that needs a verdict, batch by batch in the order of the ids. */
module EligibilityRun {
  import opened Options

  datatype Status = Eligible | Ineligible | Uncertain

  /** A job: what the rules read, and the hash of its content. */
  datatype JobRow = JobRow(open: bool, input: string, hash: string)

  /** A stored verdict; `detail` stands for the explanation kept with it. */
  datatype Verdict = Verdict(status: Status, detail: string, version: int, target: string, hash: string)

  /** `classify` is `None` for a job the rules panic on; `fallback` is the explanation
      stored then. */
  datatype Rules = Rules(
    version: int, target: string, classify: string -> Option<(Status, string)>, fallback: string)

  function Panics(r: Rules, j: JobRow): bool { r.classify(j.input).None? }

  /** A panic gives an uncertain verdict, so the job stays visible. */
  function One(r: Rules, j: JobRow): Verdict {
    match r.classify(j.input)
    case Some(v) => Verdict(v.0, v.1, r.version, r.target, j.hash)
    case None => Verdict(Uncertain, r.fallback, r.version, r.target, j.hash)
  }

  type Jobs = map<int, JobRow>
  type Verdicts = map<int, Verdict>

  /** An open job with no verdict, or one by other rules, for another country or of an older
      version of the job. */
  predicate Needs(r: Rules, jobs: Jobs, verdicts: Verdicts, force: bool, id: int) {
    && id in jobs && jobs[id].open
    && (force || id !in verdicts || verdicts[id].version != r.version || verdicts[id].target != r.target
        || verdicts[id].hash != jobs[id].hash)
  }

  predicate Increasing(ids: seq<int>) { forall a, b :: 0 <= a < b < |ids| ==> ids[a] < ids[b] }

  ghost predicate Known(jobs: Jobs, ids: seq<int>) { forall a :: 0 <= a < |ids| ==> ids[a] in jobs }

  /** The verdicts of the given jobs replaced by what the rules say. */
  ghost function Rewritten(r: Rules, jobs: Jobs, verdicts: Verdicts, ids: seq<int>): Verdicts
  {
    map id | id in verdicts.Keys + (set x | x in ids && x in jobs) ::
      if id in ids && id in jobs then One(r, jobs[id]) else verdicts[id]
  }

  /** The rows written one after the other; a job deleted meanwhile is skipped. */
  function Stored(jobs: Jobs, verdicts: Verdicts, rows: seq<(int, Verdict)>): Verdicts {
    if rows == [] then verdicts
    else
      var before, last := Stored(jobs, verdicts, rows[..|rows| - 1]), rows[|rows| - 1];
      if last.0 in jobs then before[last.0 := last.1] else before
  }

  // ----- The same, field by field -------------------------------------------------------------

  /** A verdict by these rules, for this country, on this version of the job. */
  ghost predicate Current(r: Rules, j: JobRow, v: Verdict) {
    v.version == r.version && v.target == r.target && v.hash == j.hash
  }

  /** A current verdict that says what the rules say of the job; where they panic it is uncertain. */
  ghost predicate SaysAll(r: Rules, j: JobRow, v: Verdict) {
    && Current(r, j, v)
    && match r.classify(j.input)
       case Some(said) => v.status == said.0 && v.detail == said.1
       case None => v.status == Uncertain && v.detail == r.fallback
  }

  /** The jobs in `ids` were open and, unless the run is forced, had no current verdict; now
      they have one, and the others keep theirs. */
  ghost predicate Renewed(r: Rules, jobs: Jobs, before: Verdicts, now: Verdicts, force: bool, ids: seq<int>) {
    && (forall id :: id in ids ==> id in jobs && jobs[id].open && id in now && SaysAll(r, jobs[id], now[id]))
    && (forall id :: id in ids && !force ==> id !in before || !Current(r, jobs[id], before[id]))
    && (forall id :: id !in ids ==> (id in now <==> id in before) && (id in now ==> now[id] == before[id]))
  }

  /** Every open job has a current verdict. */
  ghost predicate AllCurrent(r: Rules, jobs: Jobs, verdicts: Verdicts) {
    forall id :: id in jobs && jobs[id].open ==> id in verdicts && Current(r, jobs[id], verdicts[id])
  }

  /** How many of the jobs meet a condition. */
  ghost function Number(ids: seq<int>, p: int -> bool): nat { |set id | id in ids && p(id)| }

  ghost function HasStatus(verdicts: Verdicts, status: Status): int -> bool {
    id => id in verdicts && verdicts[id].status == status
  }

  ghost function HasPanicked(r: Rules, jobs: Jobs): int -> bool {
    id => id in jobs && r.classify(jobs[id].input) == None
  }

  ghost predicate Counted(r: Rules, jobs: Jobs, now: Verdicts, ids: seq<int>, st: Stats) {
    && st.classified == |ids|
    && st.eligible == Number(ids, HasStatus(now, Eligible))
    && st.ineligible == Number(ids, HasStatus(now, Ineligible))
    && st.uncertain == Number(ids, HasStatus(now, Uncertain))
    && st.failed == Number(ids, HasPanicked(r, jobs))
  }

  lemma {:induction false} RenewedBy(
    r: Rules, jobs: Jobs, before: Verdicts, now: Verdicts, force: bool, ids: seq<int>)
    requires now == Rewritten(r, jobs, before, ids)
    requires forall id :: id in ids ==> Needs(r, jobs, before, force, id)
    ensures Renewed(r, jobs, before, now, force, ids)
    ensures (forall id :: Needs(r, jobs, before, force, id) ==> id in ids) ==> AllCurrent(r, jobs, now)
  {}

  lemma {:induction false} CountsAre(r: Rules, jobs: Jobs, now: Verdicts, ids: seq<int>, status: Status)
    requires Increasing(ids) && Known(jobs, ids)
    requires forall a :: 0 <= a < |ids| ==> ids[a] in now && now[ids[a]] == One(r, jobs[ids[a]])
    ensures CountOf(r, jobs, ids, status) == Number(ids, HasStatus(now, status))
  {
    if ids != [] {
      CountsAre(r, jobs, now, ids[..|ids| - 1], status);
      NumberNext(ids, HasStatus(now, status));
    }
  }

  /** The members of an increasing list that meet a condition, counted from the end. */
  lemma {:induction false} NumberNext(ids: seq<int>, p: int -> bool)
    requires ids != [] && Increasing(ids)
    ensures var n := |ids| - 1; Number(ids, p) == Number(ids[..n], p) + if p(ids[n]) then 1 else 0
  {
    LastIsNew(ids);
    var front, last := ids[..|ids| - 1], ids[|ids| - 1];
    var a, b := set id | id in front && p(id), set id | id in ids && p(id);
    if p(last) { assert b == a + {last}; } else { assert b == a; }
  }

  lemma {:induction false} LastIsNew(ids: seq<int>)
    requires ids != [] && Increasing(ids)
    ensures ids[|ids| - 1] !in ids[..|ids| - 1]
    ensures forall id :: id in ids <==> id in ids[..|ids| - 1] || id == ids[|ids| - 1]
  {
    assert ids == ids[..|ids| - 1] + [ids[|ids| - 1]];
  }

  lemma {:induction false} PanicsAre(r: Rules, jobs: Jobs, ids: seq<int>)
    requires Increasing(ids) && Known(jobs, ids)
    ensures PanicsOf(r, jobs, ids) == Number(ids, HasPanicked(r, jobs))
  {
    if ids != [] {
      PanicsAre(r, jobs, ids[..|ids| - 1]);
      NumberNext(ids, HasPanicked(r, jobs));
    }
  }

  lemma {:induction false} CountedBy(r: Rules, jobs: Jobs, before: Verdicts, ids: seq<int>)
    requires Increasing(ids) && Known(jobs, ids)
    ensures Counted(r, jobs, Rewritten(r, jobs, before, ids), ids, StatsOf(r, jobs, ids))
  {
    var now := Rewritten(r, jobs, before, ids);
    assert forall a :: 0 <= a < |ids| ==> ids[a] in now && now[ids[a]] == One(r, jobs[ids[a]]);
    CountsAre(r, jobs, now, ids, Eligible);
    CountsAre(r, jobs, now, ids, Ineligible);
    CountsAre(r, jobs, now, ids, Uncertain);
    PanicsAre(r, jobs, ids);
  }

  // ----- The two statements --------------------------------------------------------------

  class Database {
    var jobs: Jobs
    var verdicts: Verdicts

    constructor (jobs: Jobs, verdicts: Verdicts)
      ensures this.jobs == jobs && this.verdicts == verdicts
    {
      this.jobs, this.verdicts := jobs, verdicts;
    }

    /** The first `limit` jobs after an id that need a verdict. */
    method Pending(r: Rules, after: int, force: bool, limit: nat) returns (ids: seq<int>)
      requires limit > 0
      ensures Increasing(ids) && |ids| <= limit
      ensures forall id :: id in ids ==> after < id && Needs(r, jobs, verdicts, force, id)
      ensures forall id :: after < id && Needs(r, jobs, verdicts, force, id) && id !in ids ==>
        |ids| == limit && ids[|ids| - 1] < id
    {
      var left := set id | id in jobs && after < id && Needs(r, jobs, verdicts, force, id);
      ids := [];
      while left != {} && |ids| < limit
        invariant Increasing(ids) && |ids| <= limit
        invariant forall id :: id in ids ==> after < id && Needs(r, jobs, verdicts, force, id)
        invariant forall id :: id in left ==> after < id && Needs(r, jobs, verdicts, force, id)
        invariant forall id :: after < id && Needs(r, jobs, verdicts, force, id) ==> id in ids || id in left
        invariant forall a, id :: 0 <= a < |ids| && id in left ==> ids[a] < id
        decreases left
      {
        var id := Least(left);
        ids := ids + [id];
        left := left - {id};
      }
    }

    /** Writes the verdicts of one batch in a transaction. */
    method Save(rows: seq<(int, Verdict)>)
      modifies this`verdicts
      ensures verdicts == Stored(jobs, old(verdicts), rows)
    {
      for i := 0 to |rows|
        invariant verdicts == Stored(jobs, old(verdicts), rows[..i])
      {
        assert rows[..i + 1][..i] == rows[..i];
        if rows[i].0 in jobs { verdicts := verdicts[rows[i].0 := rows[i].1]; }
      }
      assert rows[..|rows|] == rows;
    }
  }

  lemma {:induction false} HasMember(s: set<int>)
    ensures s == {} || exists x :: x in s
  {
    if forall x :: x !in s { assert s == {}; }
  }

  method Least(s: set<int>) returns (m: int)
    requires s != {}
    ensures m in s && forall x :: x in s ==> m <= x
  {
    HasMember(s);
    var x :| x in s;
    m := x;
    var left := s - {x};
    while left != {}
      invariant left <= s && m in s && forall y :: y in s && y !in left ==> m <= y
      decreases left
    {
      HasMember(left);
      var y :| y in left;
      left := left - {y};
      if y < m { m := y; }
    }
  }

  // ----- A run -------------------------------------------------------------------------------

  datatype Stats = Stats(classified: nat, eligible: nat, ineligible: nat, uncertain: nat, failed: nat)

  /** How many of the jobs get a status, and how many panic. */
  ghost function CountOf(r: Rules, jobs: Jobs, ids: seq<int>, status: Status): nat
    requires Known(jobs, ids)
  {
    if ids == [] then 0
    else CountOf(r, jobs, ids[..|ids| - 1], status) + (if One(r, jobs[ids[|ids| - 1]]).status == status then 1 else 0)
  }

  ghost function PanicsOf(r: Rules, jobs: Jobs, ids: seq<int>): nat
    requires Known(jobs, ids)
  {
    if ids == [] then 0
    else PanicsOf(r, jobs, ids[..|ids| - 1]) + (if Panics(r, jobs[ids[|ids| - 1]]) then 1 else 0)
  }

  /** The statistics of a run that has classified these jobs. */
  ghost function StatsOf(r: Rules, jobs: Jobs, ids: seq<int>): Stats
    requires Known(jobs, ids)
  {
    Stats(|ids|, CountOf(r, jobs, ids, Eligible), CountOf(r, jobs, ids, Ineligible), CountOf(r, jobs, ids, Uncertain),
          PanicsOf(r, jobs, ids))
  }

  /** What goes wrong in one round: nothing, a cancellation, or one of the two statements. */
  datatype Trouble = Fine | Cancelled | PendingFails | SaveFails

  function Batch(batch: int): (n: nat)
    ensures n > 0 && (batch > 0 ==> n == batch)
  {
    if batch <= 0 then 200 else batch
  }

  ghost predicate IsRow(r: Rules, jobs: Jobs, id: int, row: (int, Verdict)) {
    id in jobs && row == (id, One(r, jobs[id]))
  }

  /** Classifies a batch and adds it to the statistics; the rows stand in the order of the
      batch. */
  method Classify(r: Rules, jobs: Jobs, ids: seq<int>, st0: Stats, ghost done: seq<int>)
    returns (rows: seq<(int, Verdict)>, st: Stats)
    requires Known(jobs, done) && Known(jobs, ids)
    requires st0 == StatsOf(r, jobs, done)
    ensures |rows| == |ids| && forall a :: 0 <= a < |ids| ==> IsRow(r, jobs, ids[a], rows[a])
    ensures st == StatsOf(r, jobs, done + ids).(classified := st0.classified)
  {
    rows, st := [], st0;
    assert done + ids[..0] == done;
    for i := 0 to |ids|
      invariant |rows| == i && forall a :: 0 <= a < i ==> IsRow(r, jobs, ids[a], rows[a])
      invariant Known(jobs, done + ids[..i])
      invariant st == StatsOf(r, jobs, done + ids[..i]).(classified := st0.classified)
    {
      StatsNext(r, jobs, done + ids[..i], ids[i]);
      assert done + ids[..i + 1] == done + ids[..i] + [ids[i]];
      var v := One(r, jobs[ids[i]]);
      rows := rows + [(ids[i], v)];
      if Panics(r, jobs[ids[i]]) { st := st.(failed := st.failed + 1); }
      match v.status {
        case Eligible => st := st.(eligible := st.eligible + 1);
        case Ineligible => st := st.(ineligible := st.ineligible + 1);
        case Uncertain => st := st.(uncertain := st.uncertain + 1);
      }
    }
    assert ids[..|ids|] == ids;
  }

  lemma {:induction false} StatsNext(r: Rules, jobs: Jobs, ids: seq<int>, id: int)
    requires id in jobs && Known(jobs, ids)
    ensures var v, b, n := One(r, jobs[id]), StatsOf(r, jobs, ids), StatsOf(r, jobs, ids + [id]);
      && n.eligible == b.eligible + (if v.status == Eligible then 1 else 0)
      && n.ineligible == b.ineligible + (if v.status == Ineligible then 1 else 0)
      && n.uncertain == b.uncertain + (if v.status == Uncertain then 1 else 0)
      && n.failed == b.failed + (if Panics(r, jobs[id]) then 1 else 0)
  {}

  /** The jobs a run has taken so far are all those pending up to an id, in order. */
  ghost predicate Taken(r: Rules, jobs: Jobs, verdicts: Verdicts, force: bool, after: int, ids: seq<int>) {
    && Increasing(ids)
    && (forall id :: id in ids ==> 0 < id <= after && Needs(r, jobs, verdicts, force, id))
    && (forall id :: Needs(r, jobs, verdicts, force, id) && 0 < id <= after ==> id in ids)
  }

  /** What was written so far does not change what is pending later. */
  lemma {:induction false} SamePending(r: Rules, jobs: Jobs, verdicts: Verdicts, force: bool, after: int, ids: seq<int>)
    requires Taken(r, jobs, verdicts, force, after, ids)
    ensures forall id :: after < id ==>
      (Needs(r, jobs, Rewritten(r, jobs, verdicts, ids), force, id) <==> Needs(r, jobs, verdicts, force, id))
  {}

  lemma {:induction false} SavedIs(
    r: Rules, jobs: Jobs, verdicts: Verdicts, ids: seq<int>, pending: seq<int>, rows: seq<(int, Verdict)>)
    requires Known(jobs, pending)
    requires |rows| == |pending| && forall a :: 0 <= a < |rows| ==> IsRow(r, jobs, pending[a], rows[a])
    ensures Stored(jobs, Rewritten(r, jobs, verdicts, ids), rows) == Rewritten(r, jobs, verdicts, ids + pending)
  {
    if pending == [] {
      assert ids + pending == ids;
    } else {
      var n := |rows| - 1;
      SavedIs(r, jobs, verdicts, ids, pending[..n], rows[..n]);
      assert ids + pending == ids + pending[..n] + [pending[n]];
    }
  }

  lemma {:induction false} TakenNext(
    r: Rules, jobs: Jobs, verdicts: Verdicts, force: bool, after: int, ids: seq<int>, pending: seq<int>, limit: nat)
    requires 0 <= after && Taken(r, jobs, verdicts, force, after, ids)
    requires pending != [] && Increasing(pending)
    requires forall id :: id in pending ==> after < id && Needs(r, jobs, verdicts, force, id)
    requires forall id :: after < id && Needs(r, jobs, verdicts, force, id) && id !in pending ==>
      |pending| == limit && pending[|pending| - 1] < id
    ensures Taken(r, jobs, verdicts, force, pending[|pending| - 1], ids + pending)
  {
    var last := pending[|pending| - 1];
    assert last in pending;
    forall id | Needs(r, jobs, verdicts, force, id) && 0 < id <= last ensures id in ids + pending {
      assert id <= after ==> id in ids;
    }
    forall a | 0 <= a < |ids| ensures ids[a] <= after { assert ids[a] in ids; }
    forall b | 0 <= b < |pending| ensures after < pending[b] <= last { assert pending[b] in pending; }
  }

  /** Every job classified has exactly one status. */
  lemma {:induction false} StatsAddUp(r: Rules, jobs: Jobs, ids: seq<int>)
    requires Known(jobs, ids)
    ensures var st := StatsOf(r, jobs, ids);
      st.classified == st.eligible + st.ineligible + st.uncertain && st.failed <= st.uncertain
  {
    if ids != [] { StatsAddUp(r, jobs, ids[..|ids| - 1]); }
  }

  /** After a run that took everything pending, forced or not, nothing is pending for an
      unforced one. */
  lemma {:induction false} NothingLeft(r: Rules, jobs: Jobs, verdicts: Verdicts, force: bool, ids: seq<int>)
    requires Known(jobs, ids)
    requires forall id :: Needs(r, jobs, verdicts, force, id) ==> id in ids
    ensures forall id :: !Needs(r, jobs, Rewritten(r, jobs, verdicts, ids), false, id)
  {}

  datatype Next = Stop(ok: bool) | Continue(after: int)

  /** One round: reads a batch after an id, classifies it and writes the verdicts. `ids` are
      the jobs written before, `v0` the verdicts before the run. */
  method Round(
    db: Database, r: Rules, force: bool, limit: nat, after: int, t: Trouble, st0: Stats, ghost ids: seq<int>,
    ghost v0: Verdicts)
    returns (st: Stats, next: Next, ghost ids': seq<int>)
    requires limit > 0 && 0 <= after && Taken(r, db.jobs, v0, force, after, ids) && Known(db.jobs, ids)
    requires db.verdicts == Rewritten(r, db.jobs, v0, ids) && st0 == StatsOf(r, db.jobs, ids)
    modifies db`verdicts
    ensures Known(db.jobs, ids') && db.verdicts == Rewritten(r, db.jobs, v0, ids')
    ensures next.Stop? ==> ids' == ids && (next.ok ==> st == StatsOf(r, db.jobs, ids))
    ensures next.Stop? && next.ok ==> forall id :: after < id ==> !Needs(r, db.jobs, v0, force, id)
    ensures next.Continue? ==> Taken(r, db.jobs, v0, force, next.after, ids') && st == StatsOf(r, db.jobs, ids')
    ensures next.Continue? ==> after < next.after && next.after in db.jobs && next.after in ids'
    ensures t == Fine ==> next != Stop(false)
  {
    st, ids' := st0, ids;
    if t == Cancelled || t == PendingFails { return st, Stop(false), ids'; }
    var pending := db.Pending(r, after, force, limit);
    SamePending(r, db.jobs, v0, force, after, ids);
    if pending == [] { return st, Stop(true), ids'; }
    assert forall a :: 0 <= a < |pending| ==> pending[a] in pending;
    var rows;
    rows, st := Classify(r, db.jobs, pending, st, ids);
    if t == SaveFails { return st, Stop(false), ids'; }
    db.Save(rows);
    SavedIs(r, db.jobs, v0, ids, pending, rows);
    TakenNext(r, db.jobs, v0, force, after, ids, pending, limit);
    ids' := ids + pending;
    st := st.(classified := st.classified + |rows|);
    next := Continue(pending[|pending| - 1]);
  }

  /** Classifies what is pending; `ids` are the jobs whose verdicts were written, in order.
      `trouble` says what goes wrong in each round. */
  method Run(db: Database, r: Rules, force: bool, batch: int, trouble: nat -> Trouble)
    returns (st: Stats, ok: bool, ghost ids: seq<int>)
    requires forall id :: id in db.jobs ==> 0 < id
    modifies db`verdicts
    ensures Increasing(ids) && forall id :: id in ids ==> Needs(r, db.jobs, old(db.verdicts), force, id)
    ensures db.verdicts == Rewritten(r, db.jobs, old(db.verdicts), ids)
    ensures forall id, x :: Needs(r, db.jobs, old(db.verdicts), force, id) && x in ids && id < x ==> id in ids
    ensures ok ==> forall id :: Needs(r, db.jobs, old(db.verdicts), force, id) ==> id in ids
    ensures ok ==> Known(db.jobs, ids) && st == StatsOf(r, db.jobs, ids)
    ensures Renewed(r, db.jobs, old(db.verdicts), db.verdicts, force, ids)
    ensures ok ==> AllCurrent(r, db.jobs, db.verdicts) && Counted(r, db.jobs, db.verdicts, ids, st)
    ensures (forall n: nat :: trouble(n) == Fine) ==> ok
  {
    st, ok, ids := Rounds(db, r, force, batch, trouble);
    RenewedBy(r, db.jobs, old(db.verdicts), db.verdicts, force, ids);
    if ok { CountedBy(r, db.jobs, old(db.verdicts), ids); }
  }

  method Rounds(db: Database, r: Rules, force: bool, batch: int, trouble: nat -> Trouble)
    returns (st: Stats, ok: bool, ghost ids: seq<int>)
    requires forall id :: id in db.jobs ==> 0 < id
    modifies db`verdicts
    ensures Increasing(ids) && forall id :: id in ids ==> Needs(r, db.jobs, old(db.verdicts), force, id)
    ensures db.verdicts == Rewritten(r, db.jobs, old(db.verdicts), ids)
    ensures forall id, x :: Needs(r, db.jobs, old(db.verdicts), force, id) && x in ids && id < x ==> id in ids
    ensures ok ==> forall id :: Needs(r, db.jobs, old(db.verdicts), force, id) ==> id in ids
    ensures ok ==> Known(db.jobs, ids) && st == StatsOf(r, db.jobs, ids)
    ensures (forall n: nat :: trouble(n) == Fine) ==> ok
  {
    ghost var v0 := db.verdicts;
    var after, round := 0, 0;
    st, ids := Stats(0, 0, 0, 0, 0), [];
    while true
      invariant 0 <= after && Taken(r, db.jobs, v0, force, after, ids) && Known(db.jobs, ids)
      invariant db.verdicts == Rewritten(r, db.jobs, v0, ids) && st == StatsOf(r, db.jobs, ids)
      decreases After(db.jobs, after)
    {
      var next;
      st, next, ids := Round(db, r, force, Batch(batch), after, trouble(round), st, ids, v0);
      if next.Stop? { return st, next.ok, ids; }
      assert next.after in After(db.jobs, after) && next.after !in After(db.jobs, next.after);
      after, round := next.after, round + 1;
    }
  }

  ghost function After(jobs: Jobs, after: int): set<int> { set id | id in jobs && after < id }
}

/** Ingesting every active board, whatever the fetches return. */
module BoardRuns {
  import opened Options
  import opened Text
  import opened Tables
  import opened TableLaws
  import opened JobStore
  import opened Ingestion
  import Interleaving

  /** What fetching a board brings; a positive `staleAfter` says the listing is a sample. */
  datatype Fetch = NoClient | Failed | BoardNotFound | Listed(jobs: seq<Job>, staleAfter: int)

  /** The statements a fetch justifies. */
  predicate Justified(t: Board, f: Fetch, s: Stmt) {
    match f
    case NoClient => false
    case Failed => false
    case BoardNotFound => s == SetActive(t.id, false) || (s.CloseJobs? && s.target == t.id && s.which == Missing([]))
    case Listed(jobs, staleAfter) =>
      StoresFor(t, false, ListedKeys(t, jobs), s) || ClosesFor(t, staleAfter, SeenIds(jobs), EndedIds(jobs), s)
  }

  /** No open job belongs to an inactive target. */
  ghost predicate InactiveQuiet(db: Db) {
    forall k :: IsOpen(db, k) ==> db.jobs[k].target in db.targets && db.targets[db.jobs[k].target].active
  }

  /** The targets keep their companies and providers. */
  ghost predicate SameBoards(before: Db, db: Db) {
    && db.targets.Keys == before.targets.Keys
    && forall u :: u in before.targets ==> SameBoard(before.targets[u], db.targets[u])
  }

  /** The statements run for one board, and the boards as they were. */
  ghost predicate BoardDone(before: Db, db: Db, t: Board, f: Fetch, did: seq<Stmt>) {
    && db == Replay(before, did) && SameBoards(before, db)
    && forall i :: 0 <= i < |did| ==> Justified(t, f, did[i])
  }

  lemma {:induction false} NothingDone(db: Db, t: Board, f: Fetch)
    ensures BoardDone(db, db, t, f, [])
  {
    ReplayOne(db, []);
  }

  lemma {:induction false} StepDone(before: Db, mid: Db, t: Board, f: Fetch, did: seq<Stmt>, s: Stmt)
    requires BoardDone(before, mid, t, f, did) && Justified(t, f, s) && (s.SetActive? || s.CloseJobs?)
    ensures BoardDone(before, Exec(mid, s), t, f, did + [s])
  {
    Interleaving.RunSnoc(Exec, before, did, s);
  }

  /** Deactivates a target whose board is gone, and then closes its jobs. Failures are only
      logged; after the first nothing more is done. */
  method RetireGoneBoard(s: Store, t: Board) returns (ghost did: seq<Stmt>)
    requires Valid(s.db)
    modifies s
    ensures Valid(s.db) && old(s.clock) <= s.clock && (old(s.faulted) ==> s.faulted)
    ensures BoardDone(old(s.db), s.db, t, BoardNotFound, did)
    ensures !s.faulted ==>
      s.db == old(s.db) || s.db == DoClose(DoSetActive(old(s.db), t.id, false), t.id, Missing([]), s.clock)
    ensures !s.faulted && t.id in old(s.db).targets ==> !s.db.targets[t.id].active && forall k :: !OwnedOpen(s.db, t, k)
  {
    ghost var before, off := s.db, SetActive(t.id, false);
    var ok;
    ghost var more;
    NothingDone(before, t, BoardNotFound);
    ok, more := s.Flag(SetActive(t.id, false));
    did := [];
    if more != [] {
      StepDone(before, before, t, BoardNotFound, did, off);
      did := [off];
    }
    if !ok { return; }
    ghost var mid := s.db;
    var res;
    res, more := s.Close(t.id, Missing([]));
    if more != [] {
      StepDone(before, mid, t, BoardNotFound, did, CloseJobs(t.id, Missing([]), s.clock));
      did := did + [CloseJobs(t.id, Missing([]), s.clock)];
      GoneOwnsNothing(before, t, s.clock);
    }
  }

  lemma {:induction false} GoneOwnsNothing(db: Db, t: Board, now: int)
    requires t.id in db.targets
    ensures var after := DoClose(DoSetActive(db, t.id, false), t.id, Missing([]), now);
      !after.targets[t.id].active && forall k :: !OwnedOpen(after, t, k)
  {}

  lemma {:induction false} GoneIsQuiet(db: Db, t: Board, now: int)
    requires InactiveQuiet(db)
    ensures InactiveQuiet(DoClose(DoSetActive(db, t.id, false), t.id, Missing([]), now))
  {
    var mid := DoSetActive(db, t.id, false);
    var after := DoClose(mid, t.id, Missing([]), now);
    forall k | IsOpen(after, k)
      ensures after.jobs[k].target in after.targets && after.targets[after.jobs[k].target].active
    {
      assert IsOpen(db, k) && db.jobs[k].target != t.id;
    }
  }

  /** Between the two statements of retiring a board, and for good if the second one fails, an
      inactive target owns open jobs exactly if it had any. */
  lemma {:induction false} HalfRetiredIsQuietIff(db: Db, t: Board)
    requires InactiveQuiet(db) && t.id in db.targets
    ensures InactiveQuiet(DoSetActive(db, t.id, false)) <==> forall k :: !OwnedOpen(db, t, k)
  {
    var after := DoSetActive(db, t.id, false);
    if forall k :: !OwnedOpen(db, t, k) {
      forall k | IsOpen(after, k)
        ensures after.jobs[k].target in after.targets && after.targets[after.jobs[k].target].active
      {
        assert IsOpen(db, k) && !OwnedOpen(db, t, k);
      }
    } else {
      var k :| OwnedOpen(db, t, k);
      assert IsOpen(after, k) && !after.targets[after.jobs[k].target].active;
    }
  }

  datatype TargetResult = NotFetched | Fetched(r: RunResult)

  /** What processing a target keeps and does, by what its fetch returned. */
  ghost predicate Processed(
    before: Db, db: Db, t: Board, f: Fetch, appNow: int, since: int, now: int, faulted: bool, res: TargetResult)
  {
    && (f.NoClient? || f.Failed? ==> db == before)
    && (f.BoardNotFound? && !faulted && t.id in before.targets ==>
          t.id in db.targets && !db.targets[t.id].active && forall k :: !OwnedOpen(db, t, k))
    && (res.Fetched? <==> f.Listed?)
    && (f.Listed? ==> Finished(before, db, t, since, faulted, res.r))
    && (f.Listed? ==> forall k :: PersistedAt(before, db, t, f.jobs, f.staleAfter, false, appNow, since, now, res.r, k))
  }

  method ProcessTarget(s: Store, t: Board, f: Fetch, appNow: int) returns (res: TargetResult, ghost did: seq<Stmt>)
    requires Valid(s.db) && RefersTo(s.db, t) && Trim(t.provider) == t.provider != ""
    modifies s
    ensures Valid(s.db) && old(s.clock) <= s.clock && (old(s.faulted) ==> s.faulted)
    ensures BoardDone(old(s.db), s.db, t, f, did)
    ensures Processed(old(s.db), s.db, t, f, appNow, old(s.clock), s.clock, s.faulted, res)
    ensures !s.faulted && InactiveQuiet(old(s.db)) && old(s.db).targets[t.id].active ==> InactiveQuiet(s.db)
  {
    ghost var before, since := s.db, s.clock;
    res, did := NotFetched, [];
    NothingDone(before, t, f);
    if f.BoardNotFound? {
      did := RetireGoneBoard(s, t);
      if !s.faulted && InactiveQuiet(before) { GoneIsQuiet(before, t, s.clock); }
    } else if f.Listed? {
      var r;
      r, did := IngestListed(s, t, f, appNow);
      res := Fetched(r);
    }
  }

  method IngestListed(s: Store, t: Board, f: Fetch, appNow: int) returns (r: RunResult, ghost did: seq<Stmt>)
    requires Valid(s.db) && RefersTo(s.db, t) && Trim(t.provider) == t.provider != "" && f.Listed?
    modifies s
    ensures Valid(s.db) && old(s.clock) <= s.clock && (old(s.faulted) ==> s.faulted)
    ensures BoardDone(old(s.db), s.db, t, f, did)
    ensures Processed(old(s.db), s.db, t, f, appNow, old(s.clock), s.clock, s.faulted, Fetched(r))
    ensures InactiveQuiet(old(s.db)) && old(s.db).targets[t.id].active ==> InactiveQuiet(s.db)
  {
    ghost var before, since := s.db, s.clock;
    ghost var stores, closes, aborted;
    r, stores, closes, aborted := Persist(s, t, f.jobs, f.staleAfter, false, appNow);
    did := stores + closes;
    if InactiveQuiet(before) && before.targets[t.id].active {
      PersistKeepsQuiet(before, s.db, t, f.jobs, f.staleAfter, false, appNow, since, s.clock, r);
    }
  }

  lemma {:induction false} PersistKeepsQuiet(
    before: Db, db: Db, t: Board, jobs: seq<Job>, staleAfter: int, movable: bool, appNow: int, since: int, now: int,
    r: RunResult)
    requires InactiveQuiet(before) && RefersTo(before, t) && before.targets[t.id].active && SameTargetsBut(before, db)
    requires forall k :: PersistedAt(before, db, t, jobs, staleAfter, movable, appNow, since, now, r, k)
    ensures InactiveQuiet(db)
  {
    forall k | IsOpen(db, k) ensures db.jobs[k].target in db.targets && db.targets[db.jobs[k].target].active {
      assert PersistedAt(before, db, t, jobs, staleAfter, movable, appNow, since, now, r, k);
      if db.jobs[k].target != t.id { assert IsOpen(before, k); }
    }
  }

  // ----- A run over all active boards -----------------------------------------------------------

  function BoardOf(db: Db, id: int): Board
    requires id in db.targets
  {
    Board(id, db.targets[id].company, db.targets[id].provider)
  }

  /** What listing the active targets gives: all of them, in the order of their ids. */
  ghost predicate ListsUpto(db: Db, ts: seq<Board>, end: int) {
    && (forall i :: 0 <= i < |ts| ==> IsListed(db, ts[i]) && ts[i].id < end)
    && (forall i, j :: 0 <= i < j < |ts| ==> ts[i].id < ts[j].id)
    && (forall id :: 0 < id < end && id in db.targets && db.targets[id].active ==> BoardOf(db, id) in ts)
  }

  method ListActive(s: Store) returns (ts: seq<Board>)
    requires Valid(s.db)
    ensures forall i :: 0 <= i < |ts| ==> IsListed(s.db, ts[i])
    ensures forall i, j :: 0 <= i < j < |ts| ==> ts[i].id < ts[j].id
    ensures forall id :: id in s.db.targets && s.db.targets[id].active ==> BoardOf(s.db, id) in ts
  {
    ts := [];
    for id := 1 to s.db.nextTarget
      invariant ListsUpto(s.db, ts, id)
    {
      ListNext(s.db, ts, id);
      if id in s.db.targets && s.db.targets[id].active { ts := ts + [BoardOf(s.db, id)]; }
    }
  }

  lemma {:induction false} ListNext(db: Db, ts: seq<Board>, id: int)
    requires ListsUpto(db, ts, id)
    ensures ListsUpto(db, if id in db.targets && db.targets[id].active then ts + [BoardOf(db, id)] else ts, id + 1)
  {}

  ghost predicate IsListed(db: Db, t: Board) { t.id in db.targets && db.targets[t.id].active && t == BoardOf(db, t.id) }

  /** The statement is justified by what fetching the board of one of the targets brought. */
  ghost predicate RunStmt(ts: seq<Board>, fetch: int -> Fetch, s: Stmt) {
    exists i :: 0 <= i < |ts| && Justified(ts[i], fetch(ts[i].id), s)
  }

  ghost predicate RunDone(before: Db, db: Db, ts: seq<Board>, fetch: int -> Fetch, did: seq<Stmt>) {
    && db == Replay(before, did) && SameBoards(before, db)
    && forall i :: 0 <= i < |did| ==> RunStmt(ts, fetch, did[i])
  }

  lemma {:induction false} RunNext(
    before: Db, mid: Db, db: Db, ts: seq<Board>, fetch: int -> Fetch, i: nat, did: seq<Stmt>, more: seq<Stmt>)
    requires RunDone(before, mid, ts, fetch, did) && i < |ts| && BoardDone(mid, db, ts[i], fetch(ts[i].id), more)
    ensures RunDone(before, db, ts, fetch, did + more)
  {
    Interleaving.RunConcat(Exec, before, did, more);
    forall j | 0 <= j < |did + more| ensures RunStmt(ts, fetch, (did + more)[j]) {
      if j >= |did| { assert Justified(ts[i], fetch(ts[i].id), more[j - |did|]); }
    }
  }

  lemma {:induction false} StillListed(before: Db, db: Db, t: Board)
    requires Valid(before) && IsListed(before, t) && SameBoards(before, db)
    ensures RefersTo(db, t) && Trim(t.provider) == t.provider != ""
  {
    assert ValidTarget(before, t.id, before.targets[t.id]);
    TrimmedStays(t.provider);
  }

  /** The targets still to be processed are active. */
  ghost predicate ActiveFrom(db: Db, ts: seq<Board>, i: nat) {
    forall j :: i <= j < |ts| ==> ts[j].id in db.targets && db.targets[ts[j].id].active
  }

  lemma {:induction false} ActiveNext(db: Db, after: Db, ts: seq<Board>, i: nat, f: Fetch, more: seq<Stmt>)
    requires i < |ts| && ActiveFrom(db, ts, i) && BoardDone(db, after, ts[i], f, more)
    requires forall a, b :: 0 <= a < b < |ts| ==> ts[a].id < ts[b].id
    ensures ActiveFrom(after, ts, i + 1)
  {
    OthersStayActive(db, more, ts[i], f);
  }

  /** The tables and the time before the first target, and after each one. */
  datatype Trace = Trace(states: seq<Db>, times: seq<int>)

  ghost predicate ProcessedAt(
    tr: Trace, ts: seq<Board>, fetch: int -> Fetch, appNow: int, results: seq<TargetResult>, i: nat, faulted: bool)
    requires i < |results| <= |ts| && |tr.states| == |tr.times| == |results| + 1
  {
    Processed(
      tr.states[i], tr.states[i + 1], ts[i], fetch(ts[i].id), appNow, tr.times[i], tr.times[i + 1], faulted, results[i])
  }

  ghost predicate Stepwise(
    tr: Trace, ts: seq<Board>, fetch: int -> Fetch, appNow: int, results: seq<TargetResult>, faulted: bool)
  {
    && |results| <= |ts| && |tr.states| == |tr.times| == |results| + 1
    && forall i :: 0 <= i < |results| ==> ProcessedAt(tr, ts, fetch, appNow, results, i, faulted)
  }

  lemma {:induction false} StepwiseNext(
    tr: Trace, ts: seq<Board>, fetch: int -> Fetch, appNow: int, results: seq<TargetResult>, was: bool, faulted: bool,
    db: Db, now: int, res: TargetResult)
    requires Stepwise(tr, ts, fetch, appNow, results, was) && |results| < |ts| && (was ==> faulted)
    requires var n := |results|;
      Processed(tr.states[n], db, ts[n], fetch(ts[n].id), appNow, tr.times[n], now, faulted, res)
    ensures Stepwise(Trace(tr.states + [db], tr.times + [now]), ts, fetch, appNow, results + [res], faulted)
  {
    var next, all := Trace(tr.states + [db], tr.times + [now]), results + [res];
    forall i | 0 <= i < |all| ensures ProcessedAt(next, ts, fetch, appNow, all, i, faulted) {
      if i < |results| { assert ProcessedAt(tr, ts, fetch, appNow, results, i, was); }
    }
  }

  /** What a run keeps after its first `i` targets. */
  ghost predicate RunInv(
    before: Db, db: Db, now: int, faulted: bool, ts: seq<Board>, fetch: int -> Fetch, appNow: int, i: nat,
    did: seq<Stmt>, tr: Trace, results: seq<TargetResult>)
  {
    && |results| == i <= |ts| && RunDone(before, db, ts, fetch, did) && ActiveFrom(db, ts, i)
    && Stepwise(tr, ts, fetch, appNow, results, faulted)
    && tr.states[0] == before && tr.states[i] == db && tr.times[i] == now
    && (!faulted && InactiveQuiet(before) ==> InactiveQuiet(db))
  }

  lemma {:induction false} RunInvNext(
    before: Db, mid: Db, db: Db, at: int, now: int, was: bool, faulted: bool, ts: seq<Board>, fetch: int -> Fetch,
    appNow: int, i: nat, did: seq<Stmt>, more: seq<Stmt>, tr: Trace, results: seq<TargetResult>, res: TargetResult)
    requires RunInv(before, mid, at, was, ts, fetch, appNow, i, did, tr, results) && i < |ts| && (was ==> faulted)
    requires forall a, b :: 0 <= a < b < |ts| ==> ts[a].id < ts[b].id
    requires BoardDone(mid, db, ts[i], fetch(ts[i].id), more)
    requires Processed(mid, db, ts[i], fetch(ts[i].id), appNow, at, now, faulted, res)
    requires !faulted && InactiveQuiet(mid) && mid.targets[ts[i].id].active ==> InactiveQuiet(db)
    ensures var next := Trace(tr.states + [db], tr.times + [now]);
      RunInv(before, db, now, faulted, ts, fetch, appNow, i + 1, did + more, next, results + [res])
  {
    RunNext(before, mid, db, ts, fetch, i, did, more);
    ActiveNext(mid, db, ts, i, fetch(ts[i].id), more);
    StepwiseNext(tr, ts, fetch, appNow, results, was, faulted, db, now, res);
  }

  /** Processes every active target, or, if the run is cancelled, the first `handed` of them;
      the workers' interleaving does not matter when the targets report different jobs
      (`RunIsSequential`). `ok` says that the targets could be listed. */
  method Run(s: Store, fetch: int -> Fetch, appNow: int, handed: Option<nat>)
    returns (ok: bool, results: seq<TargetResult>, ts: seq<Board>, ghost did: seq<Stmt>, ghost tr: Trace)
    requires Valid(s.db)
    modifies s
    ensures Valid(s.db) && (!ok ==> s.faulted && ts == [])
    ensures |results| == if handed.Some? && handed.value < |ts| then handed.value else |ts|
    ensures forall i :: 0 <= i < |ts| ==> IsListed(old(s.db), ts[i])
    ensures ok ==>
      forall id :: id in old(s.db).targets && old(s.db).targets[id].active ==> BoardOf(old(s.db), id) in ts
    ensures RunDone(old(s.db), s.db, ts, fetch, did)
    ensures Stepwise(tr, ts, fetch, appNow, results, s.faulted)
    ensures tr.states[0] == old(s.db) && tr.states[|results|] == s.db
    ensures !s.faulted && InactiveQuiet(old(s.db)) ==> InactiveQuiet(s.db)
  {
    ghost var before := s.db;
    ok := s.Reach();
    ts, results, did, tr := [], [], [], Trace([s.db], [s.clock]);
    ReplayOne(before, did);
    if !ok { return; }
    ts := ListActive(s);
    var n := if handed.Some? && handed.value < |ts| then handed.value else |ts|;
    for i := 0 to n
      invariant Valid(s.db) && RunInv(before, s.db, s.clock, s.faulted, ts, fetch, appNow, i, did, tr, results)
    {
      StillListed(before, s.db, ts[i]);
      ghost var more, mid, at, was := [], s.db, s.clock, s.faulted;
      var res;
      res, more := ProcessTarget(s, ts[i], fetch(ts[i].id), appNow);
      RunInvNext(before, mid, s.db, at, s.clock, was, s.faulted, ts, fetch, appNow, i, did, more, tr, results, res);
      tr := Trace(tr.states + [s.db], tr.times + [s.clock]);
      did := did + more;
      results := results + [res];
    }
  }

  /** A board's statements leave the other targets' flags alone. */
  lemma {:induction false} OthersStayActive(db: Db, log: seq<Stmt>, t: Board, f: Fetch)
    requires forall i :: 0 <= i < |log| ==> Justified(t, f, log[i])
    ensures forall u :: u in db.targets && u != t.id ==>
      u in Replay(db, log).targets && Replay(db, log).targets[u] == db.targets[u]
  {
    if log != [] {
      var front, last := log[..|log| - 1], log[|log| - 1];
      OthersStayActive(db, front, t, f);
      assert Replay(db, log) == Exec(Replay(db, front), last);
    }
  }

  // ----- Why a job is closed -------------------------------------------------------------------------

  /** The four reasons: a full listing lacked it, the source reported it as ended, it was
      unseen for too long in a sample, or its board is gone. */
  ghost predicate Reason(db: Db, t: Board, f: Fetch, now: int, k: Key)
    requires k in db.jobs
  {
    match f
    case NoClient => false
    case Failed => false
    case BoardNotFound => true
    case Listed(jobs, staleAfter) =>
      Cause(staleAfter, SeenIds(jobs), EndedIds(jobs), db.jobs[k].lastSeen, now, k.1)
  }

  /** A job that was open before a run and is not after it was closed by a statement for its
      target, for one of the four reasons, as the table stood then. */
  lemma {:induction false} OnlyFourReasons(db: Db, log: seq<Stmt>, ts: seq<Board>, fetch: int -> Fetch, k: Key)
    returns (at: Db, t: Board, now: int)
    requires forall i :: 0 <= i < |log| ==> RunStmt(ts, fetch, log[i])
    requires IsOpen(db, k) && !IsOpen(Replay(db, log), k)
    ensures t in ts && IsOpen(at, k) && at.jobs[k].target == t.id && Reason(at, t, fetch(t.id), now, k)
  {
    var i := ClosedBySome(db, log, k);
    at, now := Replay(db, log[..i]), log[i].now;
    var j :| 0 <= j < |ts| && Justified(ts[j], fetch(ts[j].id), log[i]);
    t := ts[j];
  }

  /** No two targets' listings share a job. */
  ghost predicate DisjointListings(ts: seq<Board>, fetch: int -> Fetch) {
    forall i, j :: 0 <= i < j < |ts| && fetch(ts[i].id).Listed? && fetch(ts[j].id).Listed? ==>
      ListedKeys(ts[i], fetch(ts[i].id).jobs) !! ListedKeys(ts[j], fetch(ts[j].id).jobs)
  }

  /** The statements of targets whose listings share no job can be interleaved at will. */
  lemma {:induction false} DisjointListingsAreUnrelated(log: seq<Stmt>, ts: seq<Board>, fetch: int -> Fetch)
    requires forall i :: 0 <= i < |log| ==> RunStmt(ts, fetch, log[i])
    requires DisjointListings(ts, fetch)
    ensures Unrelated(log)
  {
    forall a, b | 0 <= a < |log| && 0 <= b < |log| && Owner(log[a]) != Owner(log[b])
      ensures Independent(log[a], log[b])
    {
      var i :| 0 <= i < |ts| && Justified(ts[i], fetch(ts[i].id), log[a]);
      var j :| 0 <= j < |ts| && Justified(ts[j], fetch(ts[j].id), log[b]);
      assert i < j || j < i;
    }
  }

  /** However the workers interleave, a run over such targets does what processing them one after
      the other does, in any order. */
  lemma {:induction false} RunIsSequential(
    db: Db, log: seq<Stmt>, ts: seq<Board>, fetch: int -> Fetch, order: seq<int>, t: int)
    requires forall i :: 0 <= i < |log| ==> RunStmt(ts, fetch, log[i])
    requires DisjointListings(ts, fetch)
    requires Interleaving.Distinct(order) && forall i :: 0 <= i < |ts| ==> ts[i].id in order
    ensures Replay(db, log) == Replay(db, Interleaving.InTurn(Owner, log, order))
    ensures Interleaving.Outcomes(Exec, OutcomeOf, Owner, db, log, t)
      == Interleaving.Outcomes(Exec, OutcomeOf, Owner, db, Interleaving.Of(Owner, log, t), t)
  {
    DisjointListingsAreUnrelated(log, ts, fetch);
    forall h | 0 <= h < |log| ensures Owner(log[h]) in order {
      var i :| 0 <= i < |ts| && Justified(ts[i], fetch(ts[i].id), log[h]);
    }
    InterleavingIsSequential(db, log, order, t);
  }
}


/** What the statements keep, how a job gets closed, what a row remembers, and which
    statements may be interleaved. */
module TableLaws {
  import opened Options
  import opened Text
  import opened ContentHash
  import opened Tables
  import Interleaving

  // ----- The constraints ------------------------------------------------------------------

  lemma {:induction false} UpsertKeepsRows(db: Db, p: Params, now: int)
    requires ValidJobs(db) && p.key.1 != "" && Trimmed(p.key.1)
    ensures ValidJobs(DoUpsert(db, p, now))
  {
    if UpsertOutcome(db, p).Upserted? {
      OneRow(db, p.key, Written(db, p, now));
    }
  }

  lemma {:induction false} OneRow(db: Db, key: Key, row: Row)
    requires ValidJobs(db) && ValidRow(db, key, row)
    ensures ValidJobs(db.(jobs := db.jobs[key := row]))
  {}

  lemma {:induction false} CloseKeepsRows(db: Db, t: int, which: Closing, now: int)
    requires ValidJobs(db)
    ensures ValidJobs(DoClose(db, t, which, now))
  {
    var after := DoClose(db, t, which, now);
    forall k | k in after.jobs ensures ValidRow(after, k, after.jobs[k]) { assert ValidRow(db, k, db.jobs[k]); }
  }

  lemma {:induction false} MoveKeepsRows(db: Db, key: Key, t: int, company: int)
    requires ValidJobs(db)
    ensures ValidJobs(DoMove(db, key, t, company))
  {
    if MoveOutcome(db, key, t, company).Affected? {
      assert ValidRow(db, key, db.jobs[key]);
      OneRow(db, key, db.jobs[key].(target := t, company := company));
    }
  }

  lemma {:induction false} SameTargets(db: Db, after: Db)
    requires ValidCompanies(db) && ValidTargets(db) && after.(jobs := db.jobs) == db
    ensures ValidCompanies(after) && ValidTargets(after)
  {
    forall t | t in after.targets ensures ValidTarget(after, t, after.targets[t]) {
      assert ValidTarget(db, t, db.targets[t]);
    }
    forall k | k in after.boards ensures ValidBoard(after, k, after.boards[k]) {
      assert ValidBoard(db, k, db.boards[k]);
    }
  }

  /** A target keeps its company and its provider. */
  predicate Survives(db: Db, after: Db, t: int) {
    && t in db.targets && t in after.targets
    && after.targets[t].company == db.targets[t].company && after.targets[t].provider == db.targets[t].provider
  }

  lemma {:induction false} KeepsTarget(db: Db, after: Db, t: int)
    requires t in db.targets && t in after.targets && ValidTarget(db, t, db.targets[t])
    requires db.nextTarget <= after.nextTarget && db.companies.Keys <= after.companies.Keys
    requires SameBoard(db.targets[t], after.targets[t])
    requires var k := BoardKey(db.targets[t].provider, db.targets[t].board);
      k in after.boards && after.boards[k] == db.boards[k]
    ensures ValidTarget(after, t, after.targets[t])
  {}

  predicate SameBoard(a: Target, b: Target) { a.company == b.company && a.provider == b.provider && a.board == b.board }

  /** The boards index still fits when the flags of one target change. */
  lemma {:induction false} UpdateKeepsTargets(db: Db, t: int, target: Target)
    requires Valid(db) && t in db.targets && SameBoard(db.targets[t], target)
    ensures Valid(db.(targets := db.targets[t := target]))
  {
    var after := db.(targets := db.targets[t := target]);
    UpdateKeepsBoards(db, t, target);
  }

  lemma {:induction false} UpdateKeepsBoards(db: Db, t: int, target: Target)
    requires ValidTargets(db) && t in db.targets && SameBoard(db.targets[t], target)
    ensures ValidTargets(db.(targets := db.targets[t := target]))
  {
    var after := db.(targets := db.targets[t := target]);
    forall x | x in after.targets ensures ValidTarget(after, x, after.targets[x]) {
      assert ValidTarget(db, x, db.targets[x]);
      KeepsTarget(db, after, x);
    }
    forall k | k in after.boards ensures ValidBoard(after, k, after.boards[k]) {
      assert ValidBoard(db, k, db.boards[k]);
    }
  }

  function WithTarget(db: Db, k: Key, target: Target): Db {
    db.(targets := db.targets[db.nextTarget := target], boards := db.boards[k := db.nextTarget],
        nextTarget := db.nextTarget + 1)
  }

  lemma {:induction false} NewTargetKeepsBoards(db: Db, k: Key, target: Target)
    requires ValidTargets(db) && 0 < db.nextTarget && k !in db.boards && target.company in db.companies
    requires target.provider != "" && Trimmed(target.provider) && NulFree(target.provider)
    requires target.board != "" && Trimmed(target.board)
    requires k == BoardKey(target.provider, target.board)
    ensures ValidTargets(WithTarget(db, k, target)) && db.nextTarget !in db.targets
  {
    var after := WithTarget(db, k, target);
    forall t | t in db.targets ensures t < db.nextTarget { assert ValidTarget(db, t, db.targets[t]); }
    forall x | x in after.targets ensures ValidTarget(after, x, after.targets[x]) {
      if x != db.nextTarget {
        assert ValidTarget(db, x, db.targets[x]);
        KeepsTarget(db, after, x);
      }
    }
    forall b | b in after.boards ensures ValidBoard(after, b, after.boards[b]) {
      if b != k {
        assert ValidBoard(db, b, db.boards[b]);
      }
    }
  }

  lemma {:induction false} NewTargetKeepsValid(db: Db, k: Key, target: Target)
    requires Valid(db) && k !in db.boards && target.company in db.companies
    requires target.provider != "" && Trimmed(target.provider) && NulFree(target.provider)
    requires target.board != "" && Trimmed(target.board)
    requires k == BoardKey(target.provider, target.board)
    ensures Valid(WithTarget(db, k, target))
  {
    NewTargetKeepsBoards(db, k, target);
  }

  lemma {:induction false} AddTargetKeepsValid(
    db: Db, company: int, provider: string, board: string, market: Option<Market>)
    requires Valid(db) && provider != "" && Trimmed(provider) && board != "" && Trimmed(board)
    ensures Valid(DoAddTarget(db, company, provider, board, market))
  {
    var k, o := BoardKey(provider, board), AddTargetOutcome(db, company, provider, board);
    if o.Found? {
      if k in db.boards {
        var t := db.targets[o.id];
        UpdateKeepsTargets(db, o.id, t.(active := true, market := if market.Some? then market.value else t.market));
      } else {
        NewTargetKeepsValid(db, k, NewTarget(company, provider, board, market));
      }
    }
  }

  lemma {:induction false} CompaniesKeepValid(db: Db, after: Db)
    requires Valid(db) && ValidCompanies(after) && db.companies.Keys <= after.companies.Keys
    requires after.(companies := db.companies, names := db.names, nextCompany := db.nextCompany) == db
    ensures Valid(after)
  {
    forall t | t in after.targets ensures ValidTarget(after, t, after.targets[t]) {
      assert ValidTarget(db, t, db.targets[t]);
    }
    forall k | k in after.boards ensures ValidBoard(after, k, after.boards[k]) {
      assert ValidBoard(db, k, db.boards[k]);
    }
  }

  lemma {:induction false} NewCompanyKeepsValid(db: Db, n: string, c: Company)
    requires Valid(db) && n !in db.names && n == Lower(c.name)
    ensures Valid(WithCompany(db, n, c))
  {
    CompaniesKeepValid(db, WithCompany(db, n, c));
  }

  lemma {:induction false} AddCompanyKeepsValid(db: Db, name: string)
    requires Valid(db)
    ensures Valid(DoAddCompany(db, name))
  {
    if NulFree(name) && Lower(name) !in db.names { NewCompanyKeepsValid(db, Lower(name), Company(name, false)); }
  }

  lemma {:induction false} SetPriorityKeepsValid(db: Db, c: int)
    requires Valid(db)
    ensures Valid(DoSetPriority(db, c))
  {
    CompaniesKeepValid(db, DoSetPriority(db, c));
  }

  /** Every statement with trimmed keys keeps the constraints, whatever its other arguments. */
  lemma {:induction false} ExecKeepsValid(db: Db, s: Stmt)
    requires Valid(db) && Proper(s)
    ensures Valid(Exec(db, s))
  {
    match s
    case UpsertJob(p, now) => UpsertKeepsRows(db, p, now); SameTargets(db, DoUpsert(db, p, now));
    case CloseJobs(t, which, now) => CloseKeepsRows(db, t, which, now); SameTargets(db, DoClose(db, t, which, now));
    case MoveJob(k, t, c) => MoveKeepsRows(db, k, t, c); SameTargets(db, DoMove(db, k, t, c));
    case SetActive(t, active) => if t in db.targets { UpdateKeepsTargets(db, t, db.targets[t].(active := active)); }
    case MarkSucceeded(t, now) =>
      if t in db.targets { UpdateKeepsTargets(db, t, db.targets[t].(succeededAt := Some(now))); }
    case AddCompany(name) => AddCompanyKeepsValid(db, name);
    case SetPriority(c) => SetPriorityKeepsValid(db, c);
    case AddTarget(c, provider, board, market) => AddTargetKeepsValid(db, c, provider, board, market);
  }

  lemma {:induction false} ReplayKeepsValid(db: Db, log: seq<Stmt>)
    requires Valid(db) && forall i :: 0 <= i < |log| ==> Proper(log[i])
    ensures Valid(Replay(db, log))
  {
    if log != [] {
      ReplayKeepsValid(db, log[..|log| - 1]);
      ExecKeepsValid(Replay(db, log[..|log| - 1]), log[|log| - 1]);
    }
  }

  // ----- How a job is closed ---------------------------------------------------------------------

  ghost predicate IsOpen(db: Db, k: Key) { k in db.jobs && db.jobs[k].status == Open }

  /** No row is ever lost, and an open one is closed only by a closing statement for its
      target that picks it; no other statement for another key touches it. */
  lemma {:induction false} RowFate(db: Db, s: Stmt, k: Key)
    requires k in db.jobs
    ensures k in Exec(db, s).jobs
    ensures IsOpen(db, k) && !IsOpen(Exec(db, s), k) ==> s.CloseJobs? && IsClosed(db, s.target, s.which, s.now, k)
    ensures Exec(db, s).jobs[k].target != db.jobs[k].target ==> s.MoveJob? && k == s.key
    ensures Exec(db, s).jobs[k] != db.jobs[k] ==>
      || (s.UpsertJob? && s.p.key == k && UpsertOutcome(db, s.p).Upserted?)
      || (s.CloseJobs? && IsClosed(db, s.target, s.which, s.now, k))
      || (s.MoveJob? && k == s.key)
  {}

  /** The statement of a log that closed a job for the last time. */
  lemma {:induction false} ClosedBySome(db: Db, log: seq<Stmt>, k: Key) returns (i: nat)
    requires IsOpen(db, k) && !IsOpen(Replay(db, log), k)
    ensures i < |log| && log[i].CloseJobs? && IsClosed(Replay(db, log[..i]), log[i].target, log[i].which, log[i].now, k)
  {
    var n := |log| - 1;
    if IsOpen(Replay(db, log[..n]), k) {
      RowFate(Replay(db, log[..n]), log[n], k);
      i := n;
    } else {
      i := ClosedBySome(db, log[..n], k);
      assert log[..n][..i] == log[..i];
    }
  }

  // ----- What a row remembers ----------------------------------------------------------------------

  /** The reports of a job that were accepted, with their times. */
  ghost function Reports(db: Db, log: seq<Stmt>, k: Key): seq<(Params, int)> {
    if log == [] then []
    else
      var before, s := Reports(db, log[..|log| - 1], k), log[|log| - 1];
      if s.UpsertJob? && s.p.key == k && UpsertOutcome(Replay(db, log[..|log| - 1]), s.p).Upserted?
      then before + [(s.p, s.now)] else before
  }

  /** The last report that says something, else "unknown". */
  ghost function LastSaid(rs: seq<(Params, int)>, said: Params -> string): string {
    if rs == [] then UNKNOWN
    else OrElse(said(rs[|rs| - 1].0), LastSaid(rs[..|rs| - 1], said))
  }

  ghost function LastSome(rs: seq<(Params, int)>, given: Params -> Option<int>): Option<int> {
    if rs == [] then None
    else if given(rs[|rs| - 1].0).Some? then given(rs[|rs| - 1].0)
    else LastSome(rs[..|rs| - 1], given)
  }

  function RemoteSaid(p: Params): string { p.remoteType }
  function EmploymentSaid(p: Params): string { p.employmentType }
  function PublishedGiven(p: Params): Option<int> { p.published }
  function ExpiresGiven(p: Params): Option<int> { p.expires }

  ghost predicate Remembers(row: Row, rs: seq<(Params, int)>)
    requires rs != []
  {
    var last := rs[|rs| - 1];
    && row.firstSeen == rs[0].1 && row.lastSeen == last.1
    && row.content == Kept(last.0.content) && row.hash == last.0.hash
    && row.remoteType == LastSaid(rs, RemoteSaid) && row.employmentType == LastSaid(rs, EmploymentSaid)
    && row.published == LastSome(rs, PublishedGiven) && row.expires == LastSome(rs, ExpiresGiven)
  }

  lemma {:induction false} RemembersNext(row: Row, rs: seq<(Params, int)>, p: Params, now: int)
    requires rs != [] && Remembers(row, rs)
    ensures Remembers(UpdatedRow(row, p, now), rs + [(p, now)])
  {}

  lemma {:induction false} RemembersFirst(p: Params, now: int)
    ensures Remembers(NewRow(p, now), [(p, now)])
  {}

  /** After any statements whatever, a job that was not there before is there exactly if a
      report of it was accepted, and holds the last thing said of each kind. */
  lemma {:induction false} RowHoldsLastReports(db: Db, log: seq<Stmt>, k: Key)
    requires k !in db.jobs
    ensures var rs, after := Reports(db, log, k), Replay(db, log);
      (k in after.jobs <==> rs != []) && (rs != [] ==> Remembers(after.jobs[k], rs))
  {
    if log != [] {
      var front, s := log[..|log| - 1], log[|log| - 1];
      RowHoldsLastReports(db, front, k);
      var before, rs := Replay(db, front), Reports(db, front, k);
      if s.UpsertJob? && s.p.key == k && UpsertOutcome(before, s.p).Upserted? {
        if rs == [] { RemembersFirst(s.p, s.now); } else { RemembersNext(before.jobs[k], rs, s.p, s.now); }
      } else {
        OthersKeepMemory(before, s, k, rs);
      }
    }
  }

  lemma {:induction false} OthersKeepMemory(db: Db, s: Stmt, k: Key, rs: seq<(Params, int)>)
    requires !(s.UpsertJob? && s.p.key == k && UpsertOutcome(db, s.p).Upserted?)
    ensures k in Exec(db, s).jobs <==> k in db.jobs
    ensures k in db.jobs && rs != [] && Remembers(db.jobs[k], rs) ==> Remembers(Exec(db, s).jobs[k], rs)
  {}

  /** Every upsert of the log brings the hash of its content. */
  ghost predicate Truthful(log: seq<Stmt>) {
    forall i :: 0 <= i < |log| && log[i].UpsertJob? ==> log[i].p.hash == Encoding(log[i].p.content)
  }

  lemma {:induction false} AcceptedIsClean(db: Db, log: seq<Stmt>, k: Key)
    requires Truthful(log) && Reports(db, log, k) != []
    ensures var rs := Reports(db, log, k);
      rs[|rs| - 1].0.content.Clean() && rs[|rs| - 1].0.hash == Encoding(rs[|rs| - 1].0.content)
  {
    var front, s := log[..|log| - 1], log[|log| - 1];
    if !(s.UpsertJob? && s.p.key == k && UpsertOutcome(Replay(db, front), s.p).Upserted?) {
      AcceptedIsClean(db, front, k);
    }
  }

  /** After any statements whatever, the time of the last change moves exactly when the outcome
      says so: the job is new, was not open, or its content differs from that reported last. */
  lemma {:induction false} ChangedIff(db: Db, log: seq<Stmt>, p: Params, now: int)
    requires p.key !in db.jobs && Truthful(log) && p.hash == Encoding(p.content)
    requires UpsertOutcome(Replay(db, log), p).Upserted?
    ensures var k, before, rs := p.key, Replay(db, log), Reports(db, log, p.key);
      var o, after := UpsertOutcome(before, p), DoUpsert(before, p, now);
      && (o.inserted <==> rs == [])
      && after.jobs[k].status == Open && after.jobs[k].closedAt == None && after.jobs[k].lastSeen == now
      && (o.changed <==>
            rs == [] || before.jobs[k].status != Open || Differ(rs[|rs| - 1].0.content, p.content))
      && after.jobs[k].lastChanged == (if o.changed then now else before.jobs[k].lastChanged)
  {
    var rs := Reports(db, log, p.key);
    RowHoldsLastReports(db, log, p.key);
    if rs != [] {
      AcceptedIsClean(db, log, p.key);
      EqualIff(rs[|rs| - 1].0.content, p.content);
    }
  }

  predicate Differ(a: Content, b: Content) { a.Always() != b.Always() || a.Said() != b.Said() }

  // ----- Interleaving -----------------------------------------------------------------------------------

  /** The target a statement of a board's run is for. */
  function Owner(s: Stmt): int {
    match s
    case UpsertJob(p, _) => p.target
    case CloseJobs(t, _, _) => t
    case SetActive(t, _) => t
    case MarkSucceeded(t, _) => t
    case _ => -1
  }

  /** The statements a board's own run issues; only a collector moves jobs. */
  predicate OfBoard(s: Stmt) { s.UpsertJob? || s.CloseJobs? || s.SetActive? || s.MarkSucceeded? }

  /** Statements of different targets that do not report the same job. */
  predicate Independent(a: Stmt, b: Stmt) {
    && OfBoard(a) && OfBoard(b) && Owner(a) != Owner(b)
    && (a.UpsertJob? && b.UpsertJob? ==> a.p.key != b.p.key)
  }

  lemma {:induction false} UpsertSparesOthers(db: Db, p: Params, at: int, t: int, which: Closing, now: int, k: Key)
    requires p.target != t
    ensures IsClosed(DoUpsert(db, p, at), t, which, now, k) <==> IsClosed(db, t, which, now, k)
  {}

  lemma {:induction false} CloseSparesOthers(
    db: Db, u: int, w: Closing, at: int, t: int, which: Closing, now: int, k: Key)
    requires u != t
    ensures IsClosed(DoClose(db, u, w, at), t, which, now, k) <==> IsClosed(db, t, which, now, k)
  {}

  lemma {:induction false} SparesOthers(db: Db, a: Stmt, t: int, which: Closing, now: int, k: Key)
    requires OfBoard(a) && Owner(a) != t
    ensures IsClosed(Exec(db, a), t, which, now, k) <==> IsClosed(db, t, which, now, k)
  {
    if a.UpsertJob? { UpsertSparesOthers(db, a.p, a.now, t, which, now, k); }
    if a.CloseJobs? { CloseSparesOthers(db, a.target, a.which, a.now, t, which, now, k); }
  }

  lemma {:induction false} SameCount(db: Db, after: Db, t: int, which: Closing, now: int)
    requires forall k :: IsClosed(after, t, which, now, k) <==> IsClosed(db, t, which, now, k)
    ensures CloseCount(after, t, which, now) == CloseCount(db, t, which, now)
  {
    var was, left := ClosedKeys(db, t, which, now), ClosedKeys(after, t, which, now);
    assert was == left;
  }

  /** One of two independent statements does not change the outcome of the other. */
  lemma {:induction false} OutcomeUnaffected(db: Db, a: Stmt, b: Stmt)
    requires Independent(a, b)
    ensures OutcomeOf(Exec(db, a), b) == OutcomeOf(db, b)
  {
    if b.CloseJobs? {
      forall k
        ensures IsClosed(Exec(db, a), b.target, b.which, b.now, k) <==> IsClosed(db, b.target, b.which, b.now, k)
      {
        SparesOthers(db, a, b.target, b.which, b.now, k);
      }
      SameCount(db, Exec(db, a), b.target, b.which, b.now);
    } else if b.UpsertJob? {
      UpsertUnaffected(db, a, b.p);
    }
  }

  lemma {:induction false} UpsertUnaffected(db: Db, a: Stmt, p: Params)
    requires OfBoard(a) && Owner(a) != p.target && (a.UpsertJob? ==> a.p.key != p.key)
    ensures UpsertOutcome(Exec(db, a), p) == UpsertOutcome(db, p)
    ensures p.key in db.jobs && UpsertOutcome(db, p).Upserted? ==> Exec(db, a).jobs[p.key] == db.jobs[p.key]
    ensures p.key in Exec(db, a).jobs <==> p.key in db.jobs
  {}

  /** Writing a row of another target and closing can be done in either order. */
  lemma {:induction false} WriteAndClose(db: Db, key: Key, row: Row, t: int, which: Closing, now: int)
    requires row.target != t && (key in db.jobs ==> db.jobs[key].target != t)
    ensures var b := DoClose(db, t, which, now);
      DoClose(db.(jobs := db.jobs[key := row]), t, which, now) == b.(jobs := b.jobs[key := row])
  {
    var b := DoClose(db, t, which, now);
    assert DoClose(db.(jobs := db.jobs[key := row]), t, which, now).jobs == b.jobs[key := row];
  }

  lemma {:induction false} UpsertAndClose(db: Db, p: Params, at: int, t: int, which: Closing, now: int)
    requires p.target != t
    ensures DoClose(DoUpsert(db, p, at), t, which, now) == DoUpsert(DoClose(db, t, which, now), p, at)
  {
    UpsertUnaffected(db, CloseJobs(t, which, now), p);
    if UpsertOutcome(db, p).Upserted? { WriteAndClose(db, p.key, Written(db, p, at), t, which, now); }
  }

  lemma {:induction false} CloseAndClose(db: Db, u: int, w: Closing, at: int, t: int, which: Closing, now: int)
    requires u != t
    ensures DoClose(DoClose(db, u, w, at), t, which, now) == DoClose(DoClose(db, t, which, now), u, w, at)
  {
    var x, y := DoClose(DoClose(db, u, w, at), t, which, now), DoClose(DoClose(db, t, which, now), u, w, at);
    forall k | k in db.jobs ensures x.jobs[k] == y.jobs[k] {
      CloseSparesOthers(db, u, w, at, t, which, now, k);
      CloseSparesOthers(db, t, which, now, u, w, at, k);
    }
    assert x.jobs == y.jobs;
  }

  lemma {:induction false} UpsertAndUpsert(db: Db, p: Params, at: int, q: Params, now: int)
    requires p.target != q.target && p.key != q.key
    ensures DoUpsert(DoUpsert(db, p, at), q, now) == DoUpsert(DoUpsert(db, q, now), p, at)
  {
    UpsertUnaffected(db, UpsertJob(p, at), q);
    UpsertUnaffected(db, UpsertJob(q, now), p);
    if UpsertOutcome(db, p).Upserted? && UpsertOutcome(db, q).Upserted? {
      var v, w := Written(db, p, at), Written(db, q, now);
      assert DoUpsert(DoUpsert(db, p, at), q, now) == db.(jobs := db.jobs[p.key := v][q.key := w]);
      assert DoUpsert(DoUpsert(db, q, now), p, at) == db.(jobs := db.jobs[q.key := w][p.key := v]);
      assert db.jobs[p.key := v][q.key := w] == db.jobs[q.key := w][p.key := v];
    }
  }

  /** The flags of a target and the jobs of another. */
  lemma {:induction false} FlagAndJobs(db: Db, t: int, target: Target, s: Stmt)
    requires t in db.targets && target.company == db.targets[t].company && target.provider == db.targets[t].provider
    requires s.UpsertJob? || s.CloseJobs?
    ensures Exec(db.(targets := db.targets[t := target]), s) == Exec(db, s).(targets := db.targets[t := target])
  {
    var flagged := db.(targets := db.targets[t := target]);
    if s.UpsertJob? {
      assert UpsertOutcome(flagged, s.p) == UpsertOutcome(db, s.p);
    } else {
      assert Exec(flagged, s).jobs == Exec(db, s).jobs;
    }
  }

  /** The flags a statement sets on its target. */
  function Flagged(db: Db, s: Stmt): Target
    requires Owner(s) in db.targets && (s.SetActive? || s.MarkSucceeded?)
  {
    if s.SetActive? then db.targets[s.target].(active := s.active)
    else db.targets[s.target].(succeededAt := Some(s.now))
  }

  lemma {:induction false} FlagIs(db: Db, a: Stmt)
    requires a.SetActive? || a.MarkSucceeded?
    ensures Exec(db, a) == if Owner(a) in db.targets then db.(targets := db.targets[Owner(a) := Flagged(db, a)]) else db
  {}

  lemma {:induction false} FlagsCommute(db: Db, a: Stmt, b: Stmt)
    requires Owner(a) != Owner(b) && (a.SetActive? || a.MarkSucceeded?) && (b.SetActive? || b.MarkSucceeded?)
    ensures Exec(Exec(db, a), b) == Exec(Exec(db, b), a)
  {
    FlagIs(db, a);
    FlagIs(db, b);
    FlagIs(Exec(db, a), b);
    FlagIs(Exec(db, b), a);
    var x, y := Exec(Exec(db, a), b), Exec(Exec(db, b), a);
    assert x.targets == y.targets;
  }

  lemma {:induction false} FlagCommutes(db: Db, a: Stmt, b: Stmt)
    requires Independent(a, b) && (a.SetActive? || a.MarkSucceeded?)
    ensures Exec(Exec(db, a), b) == Exec(Exec(db, b), a)
  {
    if b.SetActive? || b.MarkSucceeded? {
      FlagsCommute(db, a, b);
    } else {
      FlagIs(db, a);
      FlagIs(Exec(db, b), a);
      JobsKeepTargets(db, b);
      if Owner(a) in db.targets { FlagAndJobs(db, Owner(a), Flagged(db, a), b); }
    }
  }

  lemma {:induction false} JobsKeepTargets(db: Db, s: Stmt)
    requires s.UpsertJob? || s.CloseJobs? || s.MoveJob?
    ensures Exec(db, s).targets == db.targets
  {}

  /** Independent statements can be run in either order. */
  lemma {:induction false} Commute(db: Db, a: Stmt, b: Stmt)
    requires Independent(a, b)
    ensures Exec(Exec(db, a), b) == Exec(Exec(db, b), a)
  {
    match (a, b)
    case (UpsertJob(p, at), UpsertJob(q, now)) => UpsertAndUpsert(db, p, at, q, now);
    case (UpsertJob(p, at), CloseJobs(t, w, now)) => UpsertAndClose(db, p, at, t, w, now);
    case (CloseJobs(t, w, now), UpsertJob(p, at)) => UpsertAndClose(db, p, at, t, w, now);
    case (CloseJobs(u, v, at), CloseJobs(t, w, now)) => CloseAndClose(db, u, v, at, t, w, now);
    case _ => if a.SetActive? || a.MarkSucceeded? { FlagCommutes(db, a, b); } else { FlagCommutes(db, b, a); }
  }

  lemma {:induction false} IndependentCommute(a: Stmt, b: Stmt)
    requires Independent(a, b)
    ensures Interleaving.Commute(Exec, OutcomeOf, a, b)
  {
    forall db: Db
      ensures Exec(Exec(db, a), b) == Exec(Exec(db, b), a) && OutcomeOf(Exec(db, a), b) == OutcomeOf(db, b)
    {
      Commute(db, a, b);
      OutcomeUnaffected(db, a, b);
    }
  }

  /** Statements of different targets in the log never report the same job. */
  ghost predicate Unrelated(log: seq<Stmt>) {
    forall i, j :: 0 <= i < |log| && 0 <= j < |log| && Owner(log[i]) != Owner(log[j]) ==> Independent(log[i], log[j])
  }

  /** However the runs of different targets are interleaved, the tables end up as if the
      targets had been processed one after the other, in any order; and the statements of each
      have the outcomes they would have had if it had been the only one. */
  lemma {:induction false} InterleavingIsSequential(db: Db, log: seq<Stmt>, order: seq<int>, t: int)
    requires Unrelated(log) && Interleaving.Covers(Owner, log, order)
    ensures Replay(db, log) == Replay(db, Interleaving.InTurn(Owner, log, order))
    ensures Interleaving.Outcomes(Exec, OutcomeOf, Owner, db, log, t)
      == Interleaving.Outcomes(Exec, OutcomeOf, Owner, db, Interleaving.Of(Owner, log, t), t)
  {
    forall i, j | 0 <= i < |log| && 0 <= j < |log| && Owner(log[i]) != Owner(log[j])
      ensures Interleaving.Commute(Exec, OutcomeOf, log[i], log[j])
    {
      IndependentCommute(log[i], log[j]);
    }
    Interleaving.InTurnState(Exec, OutcomeOf, Owner, db, log, order);
    Interleaving.SequentialOutcomes(Exec, OutcomeOf, Owner, db, log, t);
  }
}

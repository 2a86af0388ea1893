/** Ingesting a board: storing what it lists and closing what it no longer lists. */
module Ingestion {
  import opened Options
  import opened Text
  import opened ContentHash
  import opened Tables
  import opened TableLaws
  import opened JobStore
  import Interleaving

  /** A job as fetched. A closed one is a marker: the source reports the job as ended. */
  datatype Job = Job(
    id: string, employer: string, content: Content, published: Option<int>, expires: Option<int>, closed: bool)

  /** A target as read from its table. */
  datatype Board = Board(id: int, company: int, provider: string)

  ghost predicate RefersTo(db: Db, t: Board) { BelongsTo(db, t.id, t.company, t.provider) }

  const MAX_FUTURE := 24 * 3600
  const MAX_TITLE := 300

  /** The job with a publish date from the future dropped and its title cut. */
  function Tidy(j: Job, appNow: int): Job {
    var j1 := if j.published.Some? && j.published.value > appNow + MAX_FUTURE then j.(published := None) else j;
    if |j1.content.title| > MAX_TITLE then j1.(content := j1.content.(title := j1.content.title[..MAX_TITLE])) else j1
  }

  /** Tidying drops only a publish date more than a day ahead, and only what a title has beyond
      its limit. */
  lemma {:induction false} TidyKeeps(j: Job, appNow: int)
    ensures var a := Tidy(j, appNow);
      && a.(published := j.published, content := j.content) == j
      && a.content.(title := j.content.title) == j.content
      && (a.published == j.published || (a.published == None && j.published.value > appNow + MAX_FUTURE))
      && (a.published.Some? ==> a.published.value <= appNow + MAX_FUTURE)
      && a.content.title <= j.content.title && |a.content.title| <= MAX_TITLE
      && (|j.content.title| <= MAX_TITLE ==> a.content.title == j.content.title)
  {}

  predicate Storable(j: Job) { j.id != "" && j.content.title != "" && j.content.applicationUrl != "" }

  /** The canonical URL is left empty: it is unique over all boards. */
  function RecordOf(t: Board, j: Job): Record {
    Record(t.company, t.id, t.provider, j.id, j.content.(canonicalUrl := ""), j.published, j.expires)
  }

  function KeyFor(t: Board, id: string): Key { (Trim(t.provider), Trim(id)) }

  // ----- The statements of one board --------------------------------------------------------

  predicate IsUpsertFor(t: Board, s: Stmt) { s.UpsertJob? && s.p.target == t.id && s.p.key.0 == Trim(t.provider) }

  predicate IsMoveTo(t: Board, s: Stmt) { s.MoveJob? && s.target == t.id && s.key.0 == Trim(t.provider) }

  /** The statement stores one of the given jobs. */
  predicate StoresFor(t: Board, movable: bool, keys: set<Key>, s: Stmt) {
    (IsUpsertFor(t, s) && s.p.key in keys) || (movable && IsMoveTo(t, s) && s.key in keys)
  }

  ghost predicate AllStore(t: Board, movable: bool, keys: set<Key>, log: seq<Stmt>) {
    forall i :: 0 <= i < |log| ==> StoresFor(t, movable, keys, log[i])
  }

  // ----- Storing one job ----------------------------------------------------------------------

  datatype Verdict = Stored(inserted: bool, changed: bool) | Skipped | Abort(f: Failure)

  /** Only the row of the job has changed. */
  ghost predicate OnlyRow(before: Db, after: Db, key: Key) {
    && after.(jobs := before.jobs) == before
    && after.jobs.Keys == before.jobs.Keys + (after.jobs.Keys * {key})
    && forall k :: k in before.jobs && k != key ==> after.jobs[k] == before.jobs[k]
  }

  /** The row is the target's, open, and seen not before `since`. */
  ghost predicate Holds(db: Db, t: Board, key: Key, since: int) {
    key in db.jobs && db.jobs[key].target == t.id && db.jobs[key].status == Open && db.jobs[key].lastSeen >= since
  }

  /** The row, if there is one, is the target's. */
  ghost predicate Owned(db: Db, t: Board, key: Key) { key in db.jobs ==> db.jobs[key].target == t.id }

  /** What one upsert for the target has done to the tables. */
  ghost predicate UpsertDone(
    before: Db, after: Db, t: Board, key: Key, since: int, faulted: bool, res: Result<(bool, bool)>, did: seq<Stmt>)
  {
    && |did| <= 1 && after == Replay(before, did) && AllStore(t, false, {key}, did) && OnlyRow(before, after, key)
    && (if res.Ok? then Holds(after, t, key, since) && Owned(before, t, key) else after == before)
    && (res == Err(Answered(Mismatch)) ==> key in before.jobs)
    && (res.Err? && !faulted ==> (IsRejectedRecord(res.failure) <==> key.1 != ""))
  }

  /** Nothing about the job keeps the database from storing it. */
  predicate Fits(t: Board, j: Job) {
    var p := ParamsOf(RecordOf(t, j));
    p.key.1 != "" && p.content.Clean() && NulFree(p.key.1) && Acceptable(p)
  }

  /** The row says what the job says; where the job is silent it says what it said before. */
  ghost predicate RowTells(before: Db, after: Db, key: Key, j: Job)
    requires key in after.jobs
  {
    var row, remote, employment := after.jobs[key], Trim(j.content.remoteType), Trim(j.content.employmentType);
    var known := key in before.jobs;
    && row.content == Kept(j.content.(canonicalUrl := "")) && row.hash == Encoding(j.content.(canonicalUrl := ""))
    && row.published == (if j.published.Some? || !known then j.published else before.jobs[key].published)
    && row.expires == (if j.expires.Some? || !known then j.expires else before.jobs[key].expires)
    && row.remoteType == (if remote != "" then remote else if known then before.jobs[key].remoteType else UNKNOWN)
    && row.employmentType ==
      (if employment != "" then employment else if known then before.jobs[key].employmentType else UNKNOWN)
  }

  /** A job that fits is stored, unless it is another target's. */
  ghost predicate UpsertTold(before: Db, after: Db, t: Board, j: Job, faulted: bool, res: Result<(bool, bool)>) {
    var key := KeyFor(t, j.id);
    && (res.Ok? ==>
          key in after.jobs && RowTells(before, after, key, j)
          && Newness(before, after, key, Stored(res.value.0, res.value.1)))
    && (res.Err? ==> after == before)
    && (!faulted && Fits(t, j) ==> if Owned(before, t, key) then res.Ok? else res == Err(Answered(Mismatch)))
  }

  lemma {:induction false} UpsertTells(db: Db, t: Board, j: Job, now: int, faulted: bool)
    requires RefersTo(db, t) && Trim(t.provider) == t.provider && NulFree(t.provider)
    requires ValidRowKey(db, KeyFor(t, j.id))
    ensures var p := ParamsOf(RecordOf(t, j));
      UpsertTold(db, DoUpsert(db, p, now), t, j, faulted, Reply(UpsertOutcome(db, p)))
  {
    var p := ParamsOf(RecordOf(t, j));
    if UpsertOutcome(db, p).Upserted? { UpsertSays(db, t, j, now); }
    if Fits(t, j) { FitsIsUpserted(db, t, j); }
  }

  lemma {:induction false} UpsertSays(db: Db, t: Board, j: Job, now: int)
    requires UpsertOutcome(db, ParamsOf(RecordOf(t, j))).Upserted?
    ensures var p, key := ParamsOf(RecordOf(t, j)), KeyFor(t, j.id);
      var o, after := UpsertOutcome(db, p), DoUpsert(db, p, now);
      && key in after.jobs && RowTells(db, after, key, j) && Newness(db, after, key, Stored(o.inserted, o.changed))
  {}

  lemma {:induction false} FitsIsUpserted(db: Db, t: Board, j: Job)
    requires RefersTo(db, t) && Trim(t.provider) == t.provider && NulFree(t.provider)
    requires ValidRowKey(db, KeyFor(t, j.id)) && Fits(t, j)
    ensures var o := UpsertOutcome(db, ParamsOf(RecordOf(t, j)));
      if Owned(db, t, KeyFor(t, j.id)) then o.Upserted? else o == Mismatch
  {}

  ghost predicate ValidRowKey(db: Db, k: Key) { k in db.jobs ==> ValidRow(db, k, db.jobs[k]) }

  lemma {:induction false} UpsertNotRun(db: Db, t: Board, key: Key, since: int, faulted: bool, f: Failure)
    requires f == KeyRequired || (f == Unavailable && faulted)
    requires f == KeyRequired ==> key.1 == ""
    ensures UpsertDone(db, db, t, key, since, faulted, Err(f), [])
  {
    ReplayOne(db, []);
  }

  lemma {:induction false} UpsertRun(
    db: Db, t: Board, p: Params, since: int, now: int, faulted: bool, res: Result<(bool, bool)>)
    requires RefersTo(db, t) && p.target == t.id && p.company == t.company && p.key.0 == Trim(t.provider) == t.provider
    requires p.key.1 != "" && since <= now
    requires res == Reply(UpsertOutcome(db, p))
    ensures UpsertDone(db, DoUpsert(db, p, now), t, p.key, since, faulted, res, [UpsertJob(p, now)])
  {
    ReplayOne(db, [UpsertJob(p, now)]);
  }

  method Upsert(s: Store, t: Board, j: Job) returns (res: Result<(bool, bool)>, ghost did: seq<Stmt>)
    requires Valid(s.db) && RefersTo(s.db, t) && Trim(t.provider) == t.provider != ""
    modifies s
    ensures Valid(s.db) && old(s.clock) <= s.clock && (old(s.faulted) ==> s.faulted)
    ensures UpsertDone(old(s.db), s.db, t, KeyFor(t, j.id), old(s.clock), s.faulted, res, did)
    ensures UpsertTold(old(s.db), s.db, t, j, s.faulted, res)
  {
    res, did := s.UpsertFromATS(RecordOf(t, j));
    assert ValidRowKey(old(s.db), KeyFor(t, j.id)) && ValidTarget(old(s.db), t.id, old(s.db).targets[t.id]);
    UpsertTells(old(s.db), t, j, s.clock, s.faulted);
    if did == [] {
      UpsertNotRun(s.db, t, KeyFor(t, j.id), old(s.clock), s.faulted, res.failure);
    } else {
      UpsertRun(old(s.db), t, ParamsOf(RecordOf(t, j)), old(s.clock), s.clock, s.faulted, res);
    }
  }

  lemma {:induction false} ReplayOne(db: Db, did: seq<Stmt>)
    requires |did| <= 1
    ensures Replay(db, did) == if did == [] then db else Exec(db, did[0])
  {
    if did != [] { Interleaving.RunSnoc(Exec, db, [], did[0]); assert [] + [did[0]] == did; }
  }

  /** The row has only changed hands. */
  ghost predicate Moved(before: Db, after: Db, t: Board, key: Key) {
    && key in before.jobs
    && after == before.(jobs := before.jobs[key := before.jobs[key].(target := t.id, company := t.company)])
  }

  /** What storing one job for the target has done to the tables. */
  ghost predicate StoreDone(
    before: Db, after: Db, t: Board, key: Key, movable: bool, since: int, faulted: bool, v: Verdict, did: seq<Stmt>)
  {
    && after == Replay(before, did) && AllStore(t, movable, {key}, did) && OnlyRow(before, after, key)
    && (if v.Stored? then Holds(after, t, key, since) && (movable || Owned(before, t, key))
        else after == before || (movable && Moved(before, after, t, key)))
    && (!faulted ==> (v.Abort? <==> key.1 == ""))
  }

  /** The row is new, or was closed or says something else now, or neither. */
  ghost predicate Newness(before: Db, after: Db, key: Key, v: Verdict)
    requires v.Stored? && key in after.jobs
  {
    && (v.inserted <==> key !in before.jobs)
    && (key in before.jobs ==>
          (v.changed <==> before.jobs[key].status != Open || before.jobs[key].hash != after.jobs[key].hash))
  }

  /** The row says the same as before, whoever it belongs to. */
  ghost predicate SameWords(was: Row, row: Row) {
    && row.content == was.content && row.hash == was.hash
    && row.remoteType == was.remoteType && row.employmentType == was.employmentType
    && row.published == was.published && row.expires == was.expires
  }

  ghost predicate SameWordsAt(before: Db, after: Db, k: Key) {
    (k in after.jobs <==> k in before.jobs) && (k in before.jobs ==> SameWords(before.jobs[k], after.jobs[k]))
  }

  /** A job that fits is stored, if it is not another target's or may be moved. */
  ghost predicate StoreTold(before: Db, after: Db, t: Board, j: Job, movable: bool, faulted: bool, v: Verdict) {
    var key := KeyFor(t, j.id);
    && (v.Stored? ==> key in after.jobs && RowTells(before, after, key, j) && Newness(before, after, key, v))
    && (!v.Stored? ==> SameWordsAt(before, after, key))
    && (!faulted && Fits(t, j) && (movable || Owned(before, t, key)) ==> v.Stored?)
  }

  function VerdictOf(res: Result<(bool, bool)>): Verdict {
    match res
    case Ok(o) => Stored(o.0, o.1)
    case Err(f) => if IsRejectedRecord(f) then Skipped else Abort(f)
  }

  /** A job is skipped for its own sake: another target has it, or it has a NUL or a value the
      constraints forbid. Only a target that is not the company's, or not there, aborts the run. */
  lemma {:induction false} AbortsIff(db: Db, p: Params)
    ensures var v := VerdictOf(Reply(UpsertOutcome(db, p)));
      && (v.Abort? <==>
            && p.content.Clean() && CleanKey(p.key) && Acceptable(p) && p.key !in db.jobs
            && !(p.target in db.targets && db.targets[p.target].company == p.company
                 && db.targets[p.target].provider == p.key.0))
      && (v.Abort? ==> UpsertOutcome(db, p) == Refused("23503"))
      && (v.Stored? <==> UpsertOutcome(db, p).Upserted?)
  {
    assert "23503"[..2] == "23" && "22021"[..2] == "22" && "23514"[..2] == "23";
    assert "23514"[2] == '5' && "23503"[2] == '5' && "23514"[3] == '1' && "23503"[3] == '0';
  }

  lemma {:induction false} ReplayMove(db: Db, first: seq<Stmt>, move: Stmt, again: seq<Stmt>)
    requires db == Replay(db, first)
    ensures Replay(db, first + [move] + again) == Replay(Exec(db, move), again)
  {
    Interleaving.RunSnoc(Exec, db, first, move);
    Interleaving.RunConcat(Exec, db, first + [move], again);
  }

  lemma {:induction false} StoredOnceMoved(
    before: Db, mid: Db, after: Db, t: Board, key: Key, since: int, at: int, faulted: bool, res: Result<(bool, bool)>,
    first: seq<Stmt>, again: seq<Stmt>)
    requires before == Replay(before, first) && AllStore(t, false, {key}, first)
    requires key.0 == Trim(t.provider) && mid == Exec(before, MoveJob(key, t.id, t.company))
    requires Moved(before, mid, t, key) && key.1 != ""
    requires UpsertDone(mid, after, t, key, at, faulted, res, again) && since <= at
    ensures var did := first + [MoveJob(key, t.id, t.company)] + again;
      StoreDone(before, after, t, key, true, since, faulted, VerdictOf(res), did)
  {
    var move, v := MoveJob(key, t.id, t.company), VerdictOf(res);
    ReplayMove(before, first, move, again);
    var did := first + [move] + again;
    assert AllStore(t, true, {key}, did);
    assert OnlyRow(before, after, key);
  }

  method StoreOne(s: Store, t: Board, j: Job, movable: bool) returns (v: Verdict, ghost did: seq<Stmt>)
    requires Valid(s.db) && RefersTo(s.db, t) && Trim(t.provider) == t.provider != ""
    modifies s
    ensures Valid(s.db) && old(s.clock) <= s.clock && (old(s.faulted) ==> s.faulted)
    ensures StoreDone(old(s.db), s.db, t, KeyFor(t, j.id), movable, old(s.clock), s.faulted, v, did)
    ensures StoreTold(old(s.db), s.db, t, j, movable, s.faulted, v)
  {
    var res;
    res, did := Upsert(s, t, j);
    if movable && res == Err(Answered(Mismatch)) {
      // the posting has passed to another target of the same provider
      v, did := MoveAndStore(s, t, j, did);
    } else {
      v := VerdictOf(res);
      assert ValidRowKey(s.db, KeyFor(t, j.id));
    }
  }

  method MoveAndStore(s: Store, t: Board, j: Job, ghost first: seq<Stmt>) returns (v: Verdict, ghost did: seq<Stmt>)
    requires Valid(s.db) && RefersTo(s.db, t) && Trim(t.provider) == t.provider != ""
    requires KeyFor(t, j.id) in s.db.jobs && s.db == Replay(s.db, first) && |first| <= 1
    requires AllStore(t, false, {KeyFor(t, j.id)}, first)
    modifies s
    ensures Valid(s.db) && old(s.clock) <= s.clock && (old(s.faulted) ==> s.faulted)
    ensures StoreDone(old(s.db), s.db, t, KeyFor(t, j.id), true, old(s.clock), s.faulted, v, did)
    ensures StoreTold(old(s.db), s.db, t, j, true, s.faulted, v)
  {
    ghost var key, before, since := KeyFor(t, j.id), s.db, s.clock;
    assert ValidRowKey(before, key);
    var moved := TakeOver(s, t, j.id);
    if moved {
      v, did := StoreMoved(s, t, j, before, since, first);
    } else {
      NotMoved(before, t, key, since, s.faulted, first);
      v, did := Skipped, first;
    }
  }

  /** Gives a job that is there to the target. */
  method TakeOver(s: Store, t: Board, id: string) returns (moved: bool)
    requires Valid(s.db) && RefersTo(s.db, t) && Trim(t.provider) == t.provider
    requires KeyFor(t, id) in s.db.jobs && ValidRowKey(s.db, KeyFor(t, id))
    modifies s
    ensures Valid(s.db) && old(s.clock) <= s.clock && (old(s.faulted) ==> s.faulted)
    ensures moved ==> s.db == Exec(old(s.db), MoveJob(KeyFor(t, id), t.id, t.company)) && RefersTo(s.db, t)
    ensures moved ==> Moved(old(s.db), s.db, t, KeyFor(t, id))
    ensures !moved ==> s.db == old(s.db) && s.faulted
  {
    var res;
    ghost var did;
    res, did := s.MoveJob(t.provider, id, t.id, t.company);
    moved := res.Ok?;
  }

  /** The second attempt, once the row is the target's. */
  method StoreMoved(s: Store, t: Board, j: Job, ghost before: Db, ghost since: int, ghost first: seq<Stmt>)
    returns (v: Verdict, ghost did: seq<Stmt>)
    requires Valid(s.db) && RefersTo(s.db, t) && Trim(t.provider) == t.provider != ""
    requires Moved(before, s.db, t, KeyFor(t, j.id)) && KeyFor(t, j.id).1 != "" && since <= s.clock
    requires s.db == Exec(before, MoveJob(KeyFor(t, j.id), t.id, t.company))
    requires before == Replay(before, first) && AllStore(t, false, {KeyFor(t, j.id)}, first)
    modifies s
    ensures Valid(s.db) && old(s.clock) <= s.clock && (old(s.faulted) ==> s.faulted)
    ensures StoreDone(before, s.db, t, KeyFor(t, j.id), true, since, s.faulted, v, did)
    ensures StoreTold(before, s.db, t, j, true, s.faulted, v)
  {
    ghost var key, mid := KeyFor(t, j.id), s.db;
    var res;
    ghost var again;
    res, again := Upsert(s, t, j);
    StoredOnceMoved(before, mid, s.db, t, key, since, old(s.clock), s.faulted, res, first, again);
    ToldOnceMoved(before, mid, s.db, t, j, s.faulted, res);
    v, did := VerdictOf(res), first + [MoveJob(key, t.id, t.company)] + again;
  }

  lemma {:induction false} ToldOnceMoved(
    before: Db, mid: Db, after: Db, t: Board, j: Job, faulted: bool, res: Result<(bool, bool)>)
    requires Moved(before, mid, t, KeyFor(t, j.id)) && UpsertTold(mid, after, t, j, faulted, res)
    ensures StoreTold(before, after, t, j, true, faulted, VerdictOf(res))
  {}

  lemma {:induction false} NotMoved(db: Db, t: Board, key: Key, since: int, faulted: bool, first: seq<Stmt>)
    requires db == Replay(db, first) && AllStore(t, false, {key}, first) && key.1 != ""
    ensures StoreDone(db, db, t, key, true, since, faulted, Skipped, first)
  {}

  // ----- Storing a listing ---------------------------------------------------------------------

  /** The ids that the first `n` jobs list as not ended, and as ended, as the source spells them. */
  function SeenUpto(jobs: seq<Job>, n: nat): seq<string>
    requires n <= |jobs|
  {
    if n == 0 then []
    else if jobs[n - 1].closed then SeenUpto(jobs, n - 1)
    else SeenUpto(jobs, n - 1) + [jobs[n - 1].id]
  }

  function EndedUpto(jobs: seq<Job>, n: nat): seq<string>
    requires n <= |jobs|
  {
    if n == 0 then []
    else if jobs[n - 1].closed && jobs[n - 1].id != "" then EndedUpto(jobs, n - 1) + [jobs[n - 1].id]
    else EndedUpto(jobs, n - 1)
  }

  function SeenIds(jobs: seq<Job>): seq<string> { SeenUpto(jobs, |jobs|) }
  function EndedIds(jobs: seq<Job>): seq<string> { EndedUpto(jobs, |jobs|) }

  /** The lists are of the ids of the jobs not ended, and of the ended ones that have an id. */
  lemma {:induction false} IdsListed(jobs: seq<Job>, n: nat, d: string)
    requires n <= |jobs|
    ensures d in SeenUpto(jobs, n) <==> exists i :: 0 <= i < n && !jobs[i].closed && jobs[i].id == d
    ensures d in EndedUpto(jobs, n) <==> d != "" && exists i :: 0 <= i < n && jobs[i].closed && jobs[i].id == d
  {
    if n > 0 { IdsListed(jobs, n - 1, d); }
  }

  /** A job that would be stored, but whose id is white space alone. */
  predicate BlankId(j: Job) { !j.closed && Storable(j) && Trim(j.id) == "" }

  predicate NoneBlank(jobs: seq<Job>, n: nat)
    requires n <= |jobs|
  {
    forall i :: 0 <= i < n ==> !BlankId(jobs[i])
  }

  predicate NoBlankIds(jobs: seq<Job>) { NoneBlank(jobs, |jobs|) }

  /** `places` are the positions in the listing of the jobs that were stored, whose ids are
      `stored`. */
  datatype RunResult = RunResult(
    inserted: nat, changed: nat, untouched: nat, skipped: nat, removed: nat, err: Option<Failure>, stored: set<string>,
    places: seq<nat>)

  function Total(r: RunResult): nat { r.inserted + r.changed + r.untouched + r.skipped }

  function Counted(r: RunResult, v: Verdict, id: string, place: nat): RunResult {
    match v
    case Skipped => r.(skipped := r.skipped + 1)
    case Abort(f) => r.(err := Some(f))
    case Stored(true, _) => With(r, id, place).(inserted := r.inserted + 1)
    case Stored(false, true) => With(r, id, place).(changed := r.changed + 1)
    case Stored(false, false) => With(r, id, place).(untouched := r.untouched + 1)
  }

  function With(r: RunResult, id: string, place: nat): RunResult {
    r.(stored := r.stored + {id}, places := r.places + [place])
  }

  ghost predicate OwnedOpen(db: Db, t: Board, k: Key) {
    k in db.jobs && db.jobs[k].target == t.id && db.jobs[k].status == Open
  }

  ghost predicate IsStored(t: Board, stored: set<string>, k: Key) { exists d :: d in stored && KeyFor(t, d) == k }

  /** What storing part of a listing has done to one row: that of another target is as it was,
      or was moved here; what was stored is open; and, for a board that moves nothing, the
      target's open jobs are those it had and those stored. Nothing is closed, and only what
      was stored counts as seen anew. */
  ghost predicate StoringAt(before: Db, db: Db, t: Board, movable: bool, since: int, stored: set<string>, k: Key) {
    && (k in before.jobs ==> k in db.jobs)
    && (k in db.jobs && db.jobs[k].target != t.id ==> k in before.jobs && db.jobs[k] == before.jobs[k])
    && (IsStored(t, stored, k) ==> Holds(db, t, k, since))
    && (OwnedOpen(db, t, k) ==> IsOpen(before, k) || IsStored(t, stored, k))
    && (IsOpen(before, k) ==>
          IsOpen(db, k) && (IsStored(t, stored, k) || db.jobs[k].lastSeen == before.jobs[k].lastSeen))
    && (!movable ==>
          && (k in before.jobs && before.jobs[k].target != t.id ==> db.jobs[k] == before.jobs[k])
          && (OwnedOpen(db, t, k) <==> OwnedOpen(before, t, k) || IsStored(t, stored, k)))
  }

  ghost predicate Storing(before: Db, db: Db, t: Board, movable: bool, since: int, stored: set<string>) {
    && db.(jobs := before.jobs) == before
    && forall k :: StoringAt(before, db, t, movable, since, stored, k)
  }

  lemma {:induction false} StoringNextAt(
    before: Db, mid: Db, db: Db, t: Board, movable: bool, since: int, now: int, faulted: bool,
    stored: set<string>, id: string, v: Verdict, did: seq<Stmt>, k: Key)
    requires StoringAt(before, mid, t, movable, since, stored, k) && since <= now
    requires StoreDone(mid, db, t, KeyFor(t, id), movable, now, faulted, v, did)
    ensures StoringAt(before, db, t, movable, since, if v.Stored? then stored + {id} else stored, k)
  {}

  lemma {:induction false} StoringNext(
    before: Db, mid: Db, db: Db, t: Board, movable: bool, since: int, now: int, faulted: bool,
    stored: set<string>, id: string, v: Verdict, did: seq<Stmt>)
    requires Storing(before, mid, t, movable, since, stored) && since <= now
    requires StoreDone(mid, db, t, KeyFor(t, id), movable, now, faulted, v, did)
    ensures Storing(before, db, t, movable, since, if v.Stored? then stored + {id} else stored)
  {
    var all := if v.Stored? then stored + {id} else stored;
    forall k ensures StoringAt(before, db, t, movable, since, all, k) {
      assert StoringAt(before, mid, t, movable, since, stored, k);
      StoringNextAt(before, mid, db, t, movable, since, now, faulted, stored, id, v, did, k);
    }
  }

  /** The keys of the jobs listed as not ended. */
  function ListedKeys(t: Board, jobs: seq<Job>): set<Key> { set j | j in jobs && !j.closed :: KeyFor(t, j.id) }

  ghost predicate SameRow(before: Db, db: Db, k: Key) {
    (k in db.jobs <==> k in before.jobs) && (k in before.jobs ==> db.jobs[k] == before.jobs[k])
  }

  /** The statements run so far, and what they have done. */
  ghost predicate Progress(
    before: Db, db: Db, t: Board, movable: bool, since: int, stored: set<string>, keys: set<Key>, did: seq<Stmt>)
  {
    && db == Replay(before, did) && AllStore(t, movable, keys, did) && Storing(before, db, t, movable, since, stored)
    && forall k :: k !in keys ==> SameRow(before, db, k)
  }

  lemma {:induction false} ProgressStart(db: Db, t: Board, movable: bool, since: int, keys: set<Key>)
    ensures Progress(db, db, t, movable, since, {}, keys, [])
  {
    ReplayOne(db, []);
  }

  lemma {:induction false} ProgressNext(
    before: Db, mid: Db, db: Db, t: Board, movable: bool, since: int, now: int, faulted: bool,
    stored: set<string>, id: string, v: Verdict, keys: set<Key>, did: seq<Stmt>, more: seq<Stmt>)
    requires Progress(before, mid, t, movable, since, stored, keys, did) && since <= now && KeyFor(t, id) in keys
    requires StoreDone(mid, db, t, KeyFor(t, id), movable, now, faulted, v, more)
    ensures Progress(before, db, t, movable, since, if v.Stored? then stored + {id} else stored, keys, did + more)
  {
    Interleaving.RunConcat(Exec, before, did, more);
    StoringNext(before, mid, db, t, movable, since, now, faulted, stored, id, v, more);
    forall k | k !in keys ensures SameRow(before, db, k) { assert SameRow(before, mid, k); }
  }

  // ----- What the rows say ---------------------------------------------------------------------

  /** What a job says of each column; nothing where it is silent. */
  ghost function ContentSaid(j: Job): Option<Content> {
    var c := j.content;
    Some(Content(if |c.title| <= 300 then c.title else c.title[..300], c.description, c.applicationUrl, "",
                 Trim(c.location), "", ""))
  }

  ghost function HashSaid(j: Job): Option<string> {
    var c := j.content;
    Some(Encoding(Content(if |c.title| <= 300 then c.title else c.title[..300], c.description, c.applicationUrl, "",
                          c.location, c.remoteType, c.employmentType)))
  }

  ghost function RemoteSaid(j: Job): Option<string> {
    if Trim(j.content.remoteType) == "" then None else Some(Trim(j.content.remoteType))
  }

  ghost function EmploymentSaid(j: Job): Option<string> {
    if Trim(j.content.employmentType) == "" then None else Some(Trim(j.content.employmentType))
  }

  /** A publish date more than a day ahead says nothing. */
  ghost function PublishedSaid(appNow: int): Job -> Option<int> {
    (j: Job) => if j.published.Some? && j.published.value - appNow <= 24 * 3600 then j.published else None
  }

  ghost function ExpiresSaid(j: Job): Option<int> { j.expires }

  ghost predicate IsOf(t: Board, jobs: seq<Job>, p: nat, k: Key) { p < |jobs| && KeyFor(t, jobs[p].id) == k }

  /** Of the jobs at these places, the one at `a` is the last of its key that says something. */
  ghost predicate LastToSay<T>(t: Board, jobs: seq<Job>, places: seq<nat>, k: Key, says: Job -> Option<T>, a: nat) {
    && a < |places| && IsOf(t, jobs, places[a], k) && says(jobs[places[a]]).Some?
    && forall b :: a < b < |places| && IsOf(t, jobs, places[b], k) ==> says(jobs[places[b]]).None?
  }

  ghost predicate NoneSays<T>(t: Board, jobs: seq<Job>, places: seq<nat>, k: Key, says: Job -> Option<T>) {
    forall b :: 0 <= b < |places| && IsOf(t, jobs, places[b], k) ==> says(jobs[places[b]]).None?
  }

  /** A column has what was said last, or what it had if nothing was. */
  ghost predicate Latest<T(!new)>(
    t: Board, jobs: seq<Job>, places: seq<nat>, k: Key, says: Job -> Option<T>, had: Option<T>, now: Option<T>)
  {
    || (NoneSays(t, jobs, places, k, says) && now == had)
    || (exists a: nat :: LastToSay(t, jobs, places, k, says, a) && now == says(jobs[places[a]]))
  }

  /** What the columns of a row say; the types of a row yet to come are unknown. */
  datatype Words = Words(
    content: Option<Content>, hash: Option<string>, remote: Option<string>, employment: Option<string>,
    published: Option<int>, expires: Option<int>)

  ghost function WordsAt(db: Db, k: Key): Words {
    if k !in db.jobs then Words(None, None, Some("unknown"), Some("unknown"), None, None)
    else
      var row := db.jobs[k];
      Words(Some(row.content), Some(row.hash), Some(row.remoteType), Some(row.employmentType), row.published,
            row.expires)
  }

  /** What a row says after the jobs at these places were stored: its content is that of the last
      job of its key; its types and dates are those said last, or what they were. */
  ghost predicate TellsAt(before: Db, db: Db, t: Board, jobs: seq<Job>, places: seq<nat>, appNow: int, k: Key) {
    var was, now := WordsAt(before, k), WordsAt(db, k);
    && Latest(t, jobs, places, k, ContentSaid, was.content, now.content)
    && Latest(t, jobs, places, k, HashSaid, was.hash, now.hash)
    && Latest(t, jobs, places, k, RemoteSaid, was.remote, now.remote)
    && Latest(t, jobs, places, k, EmploymentSaid, was.employment, now.employment)
    && Latest(t, jobs, places, k, PublishedSaid(appNow), was.published, now.published)
    && Latest(t, jobs, places, k, ExpiresSaid, was.expires, now.expires)
  }

  lemma {:induction false} LatestNext<T(!new)>(
    t: Board, jobs: seq<Job>, places: seq<nat>, p: nat, k: Key, says: Job -> Option<T>, had: Option<T>, was: Option<T>,
    now: Option<T>)
    requires p < |jobs| && Latest(t, jobs, places, k, says, had, was)
    requires now == if IsOf(t, jobs, p, k) && says(jobs[p]).Some? then says(jobs[p]) else was
    ensures Latest(t, jobs, places + [p], k, says, had, now)
  {
    var all := places + [p];
    assert forall b :: 0 <= b < |places| ==> all[b] == places[b];
    assert all[|places|] == p;
    if IsOf(t, jobs, p, k) && says(jobs[p]).Some? {
      assert LastToSay(t, jobs, all, k, says, |places|);
    } else if NoneSays(t, jobs, places, k, says) && was == had {
      assert NoneSays(t, jobs, all, k, says);
    } else {
      var a: nat :| LastToSay(t, jobs, places, k, says, a) && was == says(jobs[places[a]]);
      assert LastToSay(t, jobs, all, k, says, a);
    }
  }

  /** What storing one listed job does to what the rows say. */
  ghost predicate NotedAt(mid: Db, db: Db, t: Board, j: Job, appNow: int, v: Verdict, k: Key) {
    if v.Stored? && k == KeyFor(t, j.id) then
      k in db.jobs && RowTells(mid, db, k, Tidy(j, appNow)) && Newness(mid, db, k, v)
    else SameWordsAt(mid, db, k)
  }

  ghost predicate Noted(mid: Db, db: Db, t: Board, j: Job, appNow: int, v: Verdict) {
    forall k :: NotedAt(mid, db, t, j, appNow, v, k)
  }

  lemma {:induction false} NotedSkip(db: Db, t: Board, j: Job, appNow: int)
    ensures Noted(db, db, t, j, appNow, Skipped)
  {}

  lemma {:induction false} NotedStore(
    mid: Db, db: Db, t: Board, j: Job, movable: bool, appNow: int, now: int, faulted: bool, v: Verdict, did: seq<Stmt>)
    requires StoreDone(mid, db, t, KeyFor(t, j.id), movable, now, faulted, v, did)
    requires StoreTold(mid, db, t, Tidy(j, appNow), movable, faulted, v)
    ensures Noted(mid, db, t, j, appNow, v)
  {}

  /** What was said, or else what was there. */
  ghost function Else<T>(said: Option<T>, was: Option<T>): Option<T> { if said.Some? then said else was }

  ghost predicate ColumnsAre(was: Words, now: Words, j: Job, appNow: int) {
    && now.content == Else(ContentSaid(j), was.content) && now.hash == Else(HashSaid(j), was.hash)
    && now.remote == Else(RemoteSaid(j), was.remote) && now.employment == Else(EmploymentSaid(j), was.employment)
    && now.published == Else(PublishedSaid(appNow)(j), was.published)
    && now.expires == Else(ExpiresSaid(j), was.expires)
  }

  /** The columns of the row of a job that was stored. */
  lemma {:induction false} ColumnsSay(mid: Db, db: Db, t: Board, j: Job, appNow: int, v: Verdict)
    requires v.Stored? && NotedAt(mid, db, t, j, appNow, v, KeyFor(t, j.id))
    ensures ColumnsAre(WordsAt(mid, KeyFor(t, j.id)), WordsAt(db, KeyFor(t, j.id)), j, appNow)
  {}

  lemma {:induction false} TellsNext(
    before: Db, mid: Db, db: Db, t: Board, jobs: seq<Job>, places: seq<nat>, appNow: int, p: nat, k: Key)
    requires p < |jobs| && TellsAt(before, mid, t, jobs, places, appNow, k)
    requires var was, now := WordsAt(mid, k), WordsAt(db, k);
      if KeyFor(t, jobs[p].id) == k then ColumnsAre(was, now, jobs[p], appNow) else now == was
    ensures TellsAt(before, db, t, jobs, places + [p], appNow, k)
  {
    var had, was, now := WordsAt(before, k), WordsAt(mid, k), WordsAt(db, k);
    LatestNext(t, jobs, places, p, k, ContentSaid, had.content, was.content, now.content);
    LatestNext(t, jobs, places, p, k, HashSaid, had.hash, was.hash, now.hash);
    LatestNext(t, jobs, places, p, k, RemoteSaid, had.remote, was.remote, now.remote);
    LatestNext(t, jobs, places, p, k, EmploymentSaid, had.employment, was.employment, now.employment);
    LatestNext(t, jobs, places, p, k, PublishedSaid(appNow), had.published, was.published, now.published);
    LatestNext(t, jobs, places, p, k, ExpiresSaid, had.expires, was.expires, now.expires);
  }

  /** The counters and lists after the first `n` jobs of a listing. */
  ghost predicate Tally(jobs: seq<Job>, n: nat, r: RunResult, seen: seq<string>, ended: seq<string>)
    requires n <= |jobs|
  {
    && seen == SeenUpto(jobs, n) && ended == EndedUpto(jobs, n) && Total(r) == |seen|
    && r.err.None? && r.removed == 0 && forall d :: d in r.stored ==> d in seen
  }

  /** The places are those of jobs not ended, in order, and give the ids stored. */
  ghost predicate Placed(jobs: seq<Job>, n: nat, r: RunResult) {
    && |r.places| == r.inserted + r.changed + r.untouched
    && (forall a, b :: 0 <= a < b < |r.places| ==> r.places[a] < r.places[b])
    && (forall a :: 0 <= a < |r.places| ==> r.places[a] < n <= |jobs| && !jobs[r.places[a]].closed)
    && (forall d :: d in r.stored <==> StoredId(jobs, r.places, d))
  }

  ghost predicate StoredId(jobs: seq<Job>, places: seq<nat>, d: string) {
    exists a :: 0 <= a < |places| && places[a] < |jobs| && jobs[places[a]].id == d
  }

  lemma {:induction false} PlacedNext(jobs: seq<Job>, i: nat, r: RunResult, v: Verdict)
    requires i < |jobs| && Placed(jobs, i, r)
    ensures Placed(jobs, i + 1, r)
    ensures !jobs[i].closed ==> Placed(jobs, i + 1, Counted(r, v, jobs[i].id, i))
  {
    forall d ensures StoredId(jobs, r.places + [i], d) <==> StoredId(jobs, r.places, d) || d == jobs[i].id {
      StoredIdNext(jobs, i, r.places, d);
    }
  }

  lemma {:induction false} StoredIdNext(jobs: seq<Job>, i: nat, places: seq<nat>, d: string)
    requires i < |jobs|
    ensures StoredId(jobs, places + [i], d) <==> StoredId(jobs, places, d) || d == jobs[i].id
  {
    var all := places + [i];
    assert all[|places|] == i;
    if StoredId(jobs, places, d) {
      var a :| 0 <= a < |places| && places[a] < |jobs| && jobs[places[a]].id == d;
      assert all[a] == places[a];
    }
  }

  /** What the first `n` jobs of a listing have left in the counters and in one row. */
  ghost predicate ToldAt(before: Db, db: Db, t: Board, jobs: seq<Job>, n: nat, appNow: int, r: RunResult, k: Key) {
    && Placed(jobs, n, r) && before.jobs.Keys <= db.jobs.Keys && r.inserted == |db.jobs.Keys - before.jobs.Keys|
    && TellsAt(before, db, t, jobs, r.places, appNow, k)
  }

  ghost predicate Told(before: Db, db: Db, t: Board, jobs: seq<Job>, n: nat, appNow: int, r: RunResult) {
    forall k :: ToldAt(before, db, t, jobs, n, appNow, r, k)
  }

  lemma {:induction false} ToldNext(
    before: Db, mid: Db, db: Db, t: Board, jobs: seq<Job>, i: nat, appNow: int, r: RunResult, v: Verdict)
    requires i < |jobs| && !jobs[i].closed && Told(before, mid, t, jobs, i, appNow, r)
    requires Noted(mid, db, t, jobs[i], appNow, v)
    ensures Told(before, db, t, jobs, i + 1, appNow, Counted(r, v, jobs[i].id, i))
  {
    var next, n := Counted(r, v, jobs[i].id, i), i + 1;
    assert ToldAt(before, mid, t, jobs, i, appNow, r, KeyFor(t, jobs[i].id));
    PlacedNext(jobs, i, r, v);
    RowsNext(before, mid, db, t, jobs[i], appNow, v);
    forall k ensures ToldAt(before, db, t, jobs, n, appNow, next, k) {
      assert ToldAt(before, mid, t, jobs, i, appNow, r, k);
      assert NotedAt(mid, db, t, jobs[i], appNow, v, k);
      TellsNextAt(before, mid, db, t, jobs, i, appNow, r.places, v, k);
    }
  }

  lemma {:induction false} TellsNextAt(
    before: Db, mid: Db, db: Db, t: Board, jobs: seq<Job>, i: nat, appNow: int, places: seq<nat>, v: Verdict, k: Key)
    requires i < |jobs| && TellsAt(before, mid, t, jobs, places, appNow, k)
    requires NotedAt(mid, db, t, jobs[i], appNow, v, k)
    ensures TellsAt(before, db, t, jobs, if v.Stored? then places + [i] else places, appNow, k)
  {
    if v.Stored? {
      if k == KeyFor(t, jobs[i].id) { ColumnsSay(mid, db, t, jobs[i], appNow, v); }
      TellsNext(before, mid, db, t, jobs, places, appNow, i, k);
    } else {
      assert WordsAt(db, k) == WordsAt(mid, k);
    }
  }

  lemma {:induction false} RowsNext(before: Db, mid: Db, db: Db, t: Board, j: Job, appNow: int, v: Verdict)
    requires before.jobs.Keys <= mid.jobs.Keys && Noted(mid, db, t, j, appNow, v)
    ensures before.jobs.Keys <= db.jobs.Keys
    ensures |db.jobs.Keys - before.jobs.Keys| ==
      |mid.jobs.Keys - before.jobs.Keys| + if v.Stored? && v.inserted then 1 else 0
  {
    var key := KeyFor(t, j.id);
    assert NotedAt(mid, db, t, j, appNow, v, key);
    forall k | k != key ensures k in db.jobs <==> k in mid.jobs { assert NotedAt(mid, db, t, j, appNow, v, k); }
    NewKeys(before.jobs.Keys, mid.jobs.Keys, db.jobs.Keys, key);
  }

  lemma {:induction false} NewKeys(before: set<Key>, mid: set<Key>, now: set<Key>, key: Key)
    requires before <= mid && (key in mid ==> key in now) && forall k :: k != key ==> (k in now <==> k in mid)
    ensures before <= now && |now - before| == |mid - before| + if key in now && key !in mid then 1 else 0
  {
    assert now - before == if key in now && key !in mid then (mid - before) + {key} else mid - before;
  }

  lemma {:induction false} NothingTold(db: Db, t: Board, jobs: seq<Job>, appNow: int, r0: RunResult)
    requires r0.places == [] && r0.stored == {} && r0.inserted == r0.changed == r0.untouched == 0
    ensures Told(db, db, t, jobs, 0, appNow, r0)
  {
    assert db.jobs.Keys - db.jobs.Keys == {};
    forall k ensures ToldAt(db, db, t, jobs, 0, appNow, r0, k) {
      NoneYet(t, jobs, k, ContentSaid);
      NoneYet(t, jobs, k, HashSaid);
      NoneYet(t, jobs, k, RemoteSaid);
      NoneYet(t, jobs, k, EmploymentSaid);
      NoneYet(t, jobs, k, PublishedSaid(appNow));
      NoneYet(t, jobs, k, ExpiresSaid);
    }
  }

  lemma {:induction false} NoneYet<T(!new)>(t: Board, jobs: seq<Job>, k: Key, says: Job -> Option<T>)
    ensures NoneSays(t, jobs, [], k, says)
  {}

  /** What became of one listed job, and without a failed call, what had to become of it. */
  ghost predicate VisitDone(
    before: Db, mid: Db, db: Db, t: Board, j: Job, movable: bool, appNow: int, faulted: bool, v: Verdict)
  {
    && Noted(mid, db, t, j, appNow, v)
    && (!faulted ==> (v.Abort? <==> BlankId(j)) && (Due(before, t, j, movable) ==> v.Stored?))
  }

  /** A property of the tables, whether a call has failed, and the result after some jobs. */
  type Property = (nat, Db, bool, RunResult) -> bool

  /** Every job visited keeps the property. */
  ghost predicate Carried(inv: Property, before: Db, t: Board, jobs: seq<Job>, movable: bool, appNow: int) {
    && (forall i: nat, db, f, r {:trigger inv(i, db, f, r), jobs[i].closed} ::
          i < |jobs| && inv(i, db, f, r) && r.err.None? && jobs[i].closed ==> inv(i + 1, db, f, r))
    && (forall i: nat, mid, db, f, g, r, v
            {:trigger inv(i, mid, f, r), VisitDone(before, mid, db, t, jobs[i], movable, appNow, g, v)} ::
          && i < |jobs| && inv(i, mid, f, r) && r.err.None? && !jobs[i].closed && (f ==> g)
          && VisitDone(before, mid, db, t, jobs[i], movable, appNow, g, v) ==>
            inv(i + 1, db, g, Counted(r, v, jobs[i].id, i)))
  }

  /** The rows and the places of the jobs stored, and which jobs must have been stored. */
  ghost predicate Gone(
    before: Db, db: Db, t: Board, jobs: seq<Job>, n: nat, movable: bool, appNow: int, faulted: bool, r: RunResult)
  {
    Told(before, db, t, jobs, n, appNow, r) && (!faulted ==> Complete(before, t, jobs, n, movable, r))
  }

  /** Nothing was left out, or the run stopped at a blank id. */
  ghost predicate Complete(before: Db, t: Board, jobs: seq<Job>, n: nat, movable: bool, r: RunResult) {
    && n <= |jobs|
    && if r.err.None? then NoneBlank(jobs, n) && AllStored(before, t, jobs, n, movable, r.places)
       else !NoBlankIds(jobs)
  }

  lemma {:induction false} CompleteNext(
    before: Db, t: Board, jobs: seq<Job>, i: nat, movable: bool, r: RunResult, v: Verdict)
    requires i < |jobs| && Complete(before, t, jobs, i, movable, r) && r.err.None?
    requires (v.Abort? <==> BlankId(jobs[i])) && (Due(before, t, jobs[i], movable) ==> v.Stored?)
    ensures Complete(before, t, jobs, i + 1, movable, Counted(r, v, jobs[i].id, i))
  {
    var next := Counted(r, v, jobs[i].id, i);
    forall h | 0 <= h < i + 1 && Due(before, t, jobs[h], movable) && next.err.None? ensures h in next.places {
      if h == i { assert next.places[|r.places|] == i; }
    }
  }

  lemma {:induction false} CarriedOn(
    inv: Property, before: Db, mid: Db, db: Db, t: Board, jobs: seq<Job>, i: nat, movable: bool, appNow: int,
    f: bool, g: bool, r: RunResult, v: Verdict)
    requires Carried(inv, before, t, jobs, movable, appNow)
    requires i < |jobs| && inv(i, mid, f, r) && r.err.None? && !jobs[i].closed && (f ==> g)
    requires VisitDone(before, mid, db, t, jobs[i], movable, appNow, g, v)
    ensures inv(i + 1, db, g, Counted(r, v, jobs[i].id, i))
  {}

  ghost function Going(before: Db, t: Board, jobs: seq<Job>, movable: bool, appNow: int): Property {
    (n: nat, db: Db, faulted: bool, r: RunResult) => Gone(before, db, t, jobs, n, movable, appNow, faulted, r)
  }

  lemma {:induction false} GoingOn(before: Db, t: Board, jobs: seq<Job>, movable: bool, appNow: int, r0: RunResult)
    requires r0.places == [] && r0.stored == {} && r0.err.None? && r0.inserted == r0.changed == r0.untouched == 0
    ensures Carried(Going(before, t, jobs, movable, appNow), before, t, jobs, movable, appNow)
    ensures forall f :: Going(before, t, jobs, movable, appNow)(0, before, f, r0)
  {
    var inv := Going(before, t, jobs, movable, appNow);
    NothingTold(before, t, jobs, appNow, r0);
    forall i: nat, db, f, r | i < |jobs| && inv(i, db, f, r) && r.err.None? && jobs[i].closed
      ensures inv(i + 1, db, f, r)
    {
      GonePast(before, db, t, jobs, i, movable, appNow, f, r);
    }
    forall i: nat, mid, db, f, g, r, v |
      && i < |jobs| && inv(i, mid, f, r) && r.err.None? && !jobs[i].closed && (f ==> g)
      && VisitDone(before, mid, db, t, jobs[i], movable, appNow, g, v)
      ensures inv(i + 1, db, g, Counted(r, v, jobs[i].id, i))
    {
      GoneNext(before, mid, db, t, jobs, i, movable, appNow, f, g, r, v);
    }
  }

  lemma {:induction false} GonePast(
    before: Db, db: Db, t: Board, jobs: seq<Job>, i: nat, movable: bool, appNow: int, f: bool, r: RunResult)
    requires i < |jobs| && jobs[i].closed && r.err.None? && Gone(before, db, t, jobs, i, movable, appNow, f, r)
    ensures Gone(before, db, t, jobs, i + 1, movable, appNow, f, r)
  {
    ToldLater(before, db, t, jobs, i, i + 1, appNow, r);
  }

  lemma {:induction false} GoneNext(
    before: Db, mid: Db, db: Db, t: Board, jobs: seq<Job>, i: nat, movable: bool, appNow: int, f: bool, g: bool,
    r: RunResult, v: Verdict)
    requires i < |jobs| && !jobs[i].closed && r.err.None? && (f ==> g)
    requires Gone(before, mid, t, jobs, i, movable, appNow, f, r)
    requires VisitDone(before, mid, db, t, jobs[i], movable, appNow, g, v)
    ensures Gone(before, db, t, jobs, i + 1, movable, appNow, g, Counted(r, v, jobs[i].id, i))
  {
    ToldNext(before, mid, db, t, jobs, i, appNow, r, v);
    if !g { CompleteNext(before, t, jobs, i, movable, r, v); }
  }

  lemma {:induction false} ToldLater(
    before: Db, db: Db, t: Board, jobs: seq<Job>, n: nat, m: nat, appNow: int, r: RunResult)
    requires Told(before, db, t, jobs, n, appNow, r) && n <= m <= |jobs|
    ensures Told(before, db, t, jobs, m, appNow, r)
  {
    forall k ensures ToldAt(before, db, t, jobs, m, appNow, r, k) {
      assert ToldAt(before, db, t, jobs, n, appNow, r, k);
    }
  }

  lemma {:induction false} TallyListed(
    jobs: seq<Job>, i: nat, r: RunResult, seen: seq<string>, ended: seq<string>, v: Verdict)
    requires i < |jobs| && Tally(jobs, i, r, seen, ended) && !jobs[i].closed && !v.Abort?
    ensures Tally(jobs, i + 1, Counted(r, v, jobs[i].id, i), seen + [jobs[i].id], ended)
  {}

  ghost predicate HasWord(s: string) { exists i :: 0 <= i < |s| && s[i] != ' ' }

  /** A listed job that is to be stored: it has an id, a title and a link, no NUL and no unheard-of
      type, and it is not another target's or may be moved. */
  ghost predicate Due(before: Db, t: Board, j: Job, movable: bool) {
    var c, title, remote, employment :=
      j.content, if |j.content.title| <= 300 then j.content.title else j.content.title[..300],
      Trim(j.content.remoteType), Trim(j.content.employmentType);
    && !j.closed && Trim(j.id) != "" && HasWord(title) && HasWord(c.applicationUrl)
    && '\0' !in Trim(j.id) && '\0' !in title && '\0' !in c.description && '\0' !in c.applicationUrl
    && '\0' !in c.location && '\0' !in c.remoteType && '\0' !in c.employmentType
    && remote in {"", "unknown", "remote", "hybrid", "onsite"}
    && employment in {"", "unknown", "full_time", "part_time", "contract", "internship"}
    && (movable || Owned(before, t, KeyFor(t, j.id)))
  }

  lemma {:induction false} WordIsNotBlank(s: string)
    ensures HasWord(s) <==> !AllSpaces(s)
  {
    if s != "" {
      WordIsNotBlank(s[1..]);
      if HasWord(s[1..]) {
        var i :| 0 <= i < |s[1..]| && s[1..][i] != ' ';
        assert s[i + 1] != ' ';
      }
      if HasWord(s) && s[0] == ' ' {
        var i :| 0 <= i < |s| && s[i] != ' ';
        assert s[1..][i - 1] != ' ';
      }
    }
  }

  /** Nothing about such a job keeps it from being stored. */
  lemma {:induction false} DueFits(before: Db, t: Board, j: Job, movable: bool, appNow: int)
    requires Due(before, t, j, movable)
    ensures Storable(j) && Fits(t, Tidy(j, appNow)) && (movable || Owned(before, t, KeyFor(t, j.id)))
  {
    var aj := Tidy(j, appNow);
    TidyKeeps(j, appNow);
    WordIsNotBlank(aj.content.title);
    WordIsNotBlank(j.content.applicationUrl);
    DueIsClean(before, t, j, movable, appNow);
  }

  lemma {:induction false} DueIsClean(before: Db, t: Board, j: Job, movable: bool, appNow: int)
    requires Due(before, t, j, movable)
    ensures ParamsOf(RecordOf(t, Tidy(j, appNow))).content.Clean() && NulFree(Trim(j.id)) && Trim(j.id) != ""
    ensures Trim(j.content.remoteType) in REMOTE_TYPES + {"", UNKNOWN}
    ensures Trim(j.content.employmentType) in EMPLOYMENT_TYPES + {"", UNKNOWN}
  {}

  ghost predicate AllStored(
    before: Db, t: Board, jobs: seq<Job>, n: nat, movable: bool, places: seq<nat>)
    requires n <= |jobs|
  {
    forall i :: 0 <= i < n ==> Due(before, t, jobs[i], movable) ==> i in places
  }

  lemma {:induction false} StillOwned(
    before: Db, db: Db, t: Board, movable: bool, since: int, stored: set<string>, keys: set<Key>, did: seq<Stmt>,
    key: Key)
    requires Progress(before, db, t, movable, since, stored, keys, did) && Owned(before, t, key)
    ensures Owned(db, t, key)
  {
    assert StoringAt(before, db, t, movable, since, stored, key);
  }

  /** Stores one listed job, unless it lacks an id, a title or a link. */
  method StoreListed(s: Store, t: Board, j: Job, movable: bool, appNow: int, r: RunResult,
    ghost before: Db, ghost since: int, ghost keys: set<Key>, ghost did: seq<Stmt>)
    returns (v: Verdict, ghost did': seq<Stmt>)
    requires Valid(s.db) && RefersTo(s.db, t) && Trim(t.provider) == t.provider != ""
    requires Progress(before, s.db, t, movable, since, r.stored, keys, did) && since <= s.clock && !j.closed
    requires KeyFor(t, j.id) in keys
    modifies s
    ensures Valid(s.db) && old(s.clock) <= s.clock && (old(s.faulted) ==> s.faulted)
    ensures Progress(before, s.db, t, movable, since, if v.Stored? then r.stored + {j.id} else r.stored, keys, did')
    ensures VisitDone(before, old(s.db), s.db, t, j, movable, appNow, s.faulted, v)
  {
    if Due(before, t, j, movable) { DueFits(before, t, j, movable, appNow); }
    if Owned(before, t, KeyFor(t, j.id)) {
      StillOwned(before, s.db, t, movable, since, r.stored, keys, did, KeyFor(t, j.id));
    }
    var aj := Tidy(j, appNow);
    assert aj.id == j.id && (Storable(aj) <==> Storable(j));
    NotedSkip(s.db, t, j, appNow);
    if !Storable(aj) { return Skipped, did; }
    ghost var mid, now := s.db, s.clock;
    ghost var more;
    v, more := StoreOne(s, t, aj, movable);
    ProgressNext(before, mid, s.db, t, movable, since, now, s.faulted, r.stored, j.id, v, keys, did, more);
    NotedStore(mid, s.db, t, j, movable, appNow, now, s.faulted, v, more);
    did' := did + more;
  }

  /** One round of the loop over the listing. */
  method Visit(
    s: Store, t: Board, jobs: seq<Job>, i: nat, movable: bool, appNow: int,
    r0: RunResult, seen0: seq<string>, ended0: seq<string>,
    ghost before: Db, ghost since: int, ghost keys: set<Key>, ghost did0: seq<Stmt>, ghost inv: Property)
    returns (r: RunResult, seen: seq<string>, ended: seq<string>, ghost did: seq<Stmt>)
    requires Valid(s.db) && RefersTo(s.db, t) && Trim(t.provider) == t.provider != ""
    requires Progress(before, s.db, t, movable, since, r0.stored, keys, did0) && since <= s.clock
    requires keys == ListedKeys(t, jobs)
    requires i < |jobs| && Tally(jobs, i, r0, seen0, ended0)
    requires Carried(inv, before, t, jobs, movable, appNow) && inv(i, s.db, s.faulted, r0)
    modifies s
    ensures Valid(s.db) && old(s.clock) <= s.clock && (old(s.faulted) ==> s.faulted)
    ensures Progress(before, s.db, t, movable, since, r.stored, keys, did)
    ensures r.err.None? ==> Tally(jobs, i + 1, r, seen, ended)
    ensures inv(i + 1, s.db, s.faulted, r) && r.removed == 0
  {
    r, seen, ended, did := r0, seen0, ended0, did0;
    if jobs[i].closed {
      // deliberately not seen
      if jobs[i].id != "" { ended := ended + [jobs[i].id]; }
      return;
    }
    ghost var mid, was := s.db, s.faulted;
    var v;
    v, did := StoreListed(s, t, jobs[i], movable, appNow, r, before, since, keys, did);
    if !v.Abort? { TallyListed(jobs, i, r, seen, ended, v); }
    seen := seen + [jobs[i].id];
    CarriedOn(inv, before, mid, s.db, t, jobs, i, movable, appNow, was, s.faulted, r, v);
    r := Counted(r, v, jobs[i].id, i);
  }

  /** The whole listing is gone through, or a job could not be stored for a reason that is not
      its own: then nothing of the board is closed. */
  method StoreListing(s: Store, t: Board, jobs: seq<Job>, movable: bool, appNow: int)
    returns (r: RunResult, seen: seq<string>, ended: seq<string>, ghost did: seq<Stmt>)
    requires Valid(s.db) && RefersTo(s.db, t) && Trim(t.provider) == t.provider != ""
    modifies s
    ensures Valid(s.db) && old(s.clock) <= s.clock && (old(s.faulted) ==> s.faulted)
    ensures Progress(old(s.db), s.db, t, movable, old(s.clock), r.stored, ListedKeys(t, jobs), did)
    ensures Told(old(s.db), s.db, t, jobs, |jobs|, appNow, r) && r.removed == 0
    ensures r.err.None? ==> Tally(jobs, |jobs|, r, seen, ended)
    ensures !s.faulted ==> (r.err.None? <==> NoBlankIds(jobs))
    ensures !s.faulted && r.err.None? ==> AllStored(old(s.db), t, jobs, |jobs|, movable, r.places)
  {
    ghost var before := s.db;
    var r0 := RunResult(0, 0, 0, 0, 0, None, {}, []);
    GoingOn(before, t, jobs, movable, appNow, r0);
    var n;
    r, seen, ended, n, did := VisitAll(s, t, jobs, movable, appNow, r0, Going(before, t, jobs, movable, appNow));
    ToldLater(before, s.db, t, jobs, n, |jobs|, appNow, r);
  }

  /** `n` jobs are visited; every property their visits keep is kept. */
  method VisitAll(
    s: Store, t: Board, jobs: seq<Job>, movable: bool, appNow: int, r0: RunResult, ghost inv: Property)
    returns (r: RunResult, seen: seq<string>, ended: seq<string>, n: nat, ghost did: seq<Stmt>)
    requires Valid(s.db) && RefersTo(s.db, t) && Trim(t.provider) == t.provider != ""
    requires Carried(inv, s.db, t, jobs, movable, appNow) && inv(0, s.db, s.faulted, r0)
    requires Tally(jobs, 0, r0, [], []) && r0.stored == {}
    modifies s
    ensures Valid(s.db) && old(s.clock) <= s.clock && (old(s.faulted) ==> s.faulted)
    ensures Progress(old(s.db), s.db, t, movable, old(s.clock), r.stored, ListedKeys(t, jobs), did)
    ensures r.err.None? ==> n == |jobs| && Tally(jobs, n, r, seen, ended)
    ensures n <= |jobs| && inv(n, s.db, s.faulted, r) && r.removed == 0
  {
    ghost var before, since, keys := s.db, s.clock, ListedKeys(t, jobs);
    r, seen, ended, n, did := r0, [], [], 0, [];
    ProgressStart(before, t, movable, since, keys);
    while n < |jobs| && r.err.None?
      invariant Valid(s.db) && since <= s.clock && (old(s.faulted) ==> s.faulted)
      invariant Progress(before, s.db, t, movable, since, r.stored, keys, did)
      invariant n <= |jobs| && (r.err.None? ==> Tally(jobs, n, r, seen, ended))
      invariant inv(n, s.db, s.faulted, r) && r.removed == 0
    {
      r, seen, ended, did := Visit(s, t, jobs, n, movable, appNow, r, seen, ended, before, since, keys, did, inv);
      n := n + 1;
    }
  }

  // ----- Closing what is gone --------------------------------------------------------------------

  /** A sample closes by age; a full board closes what it does not list. */
  function Rule(staleAfter: int, seen: seq<string>): Closing {
    if staleAfter > 0 then Stale(staleAfter) else Missing(seen)
  }

  predicate ClosesFor(t: Board, staleAfter: int, seen: seq<string>, ended: seq<string>, s: Stmt) {
    || (s.CloseJobs? && s.target == t.id && (s.which == Ended(ended) || s.which == Rule(staleAfter, seen)))
    || (s.MarkSucceeded? && s.target == t.id)
  }

  ghost predicate AllClose(t: Board, staleAfter: int, seen: seq<string>, ended: seq<string>, log: seq<Stmt>) {
    forall i :: 0 <= i < |log| ==> ClosesFor(t, staleAfter, seen, ended, log[i])
  }

  /** The row was closed, and nothing else about it changed. */
  predicate IsShut(was: Row, row: Row) {
    row.closedAt.Some? && row == was.(status := Removed, closedAt := row.closedAt)
  }

  /** Every row stays as it was, except that some open jobs of the target are closed. */
  ghost predicate OnlyCloses(before: Db, db: Db, t: Board, k: Key) {
    && (k in db.jobs <==> k in before.jobs)
    && (k in before.jobs ==>
          || db.jobs[k] == before.jobs[k]
          || (OwnedOpen(before, t, k) && IsShut(before.jobs[k], db.jobs[k])))
  }

  /** Why an open job may be closed: the source reports it as ended, a full board lacks it, or a
      sample has not shown it within the window. */
  predicate Cause(staleAfter: int, seen: seq<string>, ended: seq<string>, lastSeen: int, now: int, id: string) {
    || id in ended
    || (staleAfter <= 0 && id !in seen)
    || (staleAfter > 0 && lastSeen < now - staleAfter)
  }

  /** What was closed was closed for a cause. */
  ghost predicate Caused(
    before: Db, db: Db, staleAfter: int, seen: seq<string>, ended: seq<string>, now: int, k: Key)
  {
    IsOpen(before, k) && !IsOpen(db, k) ==> Cause(staleAfter, seen, ended, before.jobs[k].lastSeen, now, k.1)
  }

  /** Whether the row stays open when the rules are applied between the two times. */
  ghost predicate ClosedRightly(
    before: Db, db: Db, t: Board, staleAfter: int, seen: seq<string>, ended: seq<string>, since: int, now: int, k: Key)
  {
    && (OwnedOpen(db, t, k) ==> OwnedOpen(before, t, k) && k.1 !in ended)
    && (staleAfter <= 0 ==> (OwnedOpen(db, t, k) <==> OwnedOpen(before, t, k) && k.1 !in ended && k.1 in seen))
    && (staleAfter > 0 ==>
          && (OwnedOpen(db, t, k) ==> db.jobs[k].lastSeen >= since - staleAfter)
          && (OwnedOpen(before, t, k) && k.1 !in ended && before.jobs[k].lastSeen >= now - staleAfter ==>
                OwnedOpen(db, t, k)))
  }

  /** The targets are the same but for the time of their last success. */
  ghost predicate SameTargetsBut(before: Db, db: Db) {
    && db.(jobs := before.jobs, targets := before.targets) == before && db.targets.Keys == before.targets.Keys
    && forall u :: u in before.targets ==> db.targets[u] == before.targets[u].(succeededAt := db.targets[u].succeededAt)
  }

  ghost predicate Shutting(
    before: Db, db: Db, t: Board, staleAfter: int, seen: seq<string>, ended: seq<string>, now: int, did: seq<Stmt>)
  {
    && db == Replay(before, did) && AllClose(t, staleAfter, seen, ended, did)
    && (forall k :: OnlyCloses(before, db, t, k) && Caused(before, db, staleAfter, seen, ended, now, k))
    && SameTargetsBut(before, db)
  }

  lemma {:induction false} CloseEffect(db: Db, t: Board, which: Closing, now: int, k: Key)
    ensures var after := DoClose(db, t.id, which, now);
      && OnlyCloses(db, after, t, k)
      && (OwnedOpen(after, t, k) <==> OwnedOpen(db, t, k) && !(Sendable(which) && Picks(which, k.1, db.jobs[k], now)))
      && (OwnedOpen(after, t, k) ==> after.jobs[k] == db.jobs[k])
  {}

  lemma {:induction false} ShuttingNext(
    before: Db, mid: Db, t: Board, staleAfter: int, seen: seq<string>, ended: seq<string>, at: int, now: int,
    did: seq<Stmt>, s: Stmt)
    requires Shutting(before, mid, t, staleAfter, seen, ended, at, did) && ClosesFor(t, staleAfter, seen, ended, s)
    requires at <= now && s.now <= now
    ensures Shutting(before, Exec(mid, s), t, staleAfter, seen, ended, now, did + [s])
  {
    var db := Exec(mid, s);
    Interleaving.RunSnoc(Exec, before, did, s);
    forall k ensures OnlyCloses(before, db, t, k) && Caused(before, db, staleAfter, seen, ended, now, k) {
      assert OnlyCloses(before, mid, t, k) && Caused(before, mid, staleAfter, seen, ended, at, k);
      if s.CloseJobs? { CloseEffect(mid, t, s.which, s.now, k); }
    }
  }

  lemma {:induction false} ShuttingLater(
    before: Db, db: Db, t: Board, staleAfter: int, seen: seq<string>, ended: seq<string>, at: int, now: int,
    did: seq<Stmt>)
    requires Shutting(before, db, t, staleAfter, seen, ended, at, did) && at <= now
    ensures Shutting(before, db, t, staleAfter, seen, ended, now, did)
  {
    forall k ensures Caused(before, db, staleAfter, seen, ended, now, k) {
      assert Caused(before, db, staleAfter, seen, ended, at, k);
    }
  }

  /** The jobs that were open and are not. */
  ghost function ShutKeys(before: Db, db: Db): set<Key> {
    set k | k in before.jobs && IsOpen(before, k) && !IsOpen(db, k)
  }

  lemma {:induction false} ShutByClose(db: Db, t: int, which: Closing, now: int)
    ensures ShutKeys(db, DoClose(db, t, which, now)) == ClosedKeys(db, t, which, now)
    ensures ShutKeys(db, db) == {}
  {}

  /** Closing twice closes each job once. */
  lemma {:induction false} ShutSum(a: Db, b: Db, c: Db)
    requires forall k :: k in a.jobs && !IsOpen(b, k) ==> !IsOpen(c, k)
    requires forall k :: IsOpen(b, k) ==> IsOpen(a, k)
    ensures |ShutKeys(a, c)| == |ShutKeys(a, b)| + |ShutKeys(b, c)|
  {
    assert ShutKeys(a, c) == ShutKeys(a, b) + ShutKeys(b, c);
    assert ShutKeys(a, b) !! ShutKeys(b, c);
  }

  lemma {:induction false} CloseOnlyShuts(db: Db, t: int, which: Closing, now: int)
    ensures forall k :: IsOpen(DoClose(db, t, which, now), k) ==> IsOpen(db, k)
  {}

  lemma {:induction false} ClosingNone(db: Db, t: int, now: int)
    ensures DoClose(db, t, Ended([]), now) == db
  {}

  /** One closing call. Without a failed call it succeeds exactly if its ids can be sent. */
  method CloseOne(
    s: Store, t: Board, which: Closing, staleAfter: int, seen: seq<string>, ended: seq<string>,
    ghost before: Db, ghost did0: seq<Stmt>)
    returns (res: Result<nat>, ghost did: seq<Stmt>)
    requires Valid(s.db) && Shutting(before, s.db, t, staleAfter, seen, ended, s.clock, did0)
    requires which == Ended(ended) || which == Rule(staleAfter, seen)
    modifies s
    ensures Valid(s.db) && old(s.clock) <= s.clock && (old(s.faulted) ==> s.faulted)
    ensures Shutting(before, s.db, t, staleAfter, seen, ended, s.clock, did)
    ensures res.Ok? ==> s.db == DoClose(old(s.db), t.id, which, s.clock) && Sendable(which)
    ensures res.Ok? ==> res.value == |ShutKeys(old(s.db), s.db)|
    ensures s.db.targets == old(s.db).targets
    ensures !s.faulted && Sendable(which) ==> res.Ok?
  {
    ghost var mid, at := s.db, s.clock;
    ghost var more;
    res, more := s.Close(t.id, which);
    ClosingNone(mid, t.id, s.clock);
    ShutByClose(mid, t.id, which, s.clock);
    CloseStep(before, mid, t, which, staleAfter, seen, ended, at, s.clock, did0, more);
    did := did0 + more;
  }

  lemma {:induction false} CloseStep(
    before: Db, mid: Db, t: Board, which: Closing, staleAfter: int, seen: seq<string>, ended: seq<string>,
    at: int, now: int, did: seq<Stmt>, more: seq<Stmt>)
    requires Shutting(before, mid, t, staleAfter, seen, ended, at, did) && at <= now
    requires which == Ended(ended) || which == Rule(staleAfter, seen)
    requires more == [] || more == [CloseJobs(t.id, which, now)]
    ensures var db := if more == [] then mid else DoClose(mid, t.id, which, now);
      Shutting(before, db, t, staleAfter, seen, ended, now, did + more)
  {
    if more == [] {
      assert did + more == did;
      ShuttingLater(before, mid, t, staleAfter, seen, ended, at, now, did);
    } else {
      ShuttingNext(before, mid, t, staleAfter, seen, ended, at, now, did, CloseJobs(t.id, which, now));
    }
  }

  lemma {:induction false} ClosedBoth(
    before: Db, mid: Db, db: Db, t: Board, staleAfter: int, seen: seq<string>, ended: seq<string>,
    since: int, at: int, later: int, now: int, k: Key)
    requires since <= at <= later <= now && Sendable(Ended(ended)) && Sendable(Rule(staleAfter, seen))
    requires mid == DoClose(before, t.id, Ended(ended), at)
    requires db.jobs == DoClose(mid, t.id, Rule(staleAfter, seen), later).jobs
    ensures ClosedRightly(before, db, t, staleAfter, seen, ended, since, now, k)
  {
    CloseEffect(before, t, Ended(ended), at, k);
    CloseEffect(mid, t, Rule(staleAfter, seen), later, k);
  }

  lemma {:induction false} FlagsKeepJobs(db: Db, s: Stmt)
    requires s.SetActive? || s.MarkSucceeded?
    ensures Exec(db, s).jobs == db.jobs
  {}

  /** The success of the target, and of no other, is recorded, unless a call failed. */
  ghost predicate Marked(before: Db, db: Db, t: Board, since: int, faulted: bool) {
    && db.targets.Keys == before.targets.Keys
    && (forall u :: u in before.targets && u != t.id ==> db.targets[u] == before.targets[u])
    && (!faulted && t.id in before.targets ==>
          db.targets[t.id].succeededAt.Some? && since <= db.targets[t.id].succeededAt.value)
  }

  method Succeed(
    s: Store, t: Board, staleAfter: int, seen: seq<string>, ended: seq<string>, ghost before: Db, ghost did0: seq<Stmt>)
    returns (ghost did: seq<Stmt>)
    requires Valid(s.db) && Shutting(before, s.db, t, staleAfter, seen, ended, s.clock, did0)
    modifies s
    ensures Valid(s.db) && old(s.clock) <= s.clock && (old(s.faulted) ==> s.faulted)
    ensures Shutting(before, s.db, t, staleAfter, seen, ended, s.clock, did) && s.db.jobs == old(s.db).jobs
    ensures Marked(old(s.db), s.db, t, old(s.clock), s.faulted)
  {
    ghost var mid, at, mark := s.db, s.clock, MarkSucceeded(t.id, s.clock);
    ghost var more;
    var ok;
    ok, more := s.Flag(MarkSucceeded(t.id, s.clock));
    did := did0;
    FlagsKeepJobs(mid, mark);
    ShuttingLater(before, mid, t, staleAfter, seen, ended, at, s.clock, did);
    if more != [] {
      ShuttingNext(before, mid, t, staleAfter, seen, ended, at, s.clock, did, mark);
      did := did + [mark];
    }
  }

  /** Closes what is reported as ended, then what the rule says, and counts what was closed. */
  method CloseBoth(s: Store, t: Board, seen: seq<string>, ended: seq<string>, staleAfter: int)
    returns (res: Result<nat>, ghost did: seq<Stmt>)
    requires Valid(s.db)
    modifies s
    ensures Valid(s.db) && old(s.clock) <= s.clock && (old(s.faulted) ==> s.faulted)
    ensures Shutting(old(s.db), s.db, t, staleAfter, seen, ended, s.clock, did) && s.db.targets == old(s.db).targets
    ensures res.Ok? ==> ShutBoth(old(s.db), s.db, t, staleAfter, seen, ended, old(s.clock), s.clock, res.value)
    ensures !s.faulted && Sendable(Ended(ended)) && Sendable(Rule(staleAfter, seen)) ==> res.Ok?
  {
    ghost var before, since := s.db, s.clock;
    res, did := CloseOne(s, t, Ended(ended), staleAfter, seen, ended, before, []);
    if res.Err? { return; }
    var first := res.value;
    ghost var mid, at := s.db, s.clock;
    res, did := CloseOne(s, t, Rule(staleAfter, seen), staleAfter, seen, ended, before, did);
    if res.Err? { return; }
    BothShut(before, mid, s.db, t, staleAfter, seen, ended, since, at, s.clock);
    res := Ok(first + res.value);
  }

  /** Both closings went through and closed that many jobs. */
  ghost predicate ShutBoth(
    before: Db, db: Db, t: Board, staleAfter: int, seen: seq<string>, ended: seq<string>, since: int, now: int, n: nat)
  {
    && (forall k :: ClosedRightly(before, db, t, staleAfter, seen, ended, since, now, k))
    && Sendable(Ended(ended)) && Sendable(Rule(staleAfter, seen)) && n == |ShutKeys(before, db)|
  }

  lemma {:induction false} BothShut(
    before: Db, mid: Db, db: Db, t: Board, staleAfter: int, seen: seq<string>, ended: seq<string>,
    since: int, at: int, now: int)
    requires since <= at <= now && Sendable(Ended(ended)) && Sendable(Rule(staleAfter, seen))
    requires mid == DoClose(before, t.id, Ended(ended), at) && db == DoClose(mid, t.id, Rule(staleAfter, seen), now)
    ensures ShutBoth(before, db, t, staleAfter, seen, ended, since, now, |ShutKeys(before, mid)| + |ShutKeys(mid, db)|)
  {
    forall k ensures ClosedRightly(before, db, t, staleAfter, seen, ended, since, now, k) {
      ClosedBoth(before, mid, db, t, staleAfter, seen, ended, since, at, now, now, k);
    }
    CloseOnlyShuts(before, t.id, Ended(ended), at);
    CloseOnlyShuts(mid, t.id, Rule(staleAfter, seen), now);
    ShutSum(before, mid, db);
  }

  /** What was closed stays so, and as it was counted, while the success is recorded. */
  lemma {:induction false} ShutLater(
    before: Db, mid: Db, db: Db, t: Board, staleAfter: int, seen: seq<string>, ended: seq<string>,
    since: int, at: int, now: int, n: nat)
    requires ShutBoth(before, mid, t, staleAfter, seen, ended, since, at, n) && at <= now && db.jobs == mid.jobs
    ensures ShutBoth(before, db, t, staleAfter, seen, ended, since, now, n)
  {
    forall k ensures ClosedRightly(before, db, t, staleAfter, seen, ended, since, now, k) {
      assert ClosedRightly(before, mid, t, staleAfter, seen, ended, since, at, k);
    }
    assert forall k :: IsOpen(db, k) <==> IsOpen(mid, k);
    assert ShutKeys(before, db) == ShutKeys(before, mid);
  }

  /** Closes the jobs, and then records the success; a failure to record it is only logged. */
  method CloseBoard(s: Store, t: Board, r0: RunResult, seen: seq<string>, ended: seq<string>, staleAfter: int)
    returns (r: RunResult, ghost did: seq<Stmt>)
    requires Valid(s.db) && r0.err.None?
    modifies s
    ensures Valid(s.db) && old(s.clock) <= s.clock && (old(s.faulted) ==> s.faulted)
    ensures Shutting(old(s.db), s.db, t, staleAfter, seen, ended, s.clock, did)
    ensures r.(removed := r0.removed, err := None) == r0
    ensures r.err.None? ==> Marked(old(s.db), s.db, t, old(s.clock), s.faulted) && r.removed >= r0.removed
    ensures r.err.None? ==>
      ShutBoth(old(s.db), s.db, t, staleAfter, seen, ended, old(s.clock), s.clock, r.removed - r0.removed)
    ensures r.err.Some? ==> r.removed == r0.removed && s.db.targets == old(s.db).targets
    ensures !s.faulted && Sendable(Ended(ended)) && Sendable(Rule(staleAfter, seen)) ==> r.err.None?
  {
    ghost var before, since := s.db, s.clock;
    var res;
    res, did := CloseBoth(s, t, seen, ended, staleAfter);
    if res.Err? { return r0.(err := Some(res.failure)), did; }
    r := r0.(removed := r0.removed + res.value);
    ghost var mid, at := s.db, s.clock;
    did := Succeed(s, t, staleAfter, seen, ended, before, did);
    ShutLater(before, mid, s.db, t, staleAfter, seen, ended, since, at, s.clock, res.value);
  }

  // ----- One board ---------------------------------------------------------------------------------

  /** Since when a row counts as seen in a run that began at `since`. */
  ghost function SeenAt(before: Db, t: Board, since: int, r: RunResult, k: Key): int
    requires k in before.jobs
  {
    if IsStored(t, r.stored, k) then since else before.jobs[k].lastSeen
  }

  /** What ingesting a listing has done to one row, whether it succeeded or not: the rows of
      other targets are untouched, unless they were moved in, a row the listing does not name can
      only be closed, and none is closed without a cause. */
  ghost predicate RowKept(
    before: Db, db: Db, t: Board, jobs: seq<Job>, staleAfter: int, movable: bool,
    since: int, now: int, r: RunResult, k: Key)
  {
    && (k in before.jobs ==> k in db.jobs)
    && (k in db.jobs && db.jobs[k].target != t.id ==> k in before.jobs && db.jobs[k] == before.jobs[k])
    && (!movable && k in before.jobs && before.jobs[k].target != t.id ==> db.jobs[k] == before.jobs[k])
    && (k !in ListedKeys(t, jobs) ==> OnlyCloses(before, db, t, k))
    && (IsOpen(before, k) && !IsOpen(db, k) ==>
          Cause(staleAfter, SeenIds(jobs), EndedIds(jobs), SeenAt(before, t, since, r, k), now, k.1))
  }

  /** What it has done to one row, and more if it succeeded. After a full board, the target's
      open jobs are exactly those it had or stored whose id, as kept in the table, was listed as
      not ended and not listed as ended. After a sample, none is left that was not seen within
      the window, and what was stored is open. */
  ghost predicate LeftAt(
    before: Db, db: Db, t: Board, jobs: seq<Job>, staleAfter: int, movable: bool,
    since: int, now: int, r: RunResult, k: Key)
  {
    && RowKept(before, db, t, jobs, staleAfter, movable, since, now, r, k)
    && (r.err.None? && staleAfter <= 0 && !movable ==>
          (OwnedOpen(db, t, k) <==>
             (OwnedOpen(before, t, k) || IsStored(t, r.stored, k)) && k.1 in SeenIds(jobs) && k.1 !in EndedIds(jobs)))
    && (r.err.None? && staleAfter > 0 ==>
          && (OwnedOpen(db, t, k) ==> k.1 !in EndedIds(jobs) && db.jobs[k].lastSeen >= since - staleAfter)
          && (IsStored(t, r.stored, k) && k.1 !in EndedIds(jobs) && since >= now - staleAfter ==> OwnedOpen(db, t, k)))
  }

  /** All it has done to one row: what the row says is what the jobs stored say, and `LeftAt` tells
      whether it is open. */
  ghost predicate PersistedAt(
    before: Db, db: Db, t: Board, jobs: seq<Job>, staleAfter: int, movable: bool, appNow: int,
    since: int, now: int, r: RunResult, k: Key)
  {
    && LeftAt(before, db, t, jobs, staleAfter, movable, since, now, r, k)
    && ToldAt(before, db, t, jobs, |jobs|, appNow, r, k)
  }

  lemma {:induction false} LeftFrom(
    before: Db, mid: Db, db: Db, t: Board, jobs: seq<Job>, staleAfter: int, movable: bool,
    since: int, at: int, now: int, r: RunResult, k: Key)
    requires StoringAt(before, mid, t, movable, since, r.stored, k) && since <= at <= now
    requires OnlyCloses(mid, db, t, k) && (k !in ListedKeys(t, jobs) ==> SameRow(before, mid, k))
    requires Caused(mid, db, staleAfter, SeenIds(jobs), EndedIds(jobs), now, k)
    requires r.err.None? ==> ClosedRightly(mid, db, t, staleAfter, SeenIds(jobs), EndedIds(jobs), at, now, k)
    ensures LeftAt(before, db, t, jobs, staleAfter, movable, since, now, r, k)
  {}

  /** Closing leaves alone what the rows say. */
  lemma {:induction false} StillTold(
    before: Db, mid: Db, db: Db, t: Board, jobs: seq<Job>, n: nat, appNow: int, r0: RunResult, r: RunResult, k: Key)
    requires Told(before, mid, t, jobs, n, appNow, r0) && forall h :: OnlyCloses(mid, db, t, h)
    requires r.(removed := r0.removed, err := r0.err) == r0
    ensures ToldAt(before, db, t, jobs, n, appNow, r, k)
  {
    forall h ensures h in db.jobs <==> h in mid.jobs { assert OnlyCloses(mid, db, t, h); }
    assert db.jobs.Keys == mid.jobs.Keys;
    assert ToldAt(before, mid, t, jobs, n, appNow, r0, k) && OnlyCloses(mid, db, t, k);
    assert WordsAt(db, k) == WordsAt(mid, k);
  }

  lemma {:induction false} LeftNot(
    before: Db, db: Db, t: Board, jobs: seq<Job>, staleAfter: int, movable: bool,
    since: int, now: int, r: RunResult, k: Key)
    requires StoringAt(before, db, t, movable, since, r.stored, k) && r.err.Some?
    requires k !in ListedKeys(t, jobs) ==> SameRow(before, db, k)
    ensures LeftAt(before, db, t, jobs, staleAfter, movable, since, now, r, k)
  {}

  lemma {:induction false} SeenIsListed(jobs: seq<Job>, n: nat, d: string) returns (j: Job)
    requires n <= |jobs| && d in SeenUpto(jobs, n)
    ensures j in jobs && !j.closed && j.id == d
  {
    if !jobs[n - 1].closed && jobs[n - 1].id == d { j := jobs[n - 1]; } else { j := SeenIsListed(jobs, n - 1, d); }
  }

  /** What a board's run takes: no id of white space alone, and no NUL among the ids it sends as
      a list. */
  predicate Ingestible(jobs: seq<Job>, staleAfter: int) {
    NoBlankIds(jobs) && AllNulFree(EndedIds(jobs)) && (staleAfter <= 0 ==> AllNulFree(SeenIds(jobs)))
  }

  /** The jobs that were open or were stored, and are not open. */
  ghost function ShutInRun(before: Db, db: Db, t: Board, stored: set<string>): set<Key> {
    set k | k in db.jobs && !IsOpen(db, k) && (IsOpen(before, k) || IsStored(t, stored, k))
  }

  /** The jobs closed are counted and the success is recorded, if the run went through. */
  ghost predicate Finished(before: Db, db: Db, t: Board, since: int, faulted: bool, r: RunResult) {
    if r.err.Some? then r.removed == 0 && db.targets == before.targets
    else r.removed == |ShutInRun(before, db, t, r.stored)| && Marked(before, db, t, since, faulted)
  }

  lemma {:induction false} ShutIs(
    before: Db, mid: Db, db: Db, t: Board, movable: bool, since: int, stored: set<string>)
    requires Storing(before, mid, t, movable, since, stored) && forall k :: OnlyCloses(mid, db, t, k)
    ensures ShutKeys(mid, db) == ShutInRun(before, db, t, stored)
  {
    forall k ensures IsOpen(mid, k) <==> IsOpen(before, k) || IsStored(t, stored, k) {
      assert StoringAt(before, mid, t, movable, since, stored, k);
    }
    forall k ensures k in db.jobs <==> k in mid.jobs { assert OnlyCloses(mid, db, t, k); }
  }

  /** Stores what a source returned for a target and closes what it no longer lists. `stores`
      and `closes` are the statements run; `aborted` says that the listing was not gone
      through, and then nothing was closed. */
  method Persist(s: Store, t: Board, jobs: seq<Job>, staleAfter: int, movable: bool, appNow: int)
    returns (r: RunResult, ghost stores: seq<Stmt>, ghost closes: seq<Stmt>, ghost aborted: bool)
    requires Valid(s.db) && RefersTo(s.db, t) && Trim(t.provider) == t.provider != ""
    modifies s
    ensures Valid(s.db) && old(s.clock) <= s.clock && (old(s.faulted) ==> s.faulted)
    ensures s.db == Replay(old(s.db), stores + closes) && AllStore(t, movable, ListedKeys(t, jobs), stores)
    ensures AllClose(t, staleAfter, SeenIds(jobs), EndedIds(jobs), closes) && (aborted ==> closes == [] && r.err.Some?)
    ensures !aborted ==> Total(r) == |SeenIds(jobs)| && forall d :: d in r.stored ==> d in SeenIds(jobs)
    ensures !s.faulted ==> (r.err.None? <==> Ingestible(jobs, staleAfter))
    ensures !s.faulted && r.err.None? ==> AllStored(old(s.db), t, jobs, |jobs|, movable, r.places)
    ensures SameTargetsBut(old(s.db), s.db) && Finished(old(s.db), s.db, t, old(s.clock), s.faulted, r)
    ensures forall k :: PersistedAt(old(s.db), s.db, t, jobs, staleAfter, movable, appNow, old(s.clock), s.clock, r, k)
  {
    ghost var before, since := s.db, s.clock;
    var seen, ended;
    r, seen, ended, stores := StoreListing(s, t, jobs, movable, appNow);
    ghost var mid, at := s.db, s.clock;
    closes, aborted := [], r.err.Some?;
    if r.err.Some? {
      AbortedRun(before, mid, t, jobs, staleAfter, movable, appNow, since, at, s.faulted, r, stores);
      return;
    }
    r, closes := CloseListing(s, t, jobs, staleAfter, movable, appNow, r, seen, ended, before, since, stores);
  }

  /** Closes what the listing no longer has, once all of it is stored. */
  method CloseListing(
    s: Store, t: Board, jobs: seq<Job>, staleAfter: int, movable: bool, appNow: int, r0: RunResult,
    seen: seq<string>, ended: seq<string>, ghost before: Db, ghost since: int, ghost stores: seq<Stmt>)
    returns (r: RunResult, ghost closes: seq<Stmt>)
    requires Valid(s.db) && since <= s.clock && r0.err.None? && r0.removed == 0
    requires seen == SeenIds(jobs) && ended == EndedIds(jobs)
    requires Progress(before, s.db, t, movable, since, r0.stored, ListedKeys(t, jobs), stores)
    requires Told(before, s.db, t, jobs, |jobs|, appNow, r0)
    modifies s
    ensures Valid(s.db) && old(s.clock) <= s.clock && (old(s.faulted) ==> s.faulted)
    ensures s.db == Replay(before, stores + closes) && AllClose(t, staleAfter, seen, ended, closes)
    ensures r.(removed := r0.removed, err := None) == r0
    ensures !s.faulted && Sendable(Ended(ended)) && Sendable(Rule(staleAfter, seen)) ==> r.err.None?
    ensures r.err.None? ==> Sendable(Ended(ended)) && Sendable(Rule(staleAfter, seen))
    ensures SameTargetsBut(before, s.db) && Finished(before, s.db, t, since, s.faulted, r)
    ensures forall k :: PersistedAt(before, s.db, t, jobs, staleAfter, movable, appNow, since, s.clock, r, k)
  {
    ghost var mid, at := s.db, s.clock;
    r, closes := CloseBoard(s, t, r0, seen, ended, staleAfter);
    ClosedRun(before, mid, s.db, t, jobs, staleAfter, movable, appNow, since, at, s.clock, s.faulted, r0, r,
              stores, closes);
  }

  /** What a run has done whose listing was not gone through, and one whose was. */
  lemma {:induction false} AbortedRun(
    before: Db, db: Db, t: Board, jobs: seq<Job>, staleAfter: int, movable: bool, appNow: int, since: int, now: int,
    faulted: bool, r: RunResult, stores: seq<Stmt>)
    requires Progress(before, db, t, movable, since, r.stored, ListedKeys(t, jobs), stores) && r.err.Some?
    requires Told(before, db, t, jobs, |jobs|, appNow, r) && r.removed == 0
    ensures db == Replay(before, stores + []) && SameTargetsBut(before, db)
    ensures Finished(before, db, t, since, faulted, r)
    ensures forall k :: PersistedAt(before, db, t, jobs, staleAfter, movable, appNow, since, now, r, k)
  {
    assert stores + [] == stores;
    forall k ensures PersistedAt(before, db, t, jobs, staleAfter, movable, appNow, since, now, r, k) {
      assert StoringAt(before, db, t, movable, since, r.stored, k) && ToldAt(before, db, t, jobs, |jobs|, appNow, r, k);
      LeftNot(before, db, t, jobs, staleAfter, movable, since, now, r, k);
    }
  }

  lemma {:induction false} ClosedRun(
    before: Db, mid: Db, db: Db, t: Board, jobs: seq<Job>, staleAfter: int, movable: bool, appNow: int,
    since: int, at: int, now: int, faulted: bool, r0: RunResult, r: RunResult, stores: seq<Stmt>, closes: seq<Stmt>)
    requires Progress(before, mid, t, movable, since, r.stored, ListedKeys(t, jobs), stores) && since <= at <= now
    requires Told(before, mid, t, jobs, |jobs|, appNow, r0) && r.(removed := r0.removed, err := r0.err) == r0
    requires Shutting(mid, db, t, staleAfter, SeenIds(jobs), EndedIds(jobs), now, closes)
    requires r.err.None? ==>
      && Marked(mid, db, t, at, faulted)
      && ShutBoth(mid, db, t, staleAfter, SeenIds(jobs), EndedIds(jobs), at, now, r.removed)
    requires r.err.Some? ==> r.removed == 0 && db.targets == mid.targets
    ensures db == Replay(before, stores + closes) && SameTargetsBut(before, db)
    ensures Finished(before, db, t, since, faulted, r)
    ensures forall k :: PersistedAt(before, db, t, jobs, staleAfter, movable, appNow, since, now, r, k)
  {
    Interleaving.RunConcat(Exec, before, stores, closes);
    ShutIs(before, mid, db, t, movable, since, r.stored);
    forall k ensures PersistedAt(before, db, t, jobs, staleAfter, movable, appNow, since, now, r, k) {
      assert StoringAt(before, mid, t, movable, since, r.stored, k) && OnlyCloses(mid, db, t, k);
      assert Caused(mid, db, staleAfter, SeenIds(jobs), EndedIds(jobs), now, k);
      StillTold(before, mid, db, t, jobs, |jobs|, appNow, r0, r, k);
      LeftFrom(before, mid, db, t, jobs, staleAfter, movable, since, at, now, r, k);
    }
  }

  /** One listed id with a NUL: its job is refused and skipped, and the list that holds it is
      refused too, so that a full board's run fails every time, with no store call failing. */
  lemma {:induction false} NulIdFailsFullBoard(db: Db, t: Board, jobs: seq<Job>, j: Job, now: int)
    requires j in jobs && !j.closed && !NulFree(j.id)
    ensures UpsertOutcome(db, ParamsOf(RecordOf(t, j))) == Refused(BAD_TEXT)
    ensures IsRejectedRecord(Answered(Refused(BAD_TEXT)))
    ensures CloseOutcome(db, t.id, Rule(0, SeenIds(jobs)), now) == Refused(BAD_TEXT)
    ensures !Ingestible(jobs, 0)
  {
    TrimDropsOnlySpace(j.id, NUL);
    ListedIsSeen(jobs, |jobs|, j);
    var i :| 0 <= i < |SeenIds(jobs)| && SeenIds(jobs)[i] == j.id;
    assert !NulFree(SeenIds(jobs)[i]);
  }

  lemma {:induction false} ListedIsSeen(jobs: seq<Job>, n: nat, j: Job)
    requires n <= |jobs| && j in jobs[..n] && !j.closed
    ensures j.id in SeenUpto(jobs, n)
  {
    if jobs[n - 1] != j {
      assert jobs[..n] == jobs[..n - 1] + [jobs[n - 1]];
      ListedIsSeen(jobs, n - 1, j);
    }
  }

  /** A stored job is open after a full board exactly if its trimmed id is among the ids as
      listed, and not among the ended ones. */
  lemma {:induction false} StoredStaysOpenIff(
    before: Db, db: Db, t: Board, jobs: seq<Job>, appNow: int, since: int, now: int, r: RunResult, id: string)
    requires forall k :: PersistedAt(before, db, t, jobs, 0, false, appNow, since, now, r, k)
    requires r.err.None? && id in r.stored
    ensures OwnedOpen(db, t, KeyFor(t, id)) <==> Trim(id) in SeenIds(jobs) && Trim(id) !in EndedIds(jobs)
  {
    assert PersistedAt(before, db, t, jobs, 0, false, appNow, since, now, r, KeyFor(t, id));
    assert IsStored(t, r.stored, KeyFor(t, id));
  }

  /** With trimmed ids a listed and stored job stays open unless the source also reports it as
      ended; an id listed only with white space around it is stored and closed at once. */
  lemma {:induction false} TrimmedIdsStayOpen(jobs: seq<Job>, id: string)
    requires id in SeenIds(jobs)
    ensures Trimmed(id) ==> Trim(id) in SeenIds(jobs)
    ensures SeenIds(jobs) == [id] && !Trimmed(id) ==> Trim(id) !in SeenIds(jobs)
  {
    TrimTrims(id);
    if Trimmed(id) { TrimmedStays(id); }
  }
}

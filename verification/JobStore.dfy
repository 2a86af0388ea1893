/** The store calls ingestion makes. Each runs at most one statement; any of them may fail,
    and then has not run it. */
module JobStore {
  import opened Options
  import opened Text
  import opened ContentHash
  import opened Tables
  import opened TableLaws

  /** One job to store, as ingestion hands it over. */
  datatype Record = Record(
    company: int, target: int, source: string, id: string, content: Content, published: Option<int>,
    expires: Option<int>)

  datatype Failure = Unavailable | KeyRequired | NotPositive | Answered(outcome: Outcome)

  datatype Result<T> = Ok(value: T) | Err(failure: Failure)

  /** Refused for its data alone: such a job is skipped and the rest of the board goes on. A
      foreign key violation concerns the whole board. */
  predicate IsRejectedRecord(f: Failure) {
    f.Answered? && match f.outcome
      case Mismatch => true
      case Refused(code) => code != "23503" && ("22" <= code || "23" <= code)
      case _ => false
  }

  function ParamsOf(r: Record): Params {
    Params(r.company, r.target, (Trim(r.source), Trim(r.id)), r.content, Encoding(r.content),
           Trim(r.content.remoteType), Trim(r.content.employmentType), r.published, r.expires)
  }

  /** What the caller of an upsert is told. */
  function Reply(o: Outcome): Result<(bool, bool)> {
    if o.Upserted? then Ok((o.inserted, o.changed)) else Err(Answered(o))
  }

  function CloseReply(o: Outcome): Result<nat> {
    if o.Affected? then Ok(o.rows) else Err(Answered(o))
  }

  lemma {:induction false} RefusedClosesNothing(db: Db, t: int, which: Closing, now: int)
    requires !Sendable(which)
    ensures DoClose(db, t, which, now) == db
  {
    assert DoClose(db, t, which, now).jobs == db.jobs;
  }

  class Store {
    var db: Db
    var clock: int
    ghost var faulted: bool

    constructor (db: Db, clock: int)
      ensures this.db == db && this.clock == clock && !faulted
    {
      this.db, this.clock, faulted := db, clock, false;
    }

    /** Time passes, and the call goes through or not. */
    method Reach() returns (up: bool)
      modifies this`clock, this`faulted
      ensures old(clock) <= clock && (old(faulted) ==> faulted) && (!up ==> faulted)
    {
      up := *;
      var d: int := *;
      if d > 0 { clock := clock + d; }
      if !up { faulted := true; }
    }

    /** Runs one statement. */
    method Do(s: Stmt) returns (o: Outcome)
      requires Valid(db) && Proper(s)
      modifies this`db
      ensures db == Exec(old(db), s) && o == OutcomeOf(old(db), s) && Valid(db)
    {
      ExecKeepsValid(db, s);
      o := OutcomeOf(db, s);
      db := Exec(db, s);
    }

    /** A statement whose outcome the caller looks at itself. */
    method Try(s: Stmt) returns (o: Option<Outcome>)
      requires Valid(db) && Proper(s)
      modifies this
      ensures Valid(db) && old(clock) <= clock && (old(faulted) ==> faulted)
      ensures o.None? ==> db == old(db) && faulted
      ensures o.Some? ==> db == Exec(old(db), s) && o.value == OutcomeOf(old(db), s)
    {
      var up := Reach();
      if !up { return None; }
      var outcome := Do(s);
      o := Some(outcome);
    }

    method UpsertFromATS(r: Record) returns (res: Result<(bool, bool)>, ghost did: seq<Stmt>)
      requires Valid(db)
      modifies this
      ensures Valid(db) && old(clock) <= clock && (old(faulted) ==> faulted)
      ensures did == [] || did == [UpsertJob(ParamsOf(r), clock)]
      ensures db == if did == [] then old(db) else DoUpsert(old(db), ParamsOf(r), clock)
      ensures did == [] ==> res == Err(KeyRequired) || (res == Err(Unavailable) && faulted)
      ensures did != [] ==> res == Reply(UpsertOutcome(old(db), ParamsOf(r)))
      ensures res == Err(KeyRequired) <==> ParamsOf(r).key.0 == "" || ParamsOf(r).key.1 == ""
    {
      did := [];
      var p := ParamsOf(r);
      if p.key.0 == "" || p.key.1 == "" { return Err(KeyRequired), did; }
      var up := Reach();
      if !up { return Err(Unavailable), did; }
      TrimTrims(r.id);
      did := [UpsertJob(p, clock)];
      var o := Do(UpsertJob(p, clock));
      res := Reply(o);
    }

    /** The three ways of closing jobs. Only a positive window may close by age, closing no ids
        at all runs nothing, and a list with a NUL in it is refused. */
    method Close(t: int, which: Closing) returns (res: Result<nat>, ghost did: seq<Stmt>)
      requires Valid(db)
      modifies this
      ensures Valid(db) && old(clock) <= clock && (old(faulted) ==> faulted)
      ensures did == [] || did == [CloseJobs(t, which, clock)]
      ensures db == if did == [] then old(db) else DoClose(old(db), t, which, clock)
      ensures did == [] && res.Ok? ==> which == Ended([]) && res.value == 0
      ensures did == [] && res.Err? ==> faulted || (which.Stale? && which.olderThan <= 0)
      ensures did != [] ==> res == CloseReply(CloseOutcome(old(db), t, which, clock))
      ensures res.Err? ==> db == old(db)
    {
      did := [];
      if which.Stale? && which.olderThan <= 0 { return Err(NotPositive), did; }
      if which == Ended([]) { return Ok(0), did; }
      var up := Reach();
      if !up { return Err(Unavailable), did; }
      did := [CloseJobs(t, which, clock)];
      if !Sendable(which) { RefusedClosesNothing(db, t, which, clock); }
      var o := Do(CloseJobs(t, which, clock));
      res := CloseReply(o);
    }

    method MoveJob(source: string, id: string, t: int, company: int) returns (res: Result<()>, ghost did: seq<Stmt>)
      requires Valid(db)
      modifies this
      ensures Valid(db) && old(clock) <= clock && (old(faulted) ==> faulted)
      ensures did == [] || did == [Stmt.MoveJob((Trim(source), Trim(id)), t, company)]
      ensures db == if did == [] then old(db) else DoMove(old(db), (Trim(source), Trim(id)), t, company)
      ensures res.Ok? <==> did != [] && MoveOutcome(old(db), (Trim(source), Trim(id)), t, company).Affected?
      ensures res.Err? ==> db == old(db) && (res.failure.Unavailable? ==> faulted)
      ensures did == [] ==> faulted
    {
      did := [];
      var up := Reach();
      if !up { return Err(Unavailable), did; }
      var s := Stmt.MoveJob((Trim(source), Trim(id)), t, company);
      did := [s];
      var o := Do(s);
      res := if o.Affected? then Ok(()) else Err(Answered(o));
    }

    /** Statements that set a flag of a target. */
    method Flag(s: Stmt) returns (ok: bool, ghost did: seq<Stmt>)
      requires Valid(db) && (s.SetActive? || s.MarkSucceeded?)
      modifies this
      ensures Valid(db) && old(clock) <= clock && (old(faulted) ==> faulted)
      ensures did == [] || did == [s]
      ensures db == if did == [] then old(db) else Exec(old(db), s)
      ensures ok <==> did != [] && OutcomeOf(old(db), s).Affected?
      ensures did == [] ==> faulted
    {
      did := [];
      var up := Reach();
      if !up { return false, did; }
      did := [s];
      var o := Do(s);
      ok := o.Affected?;
    }
  }
}

/** Finding or creating the company and the target that the jobs of an employer belong to. */
module Registrar {
  import opened Options
  import opened Text
  import opened ContentHash
  import opened Tables
  import opened TableLaws
  import opened JobStore
  import opened Ingestion
  import opened BoardRuns

  const MAX_NAME := 200

  /** No job changes; targets keep their boards, and none is switched off. */
  ghost predicate OnlyRegisters(before: Db, db: Db) {
    && db.jobs == before.jobs
    && forall u :: u in before.targets ==> KeptTarget(before, db, u)
  }

  ghost predicate KeptTarget(before: Db, db: Db, u: int)
    requires u in before.targets
  {
    && u in db.targets && SameBoard(before.targets[u], db.targets[u])
    && (before.targets[u].active ==> db.targets[u].active)
  }

  lemma {:induction false} AddTargetKeeps(
    db: Db, c: int, provider: string, board: string, market: Option<Market>, u: int)
    requires u in db.targets && u < db.nextTarget
    ensures KeptTarget(db, DoAddTarget(db, c, provider, board, market), u)
    ensures DoAddTarget(db, c, provider, board, market).jobs == db.jobs
  {}

  lemma {:induction false} KeepsTargets(db: Db, s: Stmt, u: int)
    requires ValidTargets(db) && u in db.targets && (s.AddCompany? || s.SetPriority? || s.AddTarget?)
    ensures KeptTarget(db, Exec(db, s), u)
  {
    if s.AddTarget? { AddTargetKeeps(db, s.company, s.provider, s.board, s.market, u); }
  }

  lemma {:induction false} RegistersStep(before: Db, mid: Db, s: Stmt)
    requires OnlyRegisters(before, mid) && ValidTargets(mid) && (s.AddCompany? || s.SetPriority? || s.AddTarget?)
    ensures OnlyRegisters(before, Exec(mid, s))
  {
    var db := Exec(mid, s);
    assert db.jobs == mid.jobs;
    forall u | u in before.targets ensures KeptTarget(before, db, u) {
      assert KeptTarget(before, mid, u);
      KeepsTargets(mid, s, u);
    }
  }

  lemma {:induction false} AddedTargetIsFound(
    db: Db, company: int, provider: string, board: string, market: Option<Market>)
    requires Valid(db) && AddTargetOutcome(db, company, provider, board).Found?
    ensures var id := AddTargetOutcome(db, company, provider, board).id;
      var after := DoAddTarget(db, company, provider, board, market);
      && id in after.targets && after.targets[id].company == company && after.targets[id].provider == provider
      && AddedBoard(db, after, BoardOf(after, id), company, BoardKey(provider, board), market)
  {
    var k := BoardKey(provider, board);
    if k in db.boards {
      assert ValidBoard(db, k, db.boards[k]);
    }
  }

  /** The employer's name can be one. */
  predicate Usable(provider: string, employer: string) {
    Squeeze(employer) != "" && Trim(provider) != "" && |Squeeze(employer)| <= 200
  }

  /** The name is usable and can be sent, and its board is not registered to another company. */
  predicate Registrable(db: Db, provider: string, employer: string) {
    var name := Squeeze(employer);
    var k := BoardKey(Trim(provider), Lower(name));
    && Usable(provider, employer) && NulFree(name) && NulFree(Trim(provider))
    && (k in db.boards ==> Lower(name) in db.names && IsOf(db, db.boards[k], db.names[Lower(name)]))
  }

  predicate IsOf(db: Db, t: int, company: int) { t in db.targets && db.targets[t].company == company }

  /** The target is the employer's: its board is named after it, and so is its company. */
  ghost predicate IsTargetOf(db: Db, t: Board, provider: string, name: string, priority: bool) {
    && BoardKey(provider, Lower(name)) in db.boards && db.boards[BoardKey(provider, Lower(name))] == t.id
    && t.company in db.companies && Lower(db.companies[t.company].name) == Lower(name)
    && (priority ==> db.companies[t.company].priority)
  }

  /** The market a registered board has: the one asked for, else the one it had, else worldwide. */
  function MarketOf(db: Db, k: Key, market: Option<Market>): Market {
    if market.Some? then market.value
    else if k in db.boards && db.boards[k] in db.targets then db.targets[db.boards[k]].market
    else Worldwide
  }

  /** The existing target of an employer; nothing is created. */
  method FindTarget(s: Store, provider: string, employer: string) returns (ok: bool, t: Option<Board>)
    requires Valid(s.db)
    modifies s`clock, s`faulted
    ensures old(s.clock) <= s.clock && (old(s.faulted) ==> s.faulted)
    ensures !s.faulted ==>
      (ok <==> !Usable(provider, employer) || (NulFree(Squeeze(employer)) && NulFree(provider)))
    ensures ok && t.Some? ==> RefersTo(s.db, t.value) && t.value.provider == provider
    ensures ok ==>
      (t.Some? <==> Usable(provider, employer) && BoardKey(provider, Lower(Squeeze(employer))) in s.db.boards)
    ensures ok && t.Some? ==> t.value.id == s.db.boards[BoardKey(provider, Lower(Squeeze(employer)))]
  {
    var name := Squeeze(employer);
    if name == "" || Trim(provider) == "" || |name| > MAX_NAME { return true, None; }
    var up := s.Reach();
    if !up || !NulFree(name) || !NulFree(provider) { return false, None; }
    var k := BoardKey(provider, Lower(name));
    if k !in s.db.boards { return true, None; }
    assert ValidBoard(s.db, k, s.db.boards[k]);
    return true, Some(BoardOf(s.db, s.db.boards[k]));
  }

  /** The target of an employer, created with its company if need be; registering it again
      activates it. Without a failed call there is one exactly if the employer is registrable. */
  method EnsureTarget(s: Store, provider: string, employer: string, priority: bool, market: Option<Market>)
    returns (t: Option<Board>)
    requires Valid(s.db)
    modifies s
    ensures Valid(s.db) && old(s.clock) <= s.clock && (old(s.faulted) ==> s.faulted)
    ensures OnlyRegisters(old(s.db), s.db)
    ensures t.Some? ==> RefersTo(s.db, t.value) && t.value.provider == Trim(provider)
    ensures t.Some? ==> s.db.targets[t.value.id].active
    ensures t.Some? ==> IsTargetOf(s.db, t.value, Trim(provider), Squeeze(employer), priority)
    ensures var k := BoardKey(Trim(provider), Lower(Squeeze(employer)));
      t.Some? ==> s.db.targets[t.value.id].market == MarketOf(old(s.db), k, market)
    ensures t.Some? ==> Registrable(old(s.db), provider, employer)
    ensures !s.faulted && Registrable(old(s.db), provider, employer) ==> t.Some?
  {
    var name := Squeeze(employer);
    if name == "" || |name| > MAX_NAME || Trim(provider) == "" { return None; }
    ghost var before := s.db;
    SqueezeTrimmed(employer);
    LowerTrimmed(name);
    LowerKeeps(name, NUL);
    var c := AddEmployer(s, name, priority);
    if c.None? { return None; }
    BoardsCompany(before, BoardKey(Trim(provider), Lower(name)), name);
    t := AddBoard(s, c.value, provider, Lower(name), market, before);
  }

  /** The company's id: the one its name has, or a new one. */
  function CompanyId(db: Db, name: string): int {
    if Lower(name) in db.names then db.names[Lower(name)] else db.nextCompany
  }

  /** No board belongs to a company not yet registered. */
  lemma {:induction false} BoardsCompany(db: Db, k: Key, name: string)
    requires Valid(db)
    ensures k in db.boards && IsOf(db, db.boards[k], CompanyId(db, name)) ==> Lower(name) in db.names
    ensures k in db.boards ==> db.boards[k] in db.targets
  {
    if k in db.boards {
      assert ValidBoard(db, k, db.boards[k]);
      assert ValidTarget(db, db.boards[k], db.targets[db.boards[k]]);
    }
  }

  method AddEmployer(s: Store, name: string, priority: bool) returns (c: Option<int>)
    requires Valid(s.db) && name != "" && Trimmed(name)
    modifies s
    ensures Valid(s.db) && old(s.clock) <= s.clock && (old(s.faulted) ==> s.faulted)
    ensures OnlyRegisters(old(s.db), s.db) && s.db.boards == old(s.db).boards && s.db.targets == old(s.db).targets
    ensures c.None? ==> s.faulted || !NulFree(name)
    ensures c.Some? ==>
      && NulFree(name) && c.value == CompanyId(old(s.db), name)
      && c.value in s.db.companies && Lower(s.db.companies[c.value].name) == Lower(name)
      && (priority ==> s.db.companies[c.value].priority)
  {
    ghost var before := s.db;
    var added := s.Try(AddCompany(name));
    if added.None? { return None; }
    RegistersStep(before, before, AddCompany(name));
    if !added.value.Found? { return None; }
    var id := added.value.id;
    var marked := true;
    if priority && !s.db.companies[id].priority { marked := MarkPriority(s, id, before); }
    c := if marked then Some(id) else None;
  }

  method MarkPriority(s: Store, c: int, ghost before: Db) returns (marked: bool)
    requires Valid(s.db) && OnlyRegisters(before, s.db) && c in s.db.companies
    modifies s
    ensures Valid(s.db) && old(s.clock) <= s.clock && (old(s.faulted) ==> s.faulted) && (!marked ==> s.faulted)
    ensures OnlyRegisters(before, s.db) && s.db.boards == old(s.db).boards && s.db.targets == old(s.db).targets
    ensures marked ==> s.db.companies == old(s.db).companies[c := old(s.db).companies[c].(priority := true)]
  {
    ghost var mid := s.db;
    var o := s.Try(SetPriority(c));
    if o.Some? { RegistersStep(before, mid, SetPriority(c)); }
    marked := o.Some?;
  }

  /** The board is there for this company, or for none. */
  predicate Takes(db: Db, k: Key, c: int) { k in db.boards ==> IsOf(db, db.boards[k], c) }

  method AddBoard(
    s: Store, c: int, provider: string, board: string, market: Option<Market>, ghost before: Db)
    returns (t: Option<Board>)
    requires Valid(s.db) && OnlyRegisters(before, s.db) && Trim(provider) != ""
    requires board != "" && Trimmed(board) && NulFree(board) && c in s.db.companies
    modifies s
    ensures Valid(s.db) && old(s.clock) <= s.clock && (old(s.faulted) ==> s.faulted)
    ensures OnlyRegisters(before, s.db)
    ensures t.Some? ==> AddedBoard(old(s.db), s.db, t.value, c, BoardKey(Trim(provider), board), market)
    ensures t.Some? ==> t.value.provider == Trim(provider)
    ensures t.Some? ==> NulFree(Trim(provider)) && Takes(old(s.db), BoardKey(Trim(provider), board), c)
    ensures t.None? ==> s.faulted || !NulFree(Trim(provider)) || !Takes(old(s.db), BoardKey(Trim(provider), board), c)
  {
    TrimTrims(provider);
    ghost var mid := s.db;
    var stmt := AddTarget(c, Trim(provider), board, market);
    var o := s.Try(stmt);
    if o.None? { return None; }
    RegistersStep(before, mid, stmt);
    if !o.value.Found? { return None; }
    AddedTargetIsFound(mid, c, Trim(provider), board, market);
    t := Some(BoardOf(s.db, o.value.id));
  }

  ghost predicate AddedBoard(before: Db, db: Db, t: Board, c: int, k: Key, market: Option<Market>) {
    && RefersTo(db, t) && db.targets[t.id].active && t.company == c
    && db.companies == before.companies && k in db.boards && db.boards[k] == t.id
    && db.targets[t.id].market == MarketOf(before, k, market)
  }
}

/** The companies, target_companies and jobs tables, and what each statement does to them.
    A statement is one atomic step; `now` is the database's clock when it runs. */
module Tables {
  import opened Options
  import opened Text
  import opened ContentHash
  import Interleaving

  datatype Status = Open | Closed | Removed

  datatype Market = Ethiopia | Worldwide

  datatype Company = Company(name: string, priority: bool)

  /** A board of a company: which provider hosts it, and its id there. */
  datatype Target = Target(
    company: int, provider: string, board: string, active: bool, market: Market, succeededAt: Option<int>)

  /** The source and the source's own id: the identity of a job. */
  type Key = (string, string)

  datatype Row = Row(
    target: int, company: int, status: Status, closedAt: Option<int>,
    content: Content, hash: string, remoteType: string, employmentType: string,
    published: Option<int>, expires: Option<int>, firstSeen: int, lastSeen: int, lastChanged: int)

  /** The maps keyed by (provider, board) and by company name are the unique indexes. */
  datatype Db = Db(
    companies: map<int, Company>, names: map<string, int>, nextCompany: int,
    targets: map<int, Target>, boards: map<Key, int>, nextTarget: int,
    jobs: map<Key, Row>)

  /** The arguments of the upsert of one job: its content as reported, the hash of that, and
      the trimmed key and types. */
  datatype Params = Params(
    company: int, target: int, key: Key, content: Content, hash: string, remoteType: string, employmentType: string,
    published: Option<int>, expires: Option<int>)

  /** Which open jobs of a target are closed: those a full listing lacks, those unseen for
      too long, or those reported as ended. */
  datatype Closing = Missing(seen: seq<string>) | Stale(olderThan: int) | Ended(ids: seq<string>)

  datatype Stmt =
    | UpsertJob(p: Params, now: int)
    | CloseJobs(target: int, which: Closing, now: int)
    | MoveJob(key: Key, target: int, company: int)
    | SetActive(target: int, active: bool)
    | MarkSucceeded(target: int, now: int)
    | AddCompany(name: string)
    | SetPriority(company: int)
    | AddTarget(company: int, provider: string, board: string, market: Option<Market>)

  datatype Outcome =
    | Upserted(inserted: bool, changed: bool) | Affected(rows: nat) | Found(id: int)
    | Mismatch | NotFound | Refused(sqlstate: string)

  // ----- Jobs --------------------------------------------------------------------------------

  const UNKNOWN := "unknown"

  /** The database takes no text with a NUL in it. */
  const BAD_TEXT := "22021"

  function OrElse(s: string, default: string): string { if s != "" then s else default }

  /** The database trims only spaces, so a title of other white space is not blank for it. */
  predicate AllSpaces(s: string) { s == "" || (s[0] == ' ' && AllSpaces(s[1..])) }

  /** What the columns keep of a content: the location and the canonical URL without white
      space around them. The types have columns of their own. */
  function Kept(c: Content): (k: Content)
    ensures c.Clean() ==> k.Clean()
  {
    TrimDropsOnlySpace(c.canonicalUrl, NUL);
    TrimDropsOnlySpace(c.location, NUL);
    c.(canonicalUrl := Trim(c.canonicalUrl), location := Trim(c.location), remoteType := "", employmentType := "")
  }

  predicate CleanKey(k: Key) { NulFree(k.0) && NulFree(k.1) }

  /** The CHECK constraints on the values of a job. */
  predicate Acceptable(p: Params) {
    && !AllSpaces(p.content.title) && !AllSpaces(p.content.applicationUrl)
    && p.remoteType in REMOTE_TYPES + {"", UNKNOWN} && p.employmentType in EMPLOYMENT_TYPES + {"", UNKNOWN}
  }

  /** The foreign keys: a job's company and source are those of its target. */
  predicate BelongsTo(db: Db, target: int, company: int, source: string) {
    target in db.targets && db.targets[target].company == company && db.targets[target].provider == source
  }

  function NewRow(p: Params, now: int): Row {
    Row(p.target, p.company, Open, None, Kept(p.content), p.hash,
        OrElse(p.remoteType, UNKNOWN), OrElse(p.employmentType, UNKNOWN), p.published, p.expires, now, now, now)
  }

  predicate Changes(row: Row, p: Params) { row.status != Open || row.hash != p.hash }

  function UpdatedRow(row: Row, p: Params, now: int): Row {
    row.(status := Open, closedAt := None, content := Kept(p.content), hash := p.hash,
         remoteType := OrElse(p.remoteType, row.remoteType),
         employmentType := OrElse(p.employmentType, row.employmentType),
         published := if p.published.Some? then p.published else row.published,
         expires := if p.expires.Some? then p.expires else row.expires,
         lastSeen := now, lastChanged := if Changes(row, p) then now else row.lastChanged)
  }

  /** A NUL or a value outside the constraints is refused before the row is looked for. */
  function UpsertOutcome(db: Db, p: Params): Outcome {
    if !p.content.Clean() || !CleanKey(p.key) then Refused(BAD_TEXT)
    else if !Acceptable(p) then Refused("23514")
    else if p.key in db.jobs then
      var row := db.jobs[p.key];
      if row.target == p.target && row.company == p.company then Upserted(false, Changes(row, p)) else Mismatch
    else if BelongsTo(db, p.target, p.company, p.key.0) then Upserted(true, true)
    else Refused("23503")
  }

  function Written(db: Db, p: Params, now: int): Row {
    if p.key in db.jobs then UpdatedRow(db.jobs[p.key], p, now) else NewRow(p, now)
  }

  function DoUpsert(db: Db, p: Params, now: int): Db {
    if UpsertOutcome(db, p).Upserted? then db.(jobs := db.jobs[p.key := Written(db, p, now)]) else db
  }

  predicate Picks(which: Closing, id: string, row: Row, now: int) {
    match which
    case Missing(seen) => id !in seen
    case Stale(olderThan) => row.lastSeen < now - olderThan
    case Ended(ids) => id in ids
  }

  /** A list of ids goes to the database as one argument, which one NUL anywhere spoils. */
  predicate Sendable(which: Closing) {
    match which
    case Missing(seen) => AllNulFree(seen)
    case Stale(_) => true
    case Ended(ids) => AllNulFree(ids)
  }

  predicate AllNulFree(ids: seq<string>) { forall i :: 0 <= i < |ids| ==> NulFree(ids[i]) }

  predicate IsClosed(db: Db, target: int, which: Closing, now: int, k: Key) {
    && k in db.jobs && db.jobs[k].target == target && db.jobs[k].status == Open
    && Sendable(which) && Picks(which, k.1, db.jobs[k], now)
  }

  function Shut(row: Row, now: int): Row { row.(status := Removed, closedAt := Some(now)) }

  function DoClose(db: Db, target: int, which: Closing, now: int): Db {
    db.(jobs := map k | k in db.jobs ::
      if IsClosed(db, target, which, now, k) then Shut(db.jobs[k], now) else db.jobs[k])
  }

  function ClosedKeys(db: Db, target: int, which: Closing, now: int): set<Key> {
    set k | k in db.jobs && IsClosed(db, target, which, now, k)
  }

  function CloseCount(db: Db, target: int, which: Closing, now: int): nat { |ClosedKeys(db, target, which, now)| }

  function CloseOutcome(db: Db, target: int, which: Closing, now: int): Outcome {
    if Sendable(which) then Affected(CloseCount(db, target, which, now)) else Refused(BAD_TEXT)
  }

  function MoveOutcome(db: Db, k: Key, target: int, company: int): Outcome {
    if !CleanKey(k) then Refused(BAD_TEXT)
    else if k !in db.jobs then NotFound
    else if BelongsTo(db, target, company, k.0) then Affected(1)
    else Refused("23503")
  }

  function DoMove(db: Db, k: Key, target: int, company: int): Db {
    if MoveOutcome(db, k, target, company).Affected? then
      db.(jobs := db.jobs[k := db.jobs[k].(target := target, company := company)])
    else db
  }

  // ----- Companies and targets -------------------------------------------------------------------

  function DoSetActive(db: Db, t: int, active: bool): Db {
    if t in db.targets then db.(targets := db.targets[t := db.targets[t].(active := active)]) else db
  }

  function DoMarkSucceeded(db: Db, t: int, now: int): Db {
    if t in db.targets then db.(targets := db.targets[t := db.targets[t].(succeededAt := Some(now))]) else db
  }

  function WithCompany(db: Db, n: string, c: Company): Db {
    db.(companies := db.companies[db.nextCompany := c], names := db.names[n := db.nextCompany],
        nextCompany := db.nextCompany + 1)
  }

  function DoAddCompany(db: Db, name: string): Db {
    var n := Lower(name);
    if !NulFree(name) || n in db.names then db
    else WithCompany(db, n, Company(name, false))
  }

  function AddCompanyOutcome(db: Db, name: string): Outcome {
    if !NulFree(name) then Refused(BAD_TEXT)
    else Found(if Lower(name) in db.names then db.names[Lower(name)] else db.nextCompany)
  }

  function DoSetPriority(db: Db, c: int): Db {
    if c in db.companies then db.(companies := db.companies[c := db.companies[c].(priority := true)]) else db
  }

  function BoardKey(provider: string, board: string): Key { (provider, Lower(board)) }

  /** Registering a board anew activates it; a board of another company is left alone. */
  function AddTargetOutcome(db: Db, company: int, provider: string, board: string): Outcome {
    var k := BoardKey(provider, board);
    if !NulFree(provider) || !NulFree(board) then Refused(BAD_TEXT)
    else if k in db.boards then
      var t := db.boards[k];
      if t in db.targets && db.targets[t].company == company then Found(t) else Mismatch
    else if company in db.companies then Found(db.nextTarget)
    else Refused("23503")
  }

  function NewTarget(company: int, provider: string, board: string, market: Option<Market>): Target {
    Target(company, provider, board, true, if market.Some? then market.value else Worldwide, None)
  }

  function DoAddTarget(db: Db, company: int, provider: string, board: string, market: Option<Market>): Db {
    var k, o := BoardKey(provider, board), AddTargetOutcome(db, company, provider, board);
    if !o.Found? then db
    else if k in db.boards && o.id in db.targets then
      var t := db.targets[o.id];
      db.(targets := db.targets[o.id := t.(active := true, market := if market.Some? then market.value else t.market)])
    else
      db.(targets := db.targets[o.id := NewTarget(company, provider, board, market)],
          boards := db.boards[k := o.id], nextTarget := db.nextTarget + 1)
  }

  // ----- A statement -------------------------------------------------------------------------------

  function Exec(db: Db, s: Stmt): Db {
    match s
    case UpsertJob(p, now) => DoUpsert(db, p, now)
    case CloseJobs(t, which, now) => DoClose(db, t, which, now)
    case MoveJob(k, t, c) => DoMove(db, k, t, c)
    case SetActive(t, active) => DoSetActive(db, t, active)
    case MarkSucceeded(t, now) => DoMarkSucceeded(db, t, now)
    case AddCompany(name) => DoAddCompany(db, name)
    case SetPriority(c) => DoSetPriority(db, c)
    case AddTarget(c, p, b, m) => DoAddTarget(db, c, p, b, m)
  }

  function OutcomeOf(db: Db, s: Stmt): Outcome {
    match s
    case UpsertJob(p, _) => UpsertOutcome(db, p)
    case CloseJobs(t, which, now) => CloseOutcome(db, t, which, now)
    case MoveJob(k, t, c) => MoveOutcome(db, k, t, c)
    case SetActive(t, _) => if t in db.targets then Affected(1) else NotFound
    case MarkSucceeded(t, _) => if t in db.targets then Affected(1) else NotFound
    case AddCompany(name) => AddCompanyOutcome(db, name)
    case SetPriority(c) => if c in db.companies then Affected(1) else NotFound
    case AddTarget(c, p, b, _) => AddTargetOutcome(db, c, p, b)
  }

  /** Statements run one after the other. */
  ghost function Replay(db: Db, log: seq<Stmt>): Db { Interleaving.Run(Exec, db, log) }

  // ----- What every statement keeps ------------------------------------------------------------------

  /** What the callers see to: keys are trimmed and not blank. */
  ghost predicate Proper(s: Stmt) {
    match s
    case UpsertJob(p, _) => p.key.1 != "" && Trimmed(p.key.1)
    case AddCompany(name) => name != "" && Trimmed(name)
    case AddTarget(_, provider, board, _) => provider != "" && Trimmed(provider) && board != "" && Trimmed(board)
    case _ => true
  }

  ghost predicate ValidRow(db: Db, k: Key, row: Row) {
    && BelongsTo(db, row.target, row.company, k.0)
    && k.1 != "" && Trimmed(k.1) && CleanKey(k)
    && (row.status == Open <==> row.closedAt == None)
    && row.content.Clean()
    && row.remoteType in REMOTE_TYPES + {UNKNOWN} && row.employmentType in EMPLOYMENT_TYPES + {UNKNOWN}
  }

  ghost predicate ValidTarget(db: Db, t: int, target: Target) {
    && 0 < t < db.nextTarget && target.company in db.companies
    && target.provider != "" && Trimmed(target.provider) && NulFree(target.provider)
    && target.board != "" && Trimmed(target.board)
    && BoardKey(target.provider, target.board) in db.boards
    && db.boards[BoardKey(target.provider, target.board)] == t
  }

  ghost predicate ValidBoard(db: Db, k: Key, t: int) {
    t in db.targets && BoardKey(db.targets[t].provider, db.targets[t].board) == k
  }

  ghost predicate ValidTargets(db: Db) {
    && (forall t :: t in db.targets ==> ValidTarget(db, t, db.targets[t]))
    && (forall k :: k in db.boards ==> ValidBoard(db, k, db.boards[k]))
  }

  ghost predicate ValidCompanies(db: Db) {
    && 0 < db.nextCompany && 0 < db.nextTarget
    && (forall c :: c in db.companies ==> 0 < c < db.nextCompany)
    && (forall n :: n in db.names ==> db.names[n] in db.companies && Lower(db.companies[db.names[n]].name) == n)
    && (forall c :: c in db.companies ==>
          Lower(db.companies[c].name) in db.names && db.names[Lower(db.companies[c].name)] == c)
  }

  /** The constraints of the schema: keys are unique by the maps, a job's company and source
      are its target's, a job is open exactly when it has no closing time, and so on. */
  ghost predicate Valid(db: Db) {
    && ValidCompanies(db) && ValidTargets(db)
    && ValidJobs(db)
  }

  ghost predicate ValidJobs(db: Db) { forall k :: k in db.jobs ==> ValidRow(db, k, db.jobs[k]) }
}

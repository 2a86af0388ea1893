/** Reading a job site's listing, newest first, and stopping early once a page reaches back
    past the oldest posting of interest. */
module JobListing {
  import opened Options

  /** A listed job; the id is empty when the slug is unreadable, a date is `None` when it is
      missing or cannot be read. */
  datatype Listed = Listed(
    id: string, employer: string, title: string, published: Option<int>, expires: Option<int>, rest: string)

  datatype Job = Closed(id: string, employer: string) | Open(id: string, listed: Listed)

  /** What fetching one page brings. A page past the last one that is not found counts as a
      listing of no jobs. */
  datatype Fetch = Failed | Cancelled | Listing(jobs: seq<Listed>, last: int)

  datatype Outcome = Nothing | Complete(jobs: seq<Job>) | Partial(jobs: seq<Job>)

  const DEFAULT_MAX_PAGES := 100
  const HARD_MAX_PAGES := 200
  const DEFAULT_MAX_AGE := 20 * 24 * 3600

  /** `placeholder` recognizes stand-ins for a hidden employer. */
  datatype Collector = Collector(maxPages: int, maxAge: int, placeholder: string -> bool) {
    predicate Valid() { 1 <= maxPages <= HARD_MAX_PAGES && maxAge > 0 }
  }

  function Min(a: int, b: int): int { if a <= b then a else b }

  function New(maxPages: int, maxAge: int, placeholder: string -> bool): (c: Collector)
    ensures c.Valid() && c.placeholder == placeholder
    ensures c.maxPages == if maxPages <= 0 then 100 else if maxPages <= 200 then maxPages else 200
    ensures 0 < maxAge ==> c.maxAge == maxAge
    ensures maxAge <= 0 ==> c.maxAge == 20 * 24 * 3600
  {
    Collector(Min(if maxPages <= 0 then DEFAULT_MAX_PAGES else maxPages, HARD_MAX_PAGES),
              if maxAge <= 0 then DEFAULT_MAX_AGE else maxAge, placeholder)
  }

  // ----- One listed job -----------------------------------------------------------------

  predicate Readable(c: Collector, l: Listed) { l.id != "" && !c.placeholder(l.employer) && l.title != "" }

  predicate Expired(l: Listed, now: int) { l.expires.Some? && l.expires.value <= now }

  /** The posting is dated and not older than the cutoff. */
  predicate Recent(c: Collector, l: Listed, now: int) { l.published.Some? && l.published.value >= now - c.maxAge }

  function Convert(c: Collector, l: Listed, now: int): Option<Job> {
    if !Readable(c, l) then None
    else if Expired(l, now) then Some(Closed(l.id, l.employer))
    else if !Recent(c, l, now) then None
    else Some(Open(l.id, l))
  }

  // ----- A list of jobs ------------------------------------------------------------------

  ghost predicate HasId(jobs: seq<Job>, id: string) { exists j :: j in jobs && j.id == id }

  ghost predicate Marks(seen: set<string>, jobs: seq<Job>) { forall id :: id in seen <==> HasId(jobs, id) }

  /** The converted jobs, each id at its first occurrence. */
  ghost function Gather(c: Collector, ls: seq<Listed>, now: int): seq<Job> {
    if ls == [] then []
    else
      var before, j := Gather(c, ls[..|ls| - 1], now), Convert(c, ls[|ls| - 1], now);
      if j.None? || HasId(before, j.value.id) then before else before + [j.value]
  }

  ghost function OpenOnly(jobs: seq<Job>): seq<Job> {
    if jobs == [] then []
    else OpenOnly(jobs[..|jobs| - 1]) + (if jobs[|jobs| - 1].Open? then [jobs[|jobs| - 1]] else [])
  }

  /** The date of the oldest job, or now if none is older. */
  function Oldest(ls: seq<Listed>, now: int): int {
    if ls == [] then now
    else
      var before, p := Oldest(ls[..|ls| - 1], now), ls[|ls| - 1].published;
      if p.Some? && p.value < before then p.value else before
  }

  lemma {:induction false} OldestIs(ls: seq<Listed>, now: int)
    ensures Oldest(ls, now) == now || exists l :: l in ls && l.published == Some(Oldest(ls, now))
    ensures forall l :: l in ls && l.published.Some? ==> Oldest(ls, now) <= l.published.value
    ensures Oldest(ls, now) <= now
  {
    if ls != [] { OldestIs(ls[..|ls| - 1], now); }
  }

  /** Jobs too old to be stored, closed or unreadable leave the open jobs as they are. */
  lemma {:induction false} NothingOpenInTail(c: Collector, ls: seq<Listed>, tail: seq<Listed>, now: int)
    requires forall l :: l in tail ==> !Recent(c, l, now)
    ensures OpenOnly(Gather(c, ls + tail, now)) == OpenOnly(Gather(c, ls, now))
  {
    if tail == [] {
      assert ls + tail == ls;
    } else {
      var n := |tail| - 1;
      assert tail[..n + 1] == tail;
      NothingOpenInTail(c, ls, tail[..n], now);
      GatherNext(c, ls, tail, n, now);
      var before, j := Gather(c, ls + tail[..n], now), Convert(c, tail[n], now);
      if j.Some? && !HasId(before, j.value.id) { assert (before + [j.value])[..|before|] == before; }
    }
  }

  // ----- The pages of a run ------------------------------------------------------------------

  function ListOf(f: Fetch): seq<Listed> { if f.Listing? then f.jobs else [] }

  /** What pages 1 to `n` list. */
  ghost function Upto(pages: nat -> Fetch, n: nat): seq<Listed> {
    if n == 0 then [] else Upto(pages, n - 1) + ListOf(pages(n))
  }

  /** The last page known after page `n`; the page limit until a page reports one. */
  ghost function LastKnown(c: Collector, pages: nat -> Fetch, n: nat): int {
    if n == 0 then c.maxPages
    else if pages(n).Listing? && pages(n).last > 0 then pages(n).last
    else LastKnown(c, pages, n - 1)
  }

  /** The listing reaches back past the cutoff on this page. */
  predicate PastCutoff(c: Collector, f: Fetch, now: int) { Oldest(ListOf(f), now) < now - c.maxAge }

  /** Page `n` is read and the next one is wanted. */
  ghost predicate GoesOn(c: Collector, pages: nat -> Fetch, now: int, n: nat) {
    && pages(n).Listing? && pages(n).jobs != [] && !PastCutoff(c, pages(n), now)
    && n + 1 <= Min(LastKnown(c, pages, n), c.maxPages)
  }

  ghost predicate Reaches(c: Collector, pages: nat -> Fetch, now: int, n: nat) {
    forall m :: 1 <= m < n ==> GoesOn(c, pages, now, m)
  }

  /** The outcome when page `n` is the last one requested. */
  ghost function Result(c: Collector, pages: nat -> Fetch, now: int, n: nat): Outcome
    requires n >= 1
  {
    match pages(n)
    case Cancelled => Nothing
    case Failed => if n == 1 then Nothing else Partial(Gather(c, Upto(pages, n - 1), now))
    case Listing(jobs, _) => if n == 1 && jobs == [] then Nothing else Complete(Gather(c, Upto(pages, n), now))
  }

  /** Reads pages 1, 2, ... until one does not go on; `n` is the last page requested. Each
      page is requested once, so `pages` says what its one request brings. */
  method Collect(c: Collector, pages: nat -> Fetch, now: int) returns (r: Outcome, n: nat)
    requires c.Valid()
    ensures 1 <= n <= c.maxPages <= HARD_MAX_PAGES
    ensures Reaches(c, pages, now, n) && !GoesOn(c, pages, now, n)
    ensures r == Result(c, pages, now, n)
    ensures r.Nothing? <==>
      pages(n).Cancelled? || (n == 1 && (pages(1).Failed? || (pages(1).Listing? && pages(1).jobs == [])))
    ensures StopsAt(c, pages, now, n)
    ensures r.Partial? ==> n > 1 && pages(n).Failed? && Collected(c, Upto(pages, n - 1), now, r.jobs)
    ensures r.Complete? ==> pages(n).Listing? && Collected(c, Upto(pages, n), now, r.jobs)
  {
    r, n := Request(c, pages, now);
    GatheredAre(c, Upto(pages, if pages(n).Failed? then n - 1 else n), now);
    StopsThere(c, pages, now, n);
  }

  method Request(c: Collector, pages: nat -> Fetch, now: int) returns (r: Outcome, n: nat)
    requires c.Valid()
    ensures 1 <= n <= c.maxPages <= HARD_MAX_PAGES
    ensures Reaches(c, pages, now, n) && !GoesOn(c, pages, now, n)
    ensures r == Result(c, pages, now, n)
  {
    var jobs: seq<Job> := [];
    var seen: set<string> := {};
    var lastPage := c.maxPages;
    n := 0;
    while n + 1 <= Min(lastPage, c.maxPages)
      invariant n <= c.maxPages && (n == 0 ==> lastPage == c.maxPages)
      invariant n >= 1 ==> pages(n).Listing? && pages(n).jobs != [] && !PastCutoff(c, pages(n), now)
      invariant jobs == Gather(c, Upto(pages, n), now) && lastPage == LastKnown(c, pages, n)
      invariant Reaches(c, pages, now, n)
      invariant Marks(seen, jobs)
      decreases c.maxPages - n
    {
      n := n + 1;
      var f := pages(n);
      assert n > 1 ==> GoesOn(c, pages, now, n - 1);
      assert Reaches(c, pages, now, n) && Upto(pages, n) == Upto(pages, n - 1) + ListOf(f);
      match f {
        case Cancelled => return Nothing, n;
        case Failed =>
          if n == 1 { return Nothing, n; }
          return Partial(jobs), n;
        case Listing(list, last) =>
          if n == 1 && list == [] { return Nothing, n; }
          if last > 0 { lastPage := last; }
          var oldest;
          jobs, seen, oldest := ReadPage(c, list, now, jobs, seen, Upto(pages, n - 1));
          if list == [] || oldest < now - c.maxAge { return Complete(jobs), n; }
      }
    }
    return Complete(jobs), n;
  }

  /** Adds the jobs of one page. */
  method ReadPage(
    c: Collector, list: seq<Listed>, now: int, jobs0: seq<Job>, seen0: set<string>, ghost earlier: seq<Listed>)
    returns (jobs: seq<Job>, seen: set<string>, oldest: int)
    requires jobs0 == Gather(c, earlier, now) && Marks(seen0, jobs0)
    ensures jobs == Gather(c, earlier + list, now) && Marks(seen, jobs)
    ensures oldest == Oldest(list, now)
  {
    jobs, seen, oldest := jobs0, seen0, now;
    assert earlier + list[..0] == earlier;
    for i := 0 to |list|
      invariant jobs == Gather(c, earlier + list[..i], now) && Marks(seen, jobs)
      invariant oldest == Oldest(list[..i], now)
    {
      GatherNext(c, earlier, list, i, now);
      var job, pub := Convert(c, list[i], now), list[i].published;
      if pub.Some? && pub.value < oldest { oldest := pub.value; }
      if job.None? || job.value.id in seen { continue; }
      MarksNext(seen, jobs, job.value);
      seen := seen + {job.value.id};
      jobs := jobs + [job.value];
    }
    assert list[..|list|] == list;
  }

  lemma {:induction false} GatherNext(c: Collector, earlier: seq<Listed>, list: seq<Listed>, i: nat, now: int)
    requires i < |list|
    ensures var before, j := Gather(c, earlier + list[..i], now), Convert(c, list[i], now);
      Gather(c, earlier + list[..i + 1], now) ==
        if j.None? || HasId(before, j.value.id) then before else before + [j.value]
    ensures var before, p := Oldest(list[..i], now), list[i].published;
      Oldest(list[..i + 1], now) == if p.Some? && p.value < before then p.value else before
  {
    var all := earlier + list[..i + 1];
    assert all[..|all| - 1] == earlier + list[..i] && all[|all| - 1] == list[i];
    assert list[..i + 1][..i] == list[..i];
  }

  lemma {:induction false} MarksNext(seen: set<string>, jobs: seq<Job>, j: Job)
    requires Marks(seen, jobs)
    ensures Marks(seen + {j.id}, jobs + [j])
  {}

  // ----- Where a run stops ---------------------------------------------------------------------

  ghost predicate ListsOld(c: Collector, f: Fetch, now: int) {
    f.Listing? && exists l :: l in f.jobs && l.published.Some? && now - l.published.value > c.maxAge
  }

  /** The latest page to say so said that this was the last one. */
  ghost predicate SaidLast(pages: nat -> Fetch, n: nat, last: int) {
    exists m :: SaidAt(pages, n, m, last)
  }

  predicate Says(f: Fetch) { f.Listing? && f.last > 0 }

  ghost predicate SaidAt(pages: nat -> Fetch, n: nat, m: nat, last: int) {
    1 <= m <= n && Says(pages(m)) && pages(m).last == last && forall h :: m < h <= n ==> !Says(pages(h))
  }

  /** Before page `n` every page lists something, but no job past the age limit; and unless page
      `n` does not, it is the last one or the limit is reached. */
  ghost predicate StopsAt(c: Collector, pages: nat -> Fetch, now: int, n: nat) {
    && (forall m :: 1 <= m < n ==> pages(m).Listing? && pages(m).jobs != [] && !ListsOld(c, pages(m), now))
    && (pages(n).Listing? && pages(n).jobs != [] && !ListsOld(c, pages(n), now) ==>
          n >= c.maxPages || exists last :: SaidLast(pages, n, last) && last <= n)
  }

  lemma {:induction false} PastCutoffIff(c: Collector, f: Fetch, now: int)
    requires c.Valid()
    ensures PastCutoff(c, f, now) <==> ListsOld(c, f, now)
  {
    OldestIs(ListOf(f), now);
  }

  lemma {:induction false} LastKnownIs(c: Collector, pages: nat -> Fetch, n: nat)
    ensures LastKnown(c, pages, n) == c.maxPages || SaidLast(pages, n, LastKnown(c, pages, n))
  {
    if n > 0 {
      LastKnownIs(c, pages, n - 1);
      var last := LastKnown(c, pages, n - 1);
      if !Says(pages(n)) && SaidLast(pages, n - 1, last) {
        var m :| SaidAt(pages, n - 1, m, last);
        assert SaidAt(pages, n, m, last);
      } else if Says(pages(n)) {
        assert SaidAt(pages, n, n, pages(n).last);
      }
    }
  }

  lemma {:induction false} StopsThere(c: Collector, pages: nat -> Fetch, now: int, n: nat)
    requires c.Valid() && n >= 1 && Reaches(c, pages, now, n) && !GoesOn(c, pages, now, n)
    ensures StopsAt(c, pages, now, n)
  {
    forall m: nat ensures PastCutoff(c, pages(m), now) <==> ListsOld(c, pages(m), now) {
      PastCutoffIff(c, pages(m), now);
    }
    forall m | 1 <= m < n ensures pages(m).Listing? && pages(m).jobs != [] && !ListsOld(c, pages(m), now) {
      assert GoesOn(c, pages, now, m);
    }
    LastKnownIs(c, pages, n);
  }

  // ----- What is collected, field by field ---------------------------------------------------

  /** A readable listing that is past its deadline, or dated within the age limit. */
  ghost predicate Counts(c: Collector, l: Listed, now: int) {
    && l.id != "" && l.title != "" && !c.placeholder(l.employer)
    && (|| (l.expires.Some? && l.expires.value <= now)
        || (l.published.Some? && now - l.published.value <= c.maxAge))
  }

  /** Past its deadline it closes the job of its id; else it is the job, as listed. */
  ghost predicate Gives(l: Listed, now: int, j: Job) {
    if l.expires.Some? && l.expires.value <= now then j == Closed(l.id, l.employer) else j == Open(l.id, l)
  }

  /** The first listing that counts of its id. */
  ghost predicate Leads(c: Collector, ls: seq<Listed>, now: int, k: nat) {
    && k < |ls| && Counts(c, ls[k], now)
    && forall h :: 0 <= h < k && ls[h].id == ls[k].id ==> !Counts(c, ls[h], now)
  }

  ghost predicate GivenBy(c: Collector, ls: seq<Listed>, now: int, j: Job) {
    exists k: nat :: Leads(c, ls, now, k) && Gives(ls[k], now, j)
  }

  /** Exactly the jobs the first listings of each id give. */
  ghost predicate Collected(c: Collector, ls: seq<Listed>, now: int, jobs: seq<Job>) {
    forall j :: j in jobs <==> GivenBy(c, ls, now, j)
  }

  lemma {:induction false} ConvertIs(c: Collector, l: Listed, now: int, j: Job)
    ensures Convert(c, l, now) == Some(j) <==> Counts(c, l, now) && Gives(l, now, j)
  {}

  lemma {:induction false} GivenNext(c: Collector, ls: seq<Listed>, now: int, j: Job)
    requires ls != []
    ensures var n := |ls| - 1;
      GivenBy(c, ls, now, j) <==> GivenBy(c, ls[..n], now, j) || (Leads(c, ls, now, n) && Gives(ls[n], now, j))
  {
    var n := |ls| - 1;
    forall k: nat | k < n ensures Leads(c, ls, now, k) <==> Leads(c, ls[..n], now, k) {}
    if GivenBy(c, ls[..n], now, j) {
      var k: nat :| Leads(c, ls[..n], now, k) && Gives(ls[..n][k], now, j);
      assert Leads(c, ls, now, k) && ls[k] == ls[..n][k];
    }
  }

  /** An id is collected exactly when a listing of it counts. */
  lemma {:induction false} GivenId(c: Collector, ls: seq<Listed>, now: int, id: string)
    ensures (exists j :: GivenBy(c, ls, now, j) && j.id == id) <==>
      exists h :: 0 <= h < |ls| && ls[h].id == id && Counts(c, ls[h], now)
  {
    if exists h :: 0 <= h < |ls| && ls[h].id == id && Counts(c, ls[h], now) {
      var h :| 0 <= h < |ls| && ls[h].id == id && Counts(c, ls[h], now);
      var k := FirstCounting(c, ls, now, h);
      var l := ls[k];
      var j := if l.expires.Some? && l.expires.value <= now then Closed(id, l.employer) else Open(id, l);
      assert Gives(ls[k], now, j);
    }
  }

  lemma {:induction false} FirstCounting(c: Collector, ls: seq<Listed>, now: int, h: nat) returns (k: nat)
    requires h < |ls| && Counts(c, ls[h], now)
    ensures Leads(c, ls, now, k) && ls[k].id == ls[h].id
  {
    if Leads(c, ls, now, h) {
      k := h;
    } else {
      var g :| 0 <= g < h && ls[g].id == ls[h].id && Counts(c, ls[g], now);
      k := FirstCounting(c, ls, now, g);
    }
  }

  lemma {:induction false} GatheredAre(c: Collector, ls: seq<Listed>, now: int)
    ensures Collected(c, ls, now, Gather(c, ls, now))
  {
    if ls != [] {
      var n := |ls| - 1;
      GatheredAre(c, ls[..n], now);
      GatheredNext(c, ls, now);
    }
  }

  lemma {:induction false} GatheredNext(c: Collector, ls: seq<Listed>, now: int)
    requires ls != [] && Collected(c, ls[..|ls| - 1], now, Gather(c, ls[..|ls| - 1], now))
    ensures Collected(c, ls, now, Gather(c, ls, now))
  {
    var n := |ls| - 1;
    var before := Gather(c, ls[..n], now);
    GivenId(c, ls[..n], now, ls[n].id);
    assert HasId(before, ls[n].id) <==>
      exists h :: 0 <= h < n && ls[..n][h].id == ls[n].id && Counts(c, ls[..n][h], now);
    assert forall h :: 0 <= h < n ==> ls[..n][h] == ls[h];
    assert Leads(c, ls, now, n) <==> Counts(c, ls[n], now) && !HasId(before, ls[n].id);
    forall j ensures j in Gather(c, ls, now) <==> GivenBy(c, ls, now, j) {
      GivenNext(c, ls, now, j);
      ConvertIs(c, ls[n], now, j);
    }
  }

  // ----- Stopping early loses nothing ----------------------------------------------------------

  /** The pages a scan without early stop reads when page 1 reports `last`. */
  function FullRange(c: Collector, last: int): nat
    requires c.Valid()
  {
    Min(if last > 0 then last else c.maxPages, c.maxPages)
  }

  /** Every page in range is read, lists something and reports the same last page. */
  ghost predicate Steady(c: Collector, pages: nat -> Fetch, last: int)
    requires c.Valid()
  {
    forall n :: 1 <= n <= FullRange(c, last) ==> pages(n).Listing? && pages(n).jobs != [] && pages(n).last == last
  }

  predicate NotNewer(b: Listed, a: Listed) {
    a.published.Some? && b.published.Some? ==> b.published.value <= a.published.value
  }

  /** No dated job on a page is newer than one on an earlier page. */
  ghost predicate NewestFirst(pages: nat -> Fetch, range: nat) {
    forall m, n, a, b :: 1 <= m < n <= range && a in ListOf(pages(m)) && b in ListOf(pages(n)) ==> NotNewer(b, a)
  }

  lemma {:induction false} SteadyLast(c: Collector, pages: nat -> Fetch, last: int, n: nat)
    requires c.Valid() && Steady(c, pages, last) && n <= FullRange(c, last)
    ensures LastKnown(c, pages, n) == if n > 0 && last > 0 then last else c.maxPages
  {
    if n > 0 { SteadyLast(c, pages, last, n - 1); }
  }

  /** What the pages after `k` add. */
  ghost function Between(pages: nat -> Fetch, k: nat, n: nat): seq<Listed>
    requires k <= n
  {
    if n == k then [] else Between(pages, k, n - 1) + ListOf(pages(n))
  }

  lemma {:induction false} UptoSplits(pages: nat -> Fetch, k: nat, n: nat)
    requires k <= n
    ensures Upto(pages, n) == Upto(pages, k) + Between(pages, k, n)
  {
    if n > k { UptoSplits(pages, k, n - 1); }
  }

  lemma {:induction false} BetweenOn(pages: nat -> Fetch, k: nat, n: nat, l: Listed) returns (m: nat)
    requires k <= n && l in Between(pages, k, n)
    ensures k < m <= n && l in ListOf(pages(m))
  {
    if l in ListOf(pages(n)) { m := n; } else { m := BetweenOn(pages, k, n - 1, l); }
  }

  /** After a page that reaches past the cutoff nothing recent is listed. */
  lemma {:induction false} LaterPagesAreOld(c: Collector, pages: nat -> Fetch, now: int, k: nat, range: nat, l: Listed)
    requires c.Valid() && NewestFirst(pages, range) && 1 <= k <= range
    requires PastCutoff(c, pages(k), now) && l in Between(pages, k, range)
    ensures !Recent(c, l, now)
  {
    OldestIs(ListOf(pages(k)), now);
    var aged :| aged in ListOf(pages(k)) && aged.published == Some(Oldest(ListOf(pages(k)), now));
    var m := BetweenOn(pages, k, range, l);
    assert NotNewer(l, aged);
  }

  /** On a steady listing, newest first, the run finds every open job a full scan finds, in
      the same order, and asks for no page beyond the last. */
  lemma {:induction false} EarlyStopLosesNothing(c: Collector, pages: nat -> Fetch, now: int, last: int, n: nat)
    requires c.Valid() && Steady(c, pages, last) && NewestFirst(pages, FullRange(c, last))
    requires n >= 1 && Reaches(c, pages, now, n) && !GoesOn(c, pages, now, n)
    ensures n <= FullRange(c, last)
    ensures var r := Result(c, pages, now, n);
      r.Complete? && OpenOnly(r.jobs) == OpenOnly(Gather(c, Upto(pages, FullRange(c, last)), now))
  {
    var range := FullRange(c, last);
    WithinRange(c, pages, now, last, n);
    SteadyLast(c, pages, last, n);
    if n < range { NothingOpenLater(c, pages, now, n, range); }
  }

  /** Reading on from a page that reaches past the cutoff finds no open job. */
  lemma {:induction false} NothingOpenLater(c: Collector, pages: nat -> Fetch, now: int, n: nat, range: nat)
    requires c.Valid() && NewestFirst(pages, range) && 1 <= n <= range && PastCutoff(c, pages(n), now)
    ensures OpenOnly(Gather(c, Upto(pages, range), now)) == OpenOnly(Gather(c, Upto(pages, n), now))
  {
    UptoSplits(pages, n, range);
    forall l | l in Between(pages, n, range) ensures !Recent(c, l, now) {
      LaterPagesAreOld(c, pages, now, n, range, l);
    }
    NothingOpenInTail(c, Upto(pages, n), Between(pages, n, range), now);
  }

  lemma {:induction false} WithinRange(c: Collector, pages: nat -> Fetch, now: int, last: int, n: nat)
    requires c.Valid() && Steady(c, pages, last) && n >= 1 && Reaches(c, pages, now, n)
    ensures n <= FullRange(c, last)
  {
    if n > 1 {
      WithinRange(c, pages, now, last, n - 1);
      assert GoesOn(c, pages, now, n - 1);
      SteadyLast(c, pages, last, n - 1);
    }
  }

  /** Whatever the order of the dates, what a run collects is the beginning of what reading on
      would collect. */
  lemma {:induction false} ReadingOnExtends(c: Collector, ls: seq<Listed>, tail: seq<Listed>, now: int)
    ensures Gather(c, ls, now) <= Gather(c, ls + tail, now)
  {
    if tail == [] {
      assert ls + tail == ls;
    } else {
      var all := ls + tail;
      assert all[..|all| - 1] == ls + tail[..|tail| - 1];
      ReadingOnExtends(c, ls, tail[..|tail| - 1], now);
    }
  }

  /** No id is collected twice, and every open job collected is dated within the age limit and
      not past its deadline. */
  lemma {:induction false} GatheredAreFresh(c: Collector, ls: seq<Listed>, now: int)
    ensures forall a, b :: 0 <= a < b < |Gather(c, ls, now)| ==> Gather(c, ls, now)[a].id != Gather(c, ls, now)[b].id
    ensures forall j :: j in Gather(c, ls, now) && j.Open? ==>
      j.listed in ls && Readable(c, j.listed) && !Expired(j.listed, now) && Recent(c, j.listed, now)
  {
    if ls != [] {
      var front := ls[..|ls| - 1];
      GatheredAreFresh(c, front, now);
      var before, j := Gather(c, front, now), Convert(c, ls[|ls| - 1], now);
      if j.Some? && !HasId(before, j.value.id) {
        forall a | 0 <= a < |before| ensures before[a].id != j.value.id { assert before[a] in before; }
      }
    }
  }
}

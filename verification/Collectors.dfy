/** Collecting jobs of many employers from one source: grouping them, giving each employer its
    target, leaving out openings another source already has, and ageing out what was not seen. */
module Collectors {
  import opened Options
  import opened Text
  import opened Tables
  import opened TableLaws
  import opened JobStore
  import opened Ingestion
  import opened BoardRuns
  import opened Places
  import opened Registrar

  datatype Collection = Nothing | Partial(jobs: seq<Job>) | Complete(jobs: seq<Job>)

  function JobsIn(found: Collection): seq<Job> { if found.Nothing? then [] else found.jobs }

  /** A source of many employers. Its name is the provider of its own targets; a priority
      company's jobs go under another provider if one is given. */
  datatype Collector = Collector(
    name: string, found: Collection, staleAfter: int, priorityProvider: string, market: Option<Market>)

  /** `resolve` maps an employer, for the worldwide list or not, to a known company: its name,
      empty if unknown, and whether it is a priority company. `appNow` is the program's clock. */
  datatype Config = Config(
    place: Reading, titleKey: string -> string, resolve: (bool, string) -> (string, bool), appNow: int)

  // ----- Grouping by employer ------------------------------------------------------------------

  datatype Group = Group(employer: string, priority: bool, jobs: seq<Job>)

  function Canonical(c: Config, col: Collector, j: Job): (string, bool) {
    var employer := Squeeze(j.employer);
    var known := c.resolve(col.market == Some(Worldwide), employer);
    if known.0 != "" then known else (employer, false)
  }

  /** The employer a job is grouped under. */
  function GroupKey(c: Config, col: Collector, j: Job): string { Lower(Canonical(c, col, j).0) }

  predicate Named(j: Job) { Squeeze(j.employer) != "" }

  /** The jobs of one employer, in order. */
  function JobsOf(c: Config, col: Collector, jobs: seq<Job>, n: nat, key: string): seq<Job>
    requires n <= |jobs|
  {
    if n == 0 then []
    else
      JobsOf(c, col, jobs, n - 1, key)
      + (if Named(jobs[n - 1]) && GroupKey(c, col, jobs[n - 1]) == key then [jobs[n - 1]] else [])
  }

  /** An employer's group holds its jobs in order, under the name and flag of the first. */
  ghost predicate GroupIs(c: Config, col: Collector, jobs: seq<Job>, n: nat, groups: map<string, Group>, key: string)
    requires n <= |jobs|
  {
    var js := JobsOf(c, col, jobs, n, key);
    && (key in groups <==> js != [])
    && (key in groups ==>
          groups[key].jobs == js && (groups[key].employer, groups[key].priority) == Canonical(c, col, js[0]))
  }

  ghost predicate Grouped(
    c: Config, col: Collector, jobs: seq<Job>, n: nat, groups: map<string, Group>, order: seq<string>)
    requires n <= |jobs|
  {
    && (forall key :: GroupIs(c, col, jobs, n, groups, key))
    && (forall key :: key in groups <==> key in order)
    && (forall a, b :: 0 <= a < b < |order| ==> order[a] != order[b])
  }

  function Joined(c: Config, col: Collector, groups: map<string, Group>, j: Job): map<string, Group> {
    var canonical, key := Canonical(c, col, j), GroupKey(c, col, j);
    if key in groups then groups[key := groups[key].(jobs := groups[key].jobs + [j])]
    else groups[key := Group(canonical.0, canonical.1, [j])]
  }

  function Listed(groups: map<string, Group>, order: seq<string>, key: string): seq<string> {
    if key in groups then order else order + [key]
  }

  lemma {:induction false} GroupedNext(
    c: Config, col: Collector, jobs: seq<Job>, n: nat, groups: map<string, Group>, order: seq<string>)
    requires n < |jobs| && Named(jobs[n]) && Grouped(c, col, jobs, n, groups, order)
    ensures var key := GroupKey(c, col, jobs[n]);
      Grouped(c, col, jobs, n + 1, Joined(c, col, groups, jobs[n]), Listed(groups, order, key))
  {
    var m, after, order' := n + 1, Joined(c, col, groups, jobs[n]), Listed(groups, order, GroupKey(c, col, jobs[n]));
    forall key ensures GroupIs(c, col, jobs, m, after, key) {
      assert GroupIs(c, col, jobs, n, groups, key);
    }
    forall key ensures key in after <==> key in order' { assert key in groups <==> key in order; }
  }

  lemma {:induction false} GroupedSkip(
    c: Config, col: Collector, jobs: seq<Job>, n: nat, groups: map<string, Group>, order: seq<string>)
    requires n < |jobs| && !Named(jobs[n]) && Grouped(c, col, jobs, n, groups, order)
    ensures Grouped(c, col, jobs, n + 1, groups, order)
  {
    var m := n + 1;
    forall key ensures GroupIs(c, col, jobs, m, groups, key) { assert GroupIs(c, col, jobs, n, groups, key); }
  }

  method GroupJobs(c: Config, col: Collector, jobs: seq<Job>) returns (groups: map<string, Group>, order: seq<string>)
    ensures Grouped(c, col, jobs, |jobs|, groups, order) && GroupsHold(c, col, jobs, groups)
  {
    groups, order := map[], [];
    for i := 0 to |jobs|
      invariant Grouped(c, col, jobs, i, groups, order)
    {
      if Named(jobs[i]) {
        GroupedNext(c, col, jobs, i, groups, order);
        groups, order := Joined(c, col, groups, jobs[i]), Listed(groups, order, GroupKey(c, col, jobs[i]));
      } else {
        GroupedSkip(c, col, jobs, i, groups, order);
      }
    }
    GroupedHold(c, col, jobs, groups, order);
  }

  /** The employer a job goes under: its own, with white space evened out, or the company it is
      known as; and whether that has priority. */
  ghost predicate GoesUnder(c: Config, col: Collector, j: Job, name: string, priority: bool) {
    var employer := Squeeze(j.employer);
    var known := c.resolve(col.market == Some(Worldwide), employer);
    employer != "" && if known.0 != "" then (name, priority) == known else name == employer && !priority
  }

  /** The job, if it names an employer, is in the group of that name, in whatever case. */
  ghost predicate IsPlaced(c: Config, col: Collector, groups: map<string, Group>, j: Job) {
    forall name, p :: GoesUnder(c, col, j, name, p) ==> Lower(name) in groups && j in groups[Lower(name)].jobs
  }

  /** The group holds jobs of that name, and goes under the employer of the first. */
  ghost predicate IsGroup(c: Config, col: Collector, jobs: seq<Job>, key: string, g: Group) {
    && g.jobs != [] && GoesUnder(c, col, g.jobs[0], g.employer, g.priority)
    && forall j :: j in g.jobs ==> j in jobs && exists name, p :: GoesUnder(c, col, j, name, p) && Lower(name) == key
  }

  ghost predicate GroupsHold(c: Config, col: Collector, jobs: seq<Job>, groups: map<string, Group>) {
    && (forall j :: j in jobs ==> IsPlaced(c, col, groups, j))
    && (forall key :: key in groups ==> IsGroup(c, col, jobs, key, groups[key]))
  }

  lemma {:induction false} JobsOfExactly(c: Config, col: Collector, jobs: seq<Job>, n: nat, key: string, j: Job)
    requires n <= |jobs|
    ensures j in JobsOf(c, col, jobs, n, key) <==> j in jobs[..n] && Named(j) && GroupKey(c, col, j) == key
  {
    if n > 0 {
      JobsOfExactly(c, col, jobs, n - 1, key, j);
      assert jobs[..n] == jobs[..n - 1] + [jobs[n - 1]];
    }
  }

  lemma {:induction false} GoesUnderIff(c: Config, col: Collector, j: Job, name: string, priority: bool)
    ensures GoesUnder(c, col, j, name, priority) <==> Named(j) && Canonical(c, col, j) == (name, priority)
  {}

  lemma {:induction false} GroupHas(
    c: Config, col: Collector, jobs: seq<Job>, groups: map<string, Group>, key: string, j: Job)
    requires GroupIs(c, col, jobs, |jobs|, groups, key)
    ensures key in groups && j in groups[key].jobs <==> j in jobs && Named(j) && GroupKey(c, col, j) == key
  {
    JobsOfExactly(c, col, jobs, |jobs|, key, j);
    assert jobs[..|jobs|] == jobs;
  }

  lemma {:induction false} GroupNamed(
    c: Config, col: Collector, jobs: seq<Job>, groups: map<string, Group>, key: string)
    requires GroupIs(c, col, jobs, |jobs|, groups, key) && key in groups
    ensures IsGroup(c, col, jobs, key, groups[key])
  {
    var first := groups[key].jobs[0];
    assert first in groups[key].jobs;
    GroupHas(c, col, jobs, groups, key, first);
    GoesUnderIff(c, col, first, groups[key].employer, groups[key].priority);
    forall j | j in groups[key].jobs
      ensures j in jobs && exists name, p :: GoesUnder(c, col, j, name, p) && Lower(name) == key
    {
      GroupHas(c, col, jobs, groups, key, j);
      GoesUnderIff(c, col, j, Canonical(c, col, j).0, Canonical(c, col, j).1);
    }
  }

  lemma {:induction false} GroupedHold(
    c: Config, col: Collector, jobs: seq<Job>, groups: map<string, Group>, order: seq<string>)
    requires Grouped(c, col, jobs, |jobs|, groups, order)
    ensures GroupsHold(c, col, jobs, groups)
  {
    forall key | key in groups ensures IsGroup(c, col, jobs, key, groups[key]) {
      assert GroupIs(c, col, jobs, |jobs|, groups, key);
      GroupNamed(c, col, jobs, groups, key);
    }
    forall j | j in jobs ensures IsPlaced(c, col, groups, j) {
      forall name, p | GoesUnder(c, col, j, name, p) ensures Lower(name) in groups && j in groups[Lower(name)].jobs {
        GoesUnderIff(c, col, j, name, p);
        assert GroupIs(c, col, jobs, |jobs|, groups, Lower(name));
        GroupHas(c, col, jobs, groups, Lower(name), j);
      }
    }
  }

  // ----- Openings already stored -------------------------------------------------------------------

  function MarketName(m: Market): string { match m case Ethiopia => "ethiopia" case Worldwide => "worldwide" }

  function KeyOf(m: Market, employer: string, title: string): string { MarketName(m) + "|" + employer + "|" + title }

  function OpeningKey(c: Config, m: Market, key: string, j: Job): string {
    KeyOf(m, key, c.titleKey(j.content.title))
  }

  /** Worldwide openings are compared without their places, which boards word differently;
      Ethiopian ones only count as one at one place. */
  predicate SameSpot(c: Config, m: Market, a: string, b: string) { m == Worldwide || SamePlace(c.place, a, b) }

  function StoredAt(stored: map<string, seq<string>>, k: string): seq<string> { if k in stored then stored[k] else [] }

  predicate OpeningStored(c: Config, stored: map<string, seq<string>>, m: Market, key: string, j: Job) {
    exists i :: 0 <= i < |StoredAt(stored, OpeningKey(c, m, key, j))| &&
      SameSpot(c, m, StoredAt(stored, OpeningKey(c, m, key, j))[i], j.content.location)
  }

  /** The jobs in order, without the open ones to be dropped; closing markers stay. */
  function Without(jobs: seq<Job>, drop: Job -> bool): seq<Job> {
    if jobs == [] then []
    else
      var before, j := Without(jobs[..|jobs| - 1], drop), jobs[|jobs| - 1];
      if j.closed || !drop(j) then before + [j] else before
  }

  lemma {:induction false} WithoutAre(jobs: seq<Job>, drop: Job -> bool)
    ensures forall j :: j in Without(jobs, drop) <==> j in jobs && (j.closed || !drop(j))
    ensures AllClosed(jobs) ==> AllClosed(Without(jobs, drop))
  {
    if jobs != [] {
      WithoutAre(jobs[..|jobs| - 1], drop);
      assert jobs == jobs[..|jobs| - 1] + [jobs[|jobs| - 1]];
    }
  }

  lemma {:induction false} WithoutNext(jobs: seq<Job>, drop: Job -> bool, i: nat)
    requires i < |jobs|
    ensures Without(jobs[..i + 1], drop) ==
      if jobs[i].closed || !drop(jobs[i]) then Without(jobs[..i], drop) + [jobs[i]] else Without(jobs[..i], drop)
  {
    assert jobs[..i + 1][..i] == jobs[..i];
  }

  function StoredEarlier(c: Config, stored: map<string, seq<string>>, m: Market, key: string): Job -> bool {
    j => OpeningStored(c, stored, m, key, j)
  }

  /** The group's jobs without the openings an earlier collector stored. */
  method FilterStored(c: Config, stored: map<string, seq<string>>, m: Market, key: string, jobs: seq<Job>)
    returns (kept: seq<Job>)
    ensures kept == Without(jobs, StoredEarlier(c, stored, m, key))
  {
    kept := [];
    for i := 0 to |jobs|
      invariant kept == Without(jobs[..i], StoredEarlier(c, stored, m, key))
    {
      WithoutNext(jobs, StoredEarlier(c, stored, m, key), i);
      if jobs[i].closed || !OpeningStored(c, stored, m, key, jobs[i]) { kept := kept + [jobs[i]]; }
    }
    assert jobs[..|jobs|] == jobs;
  }

  datatype Opening = Opening(title: string, location: string)

  /** A company's open jobs in one market that came from other sources. */
  function OpenOpenings(db: Db, company: int, m: Market, exclude: string): set<Opening> {
    set k | k in db.jobs && db.jobs[k].company == company && db.jobs[k].status == Open && k.0 != exclude
      && db.jobs[k].target in db.targets && db.targets[db.jobs[k].target].market == m
      :: Opening(db.jobs[k].content.title, db.jobs[k].content.location)
  }

  predicate Duplicates(c: Config, m: Market, j: Job, o: Opening) {
    c.titleKey(o.title) == c.titleKey(j.content.title) && SameSpot(c, m, o.location, j.content.location)
  }

  function Elsewhere(c: Config, m: Market, existing: set<Opening>): Job -> bool {
    j => exists o :: o in existing && Duplicates(c, m, j, o)
  }

  /** The jobs without the openings another source already has. */
  method DropOpenings(c: Config, jobs: seq<Job>, existing: set<Opening>, m: Market) returns (out: seq<Job>)
    ensures out == Without(jobs, Elsewhere(c, m, existing))
  {
    out := [];
    for i := 0 to |jobs|
      invariant out == Without(jobs[..i], Elsewhere(c, m, existing))
    {
      WithoutNext(jobs, Elsewhere(c, m, existing), i);
      if jobs[i].closed || !exists o :: o in existing && Duplicates(c, m, jobs[i], o) { out := out + [jobs[i]]; }
    }
    assert jobs[..|jobs|] == jobs;
  }

  // ----- The same, row by row ----------------------------------------------------------------------------

  /** `kept` are the jobs at some of the places, in order. */
  ghost predicate Sifted(jobs: seq<Job>, kept: seq<Job>, at: seq<nat>) {
    && |at| == |kept| && (forall a, b :: 0 <= a < b < |at| ==> at[a] < at[b])
    && forall a :: 0 <= a < |at| ==> at[a] < |jobs| && kept[a] == jobs[at[a]]
  }

  /** The jobs in order, without some open ones: only such as `may` go have gone, and all that
      `must`. */
  ghost predicate Sifts(jobs: seq<Job>, kept: seq<Job>, may: Job -> bool, must: Job -> bool) {
    exists at :: Sifted(jobs, kept, at) && Goes(jobs, at, may, must)
  }

  ghost predicate Goes(jobs: seq<Job>, at: seq<nat>, may: Job -> bool, must: Job -> bool) {
    forall p: nat :: p < |jobs| ==>
      if p in at then jobs[p].closed || !must(jobs[p]) else !jobs[p].closed && may(jobs[p])
  }

  lemma {:induction false} WithoutSifts(jobs: seq<Job>, drop: Job -> bool, may: Job -> bool, must: Job -> bool)
    returns (at: seq<nat>)
    requires forall j :: j in jobs && !j.closed ==> (drop(j) ==> may(j)) && (must(j) ==> drop(j))
    ensures Sifted(jobs, Without(jobs, drop), at) && Goes(jobs, at, may, must)
  {
    if jobs == [] {
      at := [];
    } else {
      var n := |jobs| - 1;
      var before := WithoutSifts(jobs[..n], drop, may, must);
      var stays := jobs[n].closed || !drop(jobs[n]);
      at := if stays then before + [n] else before;
      SiftedNext(jobs, Without(jobs[..n], drop), before, stays);
      assert jobs[n] in jobs;
      GoesNext(jobs, before, stays, may, must);
    }
  }

  lemma {:induction false} SiftedNext(jobs: seq<Job>, kept: seq<Job>, at: seq<nat>, stays: bool)
    requires jobs != [] && Sifted(jobs[..|jobs| - 1], kept, at)
    ensures var n := |jobs| - 1;
      if stays then Sifted(jobs, kept + [jobs[n]], at + [n]) else Sifted(jobs, kept, at)
  {}

  lemma {:induction false} GoesNext(jobs: seq<Job>, at: seq<nat>, stays: bool, may: Job -> bool, must: Job -> bool)
    requires jobs != [] && Goes(jobs[..|jobs| - 1], at, may, must)
    requires forall a :: 0 <= a < |at| ==> at[a] < |jobs| - 1
    requires var j := jobs[|jobs| - 1]; if stays then j.closed || !must(j) else !j.closed && may(j)
    ensures Goes(jobs, if stays then at + [|jobs| - 1] else at, may, must)
  {
    var n, all := |jobs| - 1, if stays then at + [|jobs| - 1] else at;
    forall p: nat | p < |jobs|
      ensures if p in all then jobs[p].closed || !must(jobs[p]) else !jobs[p].closed && may(jobs[p])
    {
      assert p < n ==> jobs[..n][p] == jobs[p] && (p in all <==> p in at);
    }
  }

  /** What a sifted list holds and lacks. */
  lemma {:induction false} SiftsMembers(jobs: seq<Job>, kept: seq<Job>, may: Job -> bool, must: Job -> bool)
    requires Sifts(jobs, kept, may, must)
    ensures forall j :: j in kept ==> j in jobs
    ensures forall j :: j in jobs && j !in kept ==> !j.closed && may(j)
    ensures forall j :: j in jobs && !j.closed && (may(j) <==> must(j)) ==> (j in kept <==> !must(j))
  {
    var at :| Sifted(jobs, kept, at) && Goes(jobs, at, may, must);
    forall j | j in jobs && j !in kept ensures !j.closed && may(j) {
      var p :| 0 <= p < |jobs| && jobs[p] == j;
      assert p in at <==> exists a :: 0 <= a < |at| && at[a] == p;
    }
    forall j | j in kept ensures j in jobs && (j.closed || !must(j)) {
      var a :| 0 <= a < |kept| && kept[a] == j;
      assert at[a] in at;
    }
  }

  /** An open row of another source: of this company and market, with the title of the job, and in
      the Ethiopian market at its place. */
  ghost predicate IsElsewhere(c: Config, db: Db, company: int, m: Market, provider: string, j: Job, k: Key) {
    && k in db.jobs && db.jobs[k].status == Open && k.0 != provider && db.jobs[k].company == company
    && db.jobs[k].target in db.targets && db.targets[db.jobs[k].target].market == m
    && c.titleKey(db.jobs[k].content.title) == c.titleKey(j.content.title)
    && (m == Ethiopia ==> OnePlace(c.place, db.jobs[k].content.location, j.content.location))
  }

  ghost function HasElsewhere(c: Config, db: Db, company: int, m: Market, provider: string): Job -> bool {
    j => exists k :: IsElsewhere(c, db, company, m, provider, j, k)
  }

  /** The openings looked up are those of such rows. */
  lemma {:induction false} ElsewhereIff(c: Config, db: Db, company: int, m: Market, provider: string, j: Job)
    ensures Elsewhere(c, m, OpenOpenings(db, company, m, provider))(j) <==>
      HasElsewhere(c, db, company, m, provider)(j)
  {
    var existing := OpenOpenings(db, company, m, provider);
    forall k | IsElsewhere(c, db, company, m, provider, j, k)
      ensures exists o :: o in existing && Duplicates(c, m, j, o)
    {
      var row := db.jobs[k].content;
      SamePlaceIff(c.place, row.location, j.content.location);
      assert Opening(row.title, row.location) in existing;
    }
    forall o | o in existing && Duplicates(c, m, j, o)
      ensures exists k :: IsElsewhere(c, db, company, m, provider, j, k)
    {
      var k :| k in db.jobs && db.jobs[k].company == company && db.jobs[k].status == Open && k.0 != provider
        && db.jobs[k].target in db.targets && db.targets[db.jobs[k].target].market == m
        && o == Opening(db.jobs[k].content.title, db.jobs[k].content.location);
      SamePlaceIff(c.place, o.location, j.content.location);
      assert IsElsewhere(c, db, company, m, provider, j, k);
    }
  }

  /** The opening of a job was written before: in this market, for this employer and title, and in
      the Ethiopian market at the place. */
  ghost predicate IsWritten(c: Config, earlier: seq<Write>, m: Market, employer: string, j: Job, w: Write) {
    && w in earlier && w.market == m && w.employer == employer && w.title == c.titleKey(j.content.title)
    && (m == Ethiopia ==> OnePlace(c.place, w.location, j.content.location))
  }

  ghost function HasWritten(c: Config, earlier: seq<Write>, m: Market, employer: string): Job -> bool {
    j => exists w :: IsWritten(c, earlier, m, employer, j, w)
  }

  /** The bar that joins the parts of a key does not occur in titles. */
  ghost predicate PlainTitles(c: Config, earlier: seq<Write>) {
    (forall title: string :: '|' !in c.titleKey(title)) && forall w :: w in earlier ==> '|' !in w.title
  }

  /** Just the openings written before are missing. */
  ghost predicate FreshOnly(
    c: Config, earlier: seq<Write>, m: Market, employer: string, jobs: seq<Job>, given: seq<Job>)
  {
    var has := HasWritten(c, earlier, m, employer);
    Sifts(jobs, given, j => true, has) && (PlainTitles(c, earlier) ==> Sifts(jobs, given, has, has))
  }

  lemma {:induction false} LastBar(a: string, t: string, b: string, u: string)
    requires a + "|" + t == b + "|" + u && '|' !in t && '|' !in u
    ensures a == b && t == u
  {
    BarBefore(a, t, b, u);
    BarBefore(b, u, a, t);
    var x, y := a + "|" + t, b + "|" + u;
    assert x[..|a|] == a && y[..|b|] == b && x[|a| + 1..] == t && y[|b| + 1..] == u;
  }

  lemma {:induction false} BarBefore(a: string, t: string, b: string, u: string)
    requires a + "|" + t == b + "|" + u
    ensures |a| < |b| ==> '|' in t
  {
    var x, y := a + "|" + t, b + "|" + u;
    if |a| < |b| { assert y[|b|] == '|' && x[|b|] == t[|b| - |a| - 1]; }
  }

  lemma {:induction false} KeyParts(m: Market, e: string, t: string, m': Market, e': string, t': string)
    requires KeyOf(m, e, t) == KeyOf(m', e', t') && '|' !in t && '|' !in t'
    ensures m == m' && e == e' && t == t'
  {
    LastBar(MarketName(m) + "|" + e, t, MarketName(m') + "|" + e', t');
    var x, y := MarketName(m) + "|" + e, MarketName(m') + "|" + e';
    assert x[0] == MarketName(m)[0] && y[0] == MarketName(m')[0];
    assert x[|MarketName(m)| + 1..] == e && y[|MarketName(m)| + 1..] == e';
  }

  lemma {:induction false} StoredIfWritten(
    c: Config, stored: map<string, seq<string>>, earlier: seq<Write>, m: Market, key: string, j: Job)
    requires Recorded(stored, earlier) && HasWritten(c, earlier, m, key)(j)
    ensures OpeningStored(c, stored, m, key, j)
  {
    var w :| IsWritten(c, earlier, m, key, j, w);
    var h :| 0 <= h < |earlier| && earlier[h] == w;
    var locs := StoredAt(stored, OpeningKey(c, m, key, j));
    var i :| 0 <= i < |locs| && locs[i] == w.location;
    SamePlaceIff(c.place, locs[i], j.content.location);
  }

  lemma {:induction false} WrittenIfStored(
    c: Config, stored: map<string, seq<string>>, earlier: seq<Write>, m: Market, key: string, j: Job)
    requires Recorded(stored, earlier) && OpeningStored(c, stored, m, key, j) && PlainTitles(c, earlier)
    ensures HasWritten(c, earlier, m, key)(j)
  {
    var k := OpeningKey(c, m, key, j);
    var i :| 0 <= i < |StoredAt(stored, k)| && SameSpot(c, m, StoredAt(stored, k)[i], j.content.location);
    assert WrittenAt(earlier, k, StoredAt(stored, k)[i]);
    var w :| w in earlier && KeyOfWrite(w) == k && w.location == StoredAt(stored, k)[i];
    KeyParts(w.market, w.employer, w.title, m, key, c.titleKey(j.content.title));
    SamePlaceIff(c.place, w.location, j.content.location);
    assert IsWritten(c, earlier, m, key, j, w);
  }

  /** Looking openings up on record leaves out just those written before. */
  lemma {:induction false} FreshBy(
    c: Config, stored: map<string, seq<string>>, earlier: seq<Write>, m: Market, key: string, jobs: seq<Job>)
    requires Recorded(stored, earlier)
    ensures FreshOnly(c, earlier, m, key, jobs, Without(jobs, StoredEarlier(c, stored, m, key)))
  {
    var drop, has := StoredEarlier(c, stored, m, key), HasWritten(c, earlier, m, key);
    forall j | has(j) ensures drop(j) { StoredIfWritten(c, stored, earlier, m, key, j); }
    var at := WithoutSifts(jobs, drop, j => true, has);
    if PlainTitles(c, earlier) {
      forall j | drop(j) ensures has(j) { WrittenIfStored(c, stored, earlier, m, key, j); }
      at := WithoutSifts(jobs, drop, has, has);
    }
  }

  predicate AllClosed(jobs: seq<Job>) { forall i :: 0 <= i < |jobs| ==> jobs[i].closed }

  // ----- What was written -----------------------------------------------------------------------------

  /** An opening that was written: by which collector of the run, for which job, and the
      market, the employer and the title it is compared by. */
  datatype Write = Write(
    collector: nat, target: int, id: string, market: Market, employer: string, title: string, location: string)

  function KeyOfWrite(w: Write): string { KeyOf(w.market, w.employer, w.title) }

  /** Two writes of the same opening. */
  ghost predicate SameOpening(c: Config, a: Write, b: Write) {
    && a.market == b.market && a.employer == b.employer && a.title == b.title
    && (a.market == Ethiopia ==> OnePlace(c.place, a.location, b.location))
  }

  /** What is on record is what was written. */
  ghost predicate Recorded(stored: map<string, seq<string>>, writes: seq<Write>) {
    && (forall i :: 0 <= i < |writes| ==> writes[i].location in StoredAt(stored, KeyOfWrite(writes[i])))
    && (forall k, loc :: loc in StoredAt(stored, k) ==> WrittenAt(writes, k, loc))
  }

  ghost predicate WrittenAt(writes: seq<Write>, k: string, loc: string) {
    exists w :: w in writes && KeyOfWrite(w) == k && w.location == loc
  }

  /** No two collectors have written the same opening. */
  ghost predicate NoOverlap(c: Config, writes: seq<Write>) {
    forall i, j :: 0 <= i < |writes| && 0 <= j < |writes| && writes[i].collector != writes[j].collector ==>
      !SameOpening(c, writes[i], writes[j])
  }

  lemma {:induction false} JobsOfAre(c: Config, col: Collector, jobs: seq<Job>, n: nat, key: string)
    requires n <= |jobs|
    ensures forall j :: j in JobsOf(c, col, jobs, n, key) ==> j in jobs && GroupKey(c, col, j) == key
  {
    if n > 0 { JobsOfAre(c, col, jobs, n - 1, key); }
  }

  /** The groups hold jobs of the collector, each under its own employer. */
  ghost predicate GroupsOf(c: Config, col: Collector, groups: map<string, Group>) {
    forall key, j :: key in groups && j in groups[key].jobs ==> j in JobsIn(col.found) && GroupKey(c, col, j) == key
  }

  lemma {:induction false} GroupedAre(
    c: Config, col: Collector, jobs: seq<Job>, groups: map<string, Group>, order: seq<string>)
    requires Grouped(c, col, jobs, |jobs|, groups, order) && jobs == JobsIn(col.found)
    ensures GroupsOf(c, col, groups)
  {
    forall key, j | key in groups && j in groups[key].jobs
      ensures j in JobsIn(col.found) && GroupKey(c, col, j) == key
    {
      assert GroupIs(c, col, jobs, |jobs|, groups, key);
      JobsOfAre(c, col, jobs, |jobs|, key);
    }
  }

  /** The write is of no opening recorded so far. */
  ghost predicate IsNew(c: Config, stored: map<string, seq<string>>, w: Write) {
    var locs := StoredAt(stored, KeyOfWrite(w));
    forall i :: 0 <= i < |locs| ==> !SameSpot(c, w.market, locs[i], w.location)
  }

  ghost predicate AllNew(c: Config, n: nat, stored: map<string, seq<string>>, writes: seq<Write>) {
    forall i :: 0 <= i < |writes| ==> writes[i].collector == n && IsNew(c, stored, writes[i])
  }

  // ----- One employer -----------------------------------------------------------------------------------

  /** Where a group's jobs go: the provider, the market its target gets, and the market within
      which its openings are compared. */
  function Route(col: Collector, g: Group): (string, Option<Market>, Market) {
    if g.priority && col.priorityProvider != "" then (col.priorityProvider, Some(Ethiopia), Ethiopia)
    else (col.name, col.market, if col.market.Some? then col.market.value else Worldwide)
  }

  /** What became of a group: a registered one has a target, and the market within which its
      openings are compared. */
  datatype GroupResult = Ignored | Unregistered | Registered(t: Board, market: Market, r: RunResult)

  function TouchedBy(res: GroupResult): set<int> { if res.Registered? then {res.t.id} else {} }

  predicate Clean(res: GroupResult) { res.Ignored? || (res.Registered? && res.r.err.None?) }

  function WriteOf(c: Config, n: nat, t: int, m: Market, key: string, j: Job): Write {
    Write(n, t, j.id, m, key, c.titleKey(j.content.title), j.content.location)
  }

  /** The writes of the stored jobs among those kept. */
  function WritesOf(
    c: Config, n: nat, t: int, m: Market, key: string, kept: seq<Job>, stored: set<string>): seq<Write>
  {
    if kept == [] then []
    else
      var j := kept[|kept| - 1];
      WritesOf(c, n, t, m, key, kept[..|kept| - 1], stored)
      + (if !j.closed && j.id in stored then [WriteOf(c, n, t, m, key, j)] else [])
  }

  lemma {:induction false} WritesHave(
    c: Config, n: nat, t: int, m: Market, key: string, kept: seq<Job>, stored: set<string>, j: Job)
    requires j in kept && !j.closed && j.id in stored
    ensures WriteOf(c, n, t, m, key, j) in WritesOf(c, n, t, m, key, kept, stored)
  {
    if kept[|kept| - 1] != j { WritesHave(c, n, t, m, key, kept[..|kept| - 1], stored, j); }
  }

  /** The write is that of a job of the collector, in the given market and under its own
      employer and title. */
  ghost predicate Reports(c: Config, col: Collector, n: nat, t: int, m: Market, id: string, w: Write) {
    exists j :: j in JobsIn(col.found) && !j.closed && j.id == id && w == WriteOf(c, n, t, m, GroupKey(c, col, j), j)
  }

  /** Every job that was stored is among the writes. */
  ghost predicate Accounted(c: Config, col: Collector, n: nat, res: GroupResult, writes: seq<Write>) {
    res.Registered? && res.r.err.None? ==>
      forall id :: id in res.r.stored ==> exists w :: w in writes && Reports(c, col, n, res.t.id, res.market, id, w)
  }

  lemma {:induction false} GroupAccounted(
    c: Config, col: Collector, n: nat, m: Market, key: string, t: Board, r: RunResult, g: Group, kept: seq<Job>)
    requires forall j :: j in g.jobs ==> j in JobsIn(col.found) && GroupKey(c, col, j) == key
    requires forall j :: j in kept ==> j in g.jobs
    requires r.err.None? ==> forall d :: d in r.stored ==> d in SeenIds(kept)
    ensures Accounted(c, col, n, Registered(t, m, r), WritesOf(c, n, t.id, m, key, kept, r.stored))
  {
    if r.err.None? {
      forall id | id in r.stored
        ensures exists w :: w in WritesOf(c, n, t.id, m, key, kept, r.stored) && Reports(c, col, n, t.id, m, id, w)
      {
        var j := SeenIsListed(kept, |kept|, id);
        WritesHave(c, n, t.id, m, key, kept, r.stored, j);
        assert Reports(c, col, n, t.id, m, id, WriteOf(c, n, t.id, m, key, j));
      }
    }
  }

  function Record(stored: map<string, seq<string>>, writes: seq<Write>): map<string, seq<string>> {
    if writes == [] then stored
    else
      var before, w := Record(stored, writes[..|writes| - 1]), writes[|writes| - 1];
      before[KeyOfWrite(w) := StoredAt(before, KeyOfWrite(w)) + [w.location]]
  }

  lemma {:induction false} RecordKeeps(stored: map<string, seq<string>>, writes: seq<Write>, more: seq<Write>)
    requires Recorded(stored, writes)
    ensures Recorded(Record(stored, more), writes + more)
  {
    if more == [] {
      assert writes + more == writes;
    } else {
      var front, w := more[..|more| - 1], more[|more| - 1];
      RecordKeeps(stored, writes, front);
      assert writes + more == (writes + front) + [w];
      RecordedOne(Record(stored, front), writes + front, w);
    }
  }

  lemma {:induction false} RecordedOne(stored: map<string, seq<string>>, writes: seq<Write>, w: Write)
    requires Recorded(stored, writes)
    ensures Recorded(stored[KeyOfWrite(w) := StoredAt(stored, KeyOfWrite(w)) + [w.location]], writes + [w])
  {
    var k0 := KeyOfWrite(w);
    var after, all := stored[k0 := StoredAt(stored, k0) + [w.location]], writes + [w];
    forall k, loc | loc in StoredAt(after, k) ensures WrittenAt(all, k, loc) {
      if loc in StoredAt(stored, k) {
        assert WrittenAt(writes, k, loc);
        var x :| x in writes && KeyOfWrite(x) == k && x.location == loc;
        assert x in all;
      } else {
        assert w in all;
      }
    }
  }

  lemma {:induction false} WritesAreNew(
    c: Config, n: nat, t: int, m: Market, key: string, kept: seq<Job>, ids: set<string>,
    stored: map<string, seq<string>>)
    requires forall j :: j in kept ==> j.closed || !OpeningStored(c, stored, m, key, j)
    ensures AllNew(c, n, stored, WritesOf(c, n, t, m, key, kept, ids))
  {
    if kept != [] {
      var j, front := kept[|kept| - 1], kept[..|kept| - 1];
      WritesAreNew(c, n, t, m, key, front, ids, stored);
      assert j in kept;
      assert KeyOfWrite(WriteOf(c, n, t, m, key, j)) == OpeningKey(c, m, key, j);
    }
  }

  lemma {:induction false} RecordSnoc(stored: map<string, seq<string>>, writes: seq<Write>, w: Write)
    ensures var before := Record(stored, writes);
      Record(stored, writes + [w]) == before[KeyOfWrite(w) := StoredAt(before, KeyOfWrite(w)) + [w.location]]
  {}

  lemma {:induction false} WritesSnoc(
    c: Config, n: nat, t: int, m: Market, key: string, kept: seq<Job>, ids: set<string>, i: nat)
    requires i < |kept|
    ensures var j, before := kept[i], WritesOf(c, n, t, m, key, kept[..i], ids);
      WritesOf(c, n, t, m, key, kept[..i + 1], ids) ==
        if !j.closed && j.id in ids then before + [WriteOf(c, n, t, m, key, j)] else before
  {
    assert kept[..i + 1][..i] == kept[..i];
  }

  method RecordWrites(
    c: Config, n: nat, t: int, m: Market, key: string, kept: seq<Job>, ids: set<string>,
    stored0: map<string, seq<string>>)
    returns (stored: map<string, seq<string>>)
    ensures stored == Record(stored0, WritesOf(c, n, t, m, key, kept, ids))
  {
    stored := stored0;
    for i := 0 to |kept|
      invariant stored == Record(stored0, WritesOf(c, n, t, m, key, kept[..i], ids))
    {
      var j := kept[i];
      WritesSnoc(c, n, t, m, key, kept, ids, i);
      if !j.closed && j.id in ids {
        var k := OpeningKey(c, m, key, j);
        RecordSnoc(stored0, WritesOf(c, n, t, m, key, kept[..i], ids), WriteOf(c, n, t, m, key, j));
        stored := stored[k := StoredAt(stored, k) + [j.content.location]];
      }
    }
    assert kept[..|kept|] == kept;
  }

  datatype Lookup = Absent | Failing | Got(t: Board)

  /** A target found or created by its board's key has that board. */
  lemma {:induction false} FoundTarget(db: Db, t: Board, col: Collector, g: Group, registered: bool)
    requires Valid(db) && RefersTo(db, t) && t.provider == Trim(Route(col, g).0)
    requires var k := BoardKey(t.provider, Lower(Squeeze(g.employer))); k in db.boards && db.boards[k] == t.id
    requires registered ==> db.targets[t.id].active && IsTargetOf(db, t, t.provider, Squeeze(g.employer), g.priority)
    requires registered && Route(col, g).1.Some? ==> db.targets[t.id].market == Route(col, g).1.value
    ensures IsTargetFor(db, t, Route(col, g).0, g, Route(col, g).1, registered)
    ensures Trim(t.provider) == t.provider != ""
  {
    assert ValidBoard(db, BoardKey(t.provider, Lower(Squeeze(g.employer))), t.id);
    assert ValidTarget(db, t.id, db.targets[t.id]);
    TrimmedStays(t.provider);
  }

  /** Ended postings alone register no employer: then its target is only looked for. */
  method TargetFor(s: Store, col: Collector, g: Group, kept: seq<Job>) returns (found: Lookup)
    requires Valid(s.db)
    modifies s
    ensures Valid(s.db) && old(s.clock) <= s.clock && (old(s.faulted) ==> s.faulted) && OnlyRegisters(old(s.db), s.db)
    ensures found.Got? ==> Trim(found.t.provider) == found.t.provider != ""
    ensures found.Got? ==> IsTargetFor(s.db, found.t, Route(col, g).0, g, Route(col, g).1, !AllClosed(kept))
    ensures found.Absent? ==> AllClosed(kept)
    ensures AllClosed(kept) ==> s.db == old(s.db)
  {
    var route := Route(col, g);
    var ok, t := true, None;
    if AllClosed(kept) {
      ok, t := FindTarget(s, route.0, g.employer);
      if !ok { return Failing; }
      if t.None? { return Absent; }
      assert ValidTarget(s.db, t.value.id, s.db.targets[t.value.id]);
      TrimmedStays(t.value.provider);
    } else {
      t := EnsureTarget(s, route.0, g.employer, g.priority, route.1);
      if t.None? { return Failing; }
    }
    FoundTarget(s.db, t.value, col, g, !AllClosed(kept));
    return Got(t.value);
  }

  /** The open jobs of these targets were seen no earlier than `bound`. */
  ghost predicate SeenSince(db: Db, ids: set<int>, bound: int) {
    forall k :: IsOpen(db, k) && db.jobs[k].target in ids ==> db.jobs[k].lastSeen >= bound
  }

  /** Targets keep their boards and none is switched off; if only active targets had open
      jobs, that is still so. */
  ghost predicate Grows(before: Db, db: Db) {
    && (forall u :: u in before.targets ==> KeptTarget(before, db, u))
    && (InactiveQuiet(before) ==> InactiveQuiet(db))
  }

  lemma {:induction false} GrowsOn(a: Db, b: Db, c: Db)
    requires Grows(a, b) && Grows(b, c)
    ensures Grows(a, c)
  {}

  lemma {:induction false} PersistGrows(
    before: Db, db: Db, t: Board, jobs: seq<Job>, staleAfter: int, appNow: int, since: int, now: int, r: RunResult)
    requires RefersTo(before, t) && (before.targets[t.id].active || AllClosed(jobs)) && SameTargetsBut(before, db)
    requires forall k :: PersistedAt(before, db, t, jobs, staleAfter, true, appNow, since, now, r, k)
    ensures Grows(before, db)
  {
    forall u | u in before.targets ensures KeptTarget(before, db, u) {}
    if InactiveQuiet(before) {
      if before.targets[t.id].active {
        PersistKeepsQuiet(before, db, t, jobs, staleAfter, true, appNow, since, now, r);
      } else {
        assert ListedKeys(t, jobs) == {};
        forall k | IsOpen(db, k) ensures db.jobs[k].target in db.targets && db.targets[db.jobs[k].target].active {
          assert PersistedAt(before, db, t, jobs, staleAfter, true, appNow, since, now, r, k);
          assert OnlyCloses(before, db, t, k) && IsOpen(before, k);
        }
      }
    }
  }

  lemma {:induction false} PersistSeen(
    before: Db, db: Db, t: Board, jobs: seq<Job>, staleAfter: int, appNow: int, since: int, now: int, r: RunResult,
    ids: set<int>, bound: int)
    requires forall k :: PersistedAt(before, db, t, jobs, staleAfter, true, appNow, since, now, r, k)
    requires r.err.None? && staleAfter > 0 && SeenSince(before, ids, bound) && bound <= since - staleAfter
    ensures SeenSince(db, ids + {t.id}, bound)
  {
    forall k | IsOpen(db, k) && db.jobs[k].target in ids + {t.id} ensures db.jobs[k].lastSeen >= bound {
      assert PersistedAt(before, db, t, jobs, staleAfter, true, appNow, since, now, r, k);
      if db.jobs[k].target != t.id { assert IsOpen(before, k); }
    }
  }

  /** What another source has is left out, or, if that cannot be told, nothing. */
  ghost predicate LeftOut(
    c: Config, db: Db, company: int, m: Market, provider: string, given: seq<Job>, kept: seq<Job>, certain: bool)
  {
    var has := HasElsewhere(c, db, company, m, provider);
    if certain then Sifts(given, kept, has, has) else kept == given
  }

  /** A job left out is open and has a row elsewhere; of the jobs kept no open one has, if that
      could be told. */
  lemma {:induction false} LeftOutAre(
    c: Config, db: Db, company: int, m: Market, provider: string, given: seq<Job>, kept: seq<Job>, certain: bool)
    requires LeftOut(c, db, company, m, provider, given, kept, certain)
    ensures (forall j :: j in kept ==> j in given) && (AllClosed(given) ==> AllClosed(kept))
    ensures forall j :: j in given && j !in kept ==>
      !j.closed && exists k :: IsElsewhere(c, db, company, m, provider, j, k)
    ensures certain ==> forall j, k :: j in kept && !j.closed ==> !IsElsewhere(c, db, company, m, provider, j, k)
  {
    var has := HasElsewhere(c, db, company, m, provider);
    if certain { SiftsMembers(given, kept, has, has); }
    if AllClosed(given) {
      forall a | 0 <= a < |kept| ensures kept[a].closed { assert kept[a] in kept && kept[a] in given; }
    }
  }

  method LeaveOut(
    c: Config, s: Store, company: int, m: Market, provider: string, given: seq<Job>)
    returns (kept: seq<Job>, certain: bool)
    modifies s`clock, s`faulted
    ensures old(s.clock) <= s.clock && (old(s.faulted) ==> s.faulted) && (!s.faulted ==> certain)
    ensures LeftOut(c, s.db, company, m, provider, given, kept, certain)
  {
    kept := given;
    certain := s.Reach();
    if certain {
      var existing := OpenOpenings(s.db, company, m, provider);
      kept := DropOpenings(c, given, existing, m);
      ghost var has := HasElsewhere(c, s.db, company, m, provider);
      forall j ensures Elsewhere(c, m, existing)(j) <==> has(j) { ElsewhereIff(c, s.db, company, m, provider, j); }
      ghost var at := WithoutSifts(given, Elsewhere(c, m, existing), has, has);
    }
  }

  /** The jobs handed over were ingested as a sample, the rest being open jobs another source
      has. */
  ghost predicate GroupStored(
    c: Config, before: Db, db: Db, t: Board, m: Market, provider: string, how: Handling, staleAfter: int, now: int,
    r: RunResult)
  {
    && LeftOut(c, before, t.company, m, provider, how.given, how.kept, how.certain)
    && (forall k :: PersistedAt(before, db, t, how.kept, staleAfter, true, c.appNow, how.since, now, r, k))
  }

  /** Stores the group's jobs that are not an opening another source already has. */
  method StoreGroup(
    c: Config, s: Store, col: Collector, t: Board, m: Market, provider: string, given: seq<Job>,
    ghost earlier: seq<Write>, ghost ids: set<int>, ghost bound: int)
    returns (r: RunResult, kept: seq<Job>, ghost how: Handling)
    requires Valid(s.db) && RefersTo(s.db, t) && Trim(t.provider) == t.provider != "" && col.staleAfter > 0
    requires s.db.targets[t.id].active || AllClosed(given)
    requires SeenSince(s.db, ids, bound) && bound <= s.clock - col.staleAfter
    modifies s
    ensures Valid(s.db) && old(s.clock) <= s.clock && (old(s.faulted) ==> s.faulted)
    ensures how.db == old(s.db) && how.given == given && how.kept == kept && how.earlier == earlier
    ensures !s.faulted ==> how.certain
    ensures GroupStored(c, old(s.db), s.db, t, m, provider, how, col.staleAfter, s.clock, r)
    ensures r.err.None? ==> forall d :: d in r.stored ==> d in SeenIds(kept)
    ensures Grows(old(s.db), s.db)
    ensures r.err.None? ==> SeenSince(s.db, ids + {t.id}, bound)
    ensures !s.faulted ==> (r.err.None? <==> Ingestible(kept, col.staleAfter))
  {
    var certain;
    kept, certain := LeaveOut(c, s, t.company, m, provider, given);
    LeftOutAre(c, s.db, t.company, m, provider, given, kept, certain);
    ghost var before, since := s.db, s.clock;
    how := Handling(before, given, kept, since, certain, earlier);
    ghost var stores, closes, aborted;
    r, stores, closes, aborted := Persist(s, t, kept, col.staleAfter, true, c.appNow);
    PersistGrows(before, s.db, t, kept, col.staleAfter, c.appNow, since, s.clock, r);
    if r.err.None? { PersistSeen(before, s.db, t, kept, col.staleAfter, c.appNow, since, s.clock, r, ids, bound); }
  }

  lemma {:induction false} GroupWrites(
    c: Config, db: Db, col: Collector, n: nat, m: Market, key: string, t: Board, provider: string, r: RunResult,
    g: Group, given: seq<Job>, kept: seq<Job>, certain: bool, stored: map<string, seq<string>>)
    requires forall j :: j in g.jobs ==> j in JobsIn(col.found) && GroupKey(c, col, j) == key
    requires given == Without(g.jobs, StoredEarlier(c, stored, m, key))
    requires LeftOut(c, db, t.company, m, provider, given, kept, certain)
    requires r.err.None? ==> forall d :: d in r.stored ==> d in SeenIds(kept)
    ensures var more := WritesOf(c, n, t.id, m, key, kept, r.stored);
      && Accounted(c, col, n, Registered(t, m, r), more)
      && AllNew(c, n, stored, more)
  {
    WithoutAre(g.jobs, StoredEarlier(c, stored, m, key));
    LeftOutAre(c, db, t.company, m, provider, given, kept, certain);
    WritesAreNew(c, n, t.id, m, key, kept, r.stored, stored);
    GroupAccounted(c, col, n, m, key, t, r, g, kept);
  }

  /** How a group was handled: the tables once its target was there, the jobs no earlier
      collector had stored, those of them that were ingested, and when. `certain` says that the
      openings of other sources could be looked up, and `earlier` is what was on record. */
  datatype Handling = Handling(
    db: Db, given: seq<Job>, kept: seq<Job>, since: int, certain: bool, earlier: seq<Write>)

  /** The target is that of the employer with the provider; one that was just registered is active,
      of the employer's company, and in the market asked for. */
  ghost predicate IsTargetFor(
    db: Db, t: Board, provider: string, g: Group, market: Option<Market>, registered: bool)
  {
    && RefersTo(db, t) && t.provider == Trim(provider)
    && Lower(db.targets[t.id].board) == Lower(Lower(Squeeze(g.employer)))
    && (registered ==>
          && db.targets[t.id].active && (market.Some? ==> db.targets[t.id].market == market.value)
          && t.company in db.companies && Lower(db.companies[t.company].name) == Lower(Squeeze(g.employer))
          && (g.priority ==> db.companies[t.company].priority))
  }

  /** Only what an earlier collector of the run or another source already has is left out;
      an employer without a target is ignored only if it has nothing but ended postings. */
  ghost predicate Handled(
    c: Config, before: Db, db: Db, col: Collector, key: string, g: Group, stored: map<string, seq<string>>, now: int,
    res: GroupResult, how: Handling)
  {
    var local := g.priority && col.priorityProvider != "";
    var provider := if local then col.priorityProvider else col.name;
    var asked := if local then Some(Ethiopia) else col.market;
    var m := if asked.Some? then asked.value else Worldwide;
    && how.given == Without(g.jobs, StoredEarlier(c, stored, m, key))
    && FreshOnly(c, how.earlier, m, key, g.jobs, how.given)
    && OnlyRegisters(before, how.db)
    && (res.Ignored? ==> AllClosed(how.given) && db == before)
    && (res.Unregistered? ==> db == how.db)
    && (res.Registered? ==>
          && res.market == m && IsTargetFor(how.db, res.t, provider, g, asked, !AllClosed(how.given))
          && GroupStored(c, how.db, db, res.t, m, provider, how, col.staleAfter, now, res.r))
  }

  /** What processing a group keeps and does: `more` are the openings it wrote, and `ids` the
      targets dealt with before it. */
  ghost predicate Collected(
    c: Config, before: Db, db: Db, col: Collector, n: nat, key: string, g: Group, stored0: map<string, seq<string>>,
    now: int, ids: set<int>, bound: int, res: GroupResult, stored: map<string, seq<string>>, more: seq<Write>,
    how: Handling)
  {
    && Grows(before, db) && Accounted(c, col, n, res, more)
    && (Clean(res) ==> SeenSince(db, ids + TouchedBy(res), bound))
    && AllNew(c, n, stored0, more) && stored == Record(stored0, more)
    && Handled(c, before, db, col, key, g, stored0, now, res, how)
  }

  /** The group's target may have been registered just before. */
  lemma {:induction false} CollectedAfter(
    c: Config, before: Db, mid: Db, db: Db, col: Collector, n: nat, key: string, g: Group,
    stored0: map<string, seq<string>>, now: int, ids: set<int>, bound: int, res: GroupResult,
    stored: map<string, seq<string>>, more: seq<Write>, how: Handling)
    requires OnlyRegisters(before, mid) && res.Registered? && how.db == mid
    requires Collected(c, mid, db, col, n, key, g, stored0, now, ids, bound, res, stored, more, how)
    ensures Collected(c, before, db, col, n, key, g, stored0, now, ids, bound, res, stored, more, how)
  {
    GrowsOn(before, mid, db);
  }

  /** A group without a target stores nothing. */
  lemma {:induction false} NothingCollected(
    c: Config, before: Db, db: Db, col: Collector, n: nat, key: string, g: Group, stored0: map<string, seq<string>>,
    now: int, ids: set<int>, bound: int, res: GroupResult, how: Handling)
    requires OnlyRegisters(before, db) && how.db == db && !res.Registered?
    requires SeenSince(before, ids, bound)
    requires how.given == Without(g.jobs, StoredEarlier(c, stored0, Route(col, g).2, key))
    requires Recorded(stored0, how.earlier)
    requires res.Ignored? ==> AllClosed(how.given) && db == before
    ensures Collected(c, before, db, col, n, key, g, stored0, now, ids, bound, res, stored0, [], how)
  {
    assert ids + TouchedBy(res) == ids;
    FreshBy(c, stored0, how.earlier, Route(col, g).2, key, g.jobs);
  }

  lemma {:induction false} GroupCollected(
    c: Config, before: Db, db: Db, col: Collector, n: nat, key: string, g: Group, stored0: map<string, seq<string>>,
    now: int, ids: set<int>, bound: int, t: Board, r: RunResult, how: Handling, stored: map<string, seq<string>>,
    more: seq<Write>)
    requires forall j :: j in g.jobs ==> j in JobsIn(col.found) && GroupKey(c, col, j) == key
    requires how.given == Without(g.jobs, StoredEarlier(c, stored0, Route(col, g).2, key)) && how.db == before
    requires Recorded(stored0, how.earlier)
    requires IsTargetFor(before, t, Route(col, g).0, g, Route(col, g).1, !AllClosed(how.given))
    requires GroupStored(c, before, db, t, Route(col, g).2, Route(col, g).0, how, col.staleAfter, now, r)
    requires r.err.None? ==>
      (forall d :: d in r.stored ==> d in SeenIds(how.kept)) && SeenSince(db, ids + {t.id}, bound)
    requires Grows(before, db)
    requires more == if r.err.None? then WritesOf(c, n, t.id, Route(col, g).2, key, how.kept, r.stored) else []
    requires stored == Record(stored0, more)
    ensures Collected(
      c, before, db, col, n, key, g, stored0, now, ids, bound, Registered(t, Route(col, g).2, r), stored, more, how)
  {
    FreshBy(c, stored0, how.earlier, Route(col, g).2, key, g.jobs);
    GroupWrites(c, before, col, n, Route(col, g).2, key, t, Route(col, g).0, r, g, how.given, how.kept, how.certain,
                stored0);
  }

  /** Stores what is left of a group and, if nothing failed, records what was stored. */
  method StoreAndRecord(
    c: Config, s: Store, col: Collector, n: nat, key: string, g: Group, t: Board, given: seq<Job>,
    stored0: map<string, seq<string>>, ghost earlier: seq<Write>, ghost ids: set<int>, ghost bound: int)
    returns (res: GroupResult, stored: map<string, seq<string>>, ghost more: seq<Write>, ghost how: Handling)
    requires Valid(s.db) && Trim(t.provider) == t.provider != "" && col.staleAfter > 0
    requires IsTargetFor(s.db, t, Route(col, g).0, g, Route(col, g).1, !AllClosed(given))
    requires Recorded(stored0, earlier)
    requires SeenSince(s.db, ids, bound) && bound <= s.clock - col.staleAfter
    requires forall j :: j in g.jobs ==> j in JobsIn(col.found) && GroupKey(c, col, j) == key
    requires given == Without(g.jobs, StoredEarlier(c, stored0, Route(col, g).2, key))
    modifies s
    ensures Valid(s.db) && old(s.clock) <= s.clock && (old(s.faulted) ==> s.faulted)
    ensures res.Registered? && res.t == t && how.db == old(s.db) && how.earlier == earlier
    ensures !s.faulted ==> how.certain
    ensures Collected(
      c, old(s.db), s.db, col, n, key, g, stored0, s.clock, ids, bound, res, stored, more, how)
  {
    stored := stored0;
    ghost var before := s.db;
    var route := Route(col, g);
    var r, kept;
    r, kept, how := StoreGroup(c, s, col, t, route.2, route.0, given, earlier, ids, bound);
    more := if r.err.None? then WritesOf(c, n, t.id, route.2, key, kept, r.stored) else [];
    if r.err.None? { stored := RecordWrites(c, n, t.id, route.2, key, kept, r.stored, stored0); }
    res := Registered(t, route.2, r);
    GroupCollected(c, before, s.db, col, n, key, g, stored0, s.clock, ids, bound, t, r, how, stored, more);
  }

  /** Processes one employer of a collector: leaves out the openings already stored in this
      run, finds or creates the target, stores the rest and records what was stored. */
  method CollectGroup(
    c: Config, s: Store, col: Collector, n: nat, key: string, g: Group, stored0: map<string, seq<string>>,
    ghost earlier: seq<Write>, ghost ids: set<int>, ghost bound: int)
    returns (res: GroupResult, stored: map<string, seq<string>>, ghost more: seq<Write>, ghost how: Handling)
    requires Valid(s.db) && col.staleAfter > 0
    requires SeenSince(s.db, ids, bound) && bound <= s.clock - col.staleAfter && Recorded(stored0, earlier)
    requires forall j :: j in g.jobs ==> j in JobsIn(col.found) && GroupKey(c, col, j) == key
    modifies s
    ensures how.earlier == earlier && (!s.faulted ==> how.certain)
    ensures Valid(s.db) && old(s.clock) <= s.clock && (old(s.faulted) ==> s.faulted)
    ensures Collected(
      c, old(s.db), s.db, col, n, key, g, stored0, s.clock, ids, bound, res, stored, more, how)
  {
    ghost var before := s.db;
    var kept := FilterStored(c, stored0, Route(col, g).2, key, g.jobs);
    var found := TargetFor(s, col, g, kept);
    ghost var mid := s.db;
    if found.Got? {
      res, stored, more, how := StoreAndRecord(c, s, col, n, key, g, found.t, kept, stored0, earlier, ids, bound);
      CollectedAfter(c, before, mid, s.db, col, n, key, g, stored0, s.clock, ids, bound, res, stored, more, how);
    } else {
      res, stored := if found.Absent? then Ignored else Unregistered, stored0;
      more, how := [], Handling(mid, kept, [], s.clock, true, earlier);
      NothingCollected(c, before, mid, col, n, key, g, stored0, s.clock, ids, bound, res, how);
    }
  }

  // ----- Ageing out what was not part of the run ------------------------------------------------------

  /** An active target of the collector's own provider. */
  ghost predicate IsOwnActive(db: Db, col: Collector, t: int) {
    t in db.targets && db.targets[t].active && db.targets[t].provider == col.name
  }

  /** The open jobs of the collector's own active targets were seen no earlier than `bound`. */
  ghost predicate OwnSeen(db: Db, col: Collector, bound: int) {
    forall k :: IsOpen(db, k) && IsOwnActive(db, col, db.jobs[k].target) ==> db.jobs[k].lastSeen >= bound
  }

  /** The row is as it was, or it has been closed: then it was open, had not been seen for the
      window, and belongs to an active target of the collector's own that was not touched. */
  ghost predicate AgedOut(before: Db, db: Db, col: Collector, touched: set<int>, now: int, k: Key) {
    && (k in db.jobs <==> k in before.jobs)
    && (k in before.jobs && db.jobs[k] != before.jobs[k] ==>
          && IsOpen(before, k) && IsShut(before.jobs[k], db.jobs[k])
          && before.jobs[k].lastSeen < now - col.staleAfter
          && IsOwnActive(before, col, before.jobs[k].target) && before.jobs[k].target !in touched)
  }

  lemma {:induction false} AgedOutGrow(before: Db, db: Db, col: Collector, touched: set<int>, now: int)
    requires (forall k :: AgedOut(before, db, col, touched, now, k)) && db.targets == before.targets
    ensures Grows(before, db)
  {
    if InactiveQuiet(before) {
      forall k | IsOpen(db, k) ensures db.jobs[k].target in db.targets && db.targets[db.jobs[k].target].active {
        assert AgedOut(before, db, col, touched, now, k) && IsOpen(before, k);
      }
    }
  }

  lemma {:induction false} StaleSeen(db: Db, t: int, staleAfter: int, now: int, ids: set<int>, bound: int)
    requires SeenSince(db, ids, bound) && bound <= now - staleAfter
    ensures SeenSince(DoClose(db, t, Stale(staleAfter), now), ids + {t}, bound)
  {}

  /** The first `i` listed targets have been dealt with: those in `done` hold only jobs seen
      since the bound, unless a call failed. */
  ghost predicate Swept(
    before: Db, db: Db, ts: seq<Board>, col: Collector, touched: set<int>, now: int, i: int, done: set<int>, ok: bool,
    bound: int)
  {
    && db.targets == before.targets && touched <= done
    && (forall k :: AgedOut(before, db, col, touched, now, k))
    && (ok ==> SeenSince(db, done, bound))
    && (forall j :: 0 <= j < i && j < |ts| && ts[j].provider == col.name ==> ts[j].id in done)
  }

  /** A target that is not swept, or is swept between the two times. */
  lemma {:induction false} SweptPast(
    before: Db, db: Db, ts: seq<Board>, col: Collector, touched: set<int>, at: int, now: int, i: nat, done: set<int>,
    ok: bool, bound: int)
    requires i < |ts| && Swept(before, db, ts, col, touched, at, i, done, ok, bound) && at <= now
    requires ts[i].provider == col.name ==> ts[i].id in done
    ensures Swept(before, db, ts, col, touched, now, i + 1, done, ok, bound)
  {
    forall k ensures AgedOut(before, db, col, touched, now, k) { assert AgedOut(before, db, col, touched, at, k); }
  }

  lemma {:induction false} SweptNext(
    before: Db, mid: Db, ts: seq<Board>, col: Collector, touched: set<int>, at: int, now: int, i: nat, done: set<int>,
    ok: bool, bound: int, ran: bool)
    requires i < |ts| && Swept(before, mid, ts, col, touched, at, i, done, ok, bound) && at <= now
    requires bound <= now - col.staleAfter && IsListed(before, ts[i])
    requires ts[i].provider == col.name && ts[i].id !in touched
    ensures var db := if ran then DoClose(mid, ts[i].id, Stale(col.staleAfter), now) else mid;
      Swept(before, db, ts, col, touched, now, i + 1, done + {ts[i].id}, ok && ran, bound)
  {
    var db := if ran then DoClose(mid, ts[i].id, Stale(col.staleAfter), now) else mid;
    forall k ensures AgedOut(before, db, col, touched, now, k) { assert AgedOut(before, mid, col, touched, at, k); }
    if ok && ran { StaleSeen(mid, ts[i].id, col.staleAfter, now, done, bound); }
  }

  /** What the sweep as a whole keeps and does. */
  ghost predicate SweepDone(
    before: Db, db: Db, col: Collector, touched: set<int>, now: int, ok: bool, bound: int)
  {
    && Grows(before, db) && (forall k :: AgedOut(before, db, col, touched, now, k))
    && (ok ==> OwnSeen(db, col, bound))
  }

  lemma {:induction false} SweptAll(
    before: Db, db: Db, ts: seq<Board>, col: Collector, touched: set<int>, now: int, done: set<int>, ok: bool,
    bound: int)
    requires Swept(before, db, ts, col, touched, now, |ts|, done, ok, bound)
    requires ok ==> forall id :: id in before.targets && before.targets[id].active ==> BoardOf(before, id) in ts
    ensures SweepDone(before, db, col, touched, now, ok, bound)
  {
    AgedOutGrow(before, db, col, touched, now);
    if ok {
      forall k | IsOpen(db, k) && IsOwnActive(db, col, db.jobs[k].target) ensures db.jobs[k].lastSeen >= bound {
        var b := BoardOf(before, db.jobs[k].target);
        assert b in ts;
        var j :| 0 <= j < |ts| && ts[j] == b;
      }
    }
  }

  /** One target of the sweep. */
  method SweepOne(
    s: Store, ts: seq<Board>, col: Collector, touched: set<int>, i: nat,
    ghost before: Db, ghost at: int, ghost done0: set<int>, ghost sound: bool, ghost bound: int)
    returns (ok: bool, ghost done: set<int>)
    requires Valid(s.db) && i < |ts| && IsListed(before, ts[i]) && col.staleAfter > 0
    requires Swept(before, s.db, ts, col, touched, at, i, done0, sound, bound) && at <= s.clock
    requires bound <= s.clock - col.staleAfter
    modifies s
    ensures Valid(s.db) && old(s.clock) <= s.clock && (old(s.faulted) ==> s.faulted) && (!s.faulted ==> ok)
    ensures Swept(before, s.db, ts, col, touched, s.clock, i + 1, done, sound && ok, bound)
  {
    ok, done := true, done0;
    if ts[i].provider == col.name && ts[i].id !in touched {
      ghost var mid := s.db;
      var res;
      ghost var did;
      res, did := s.Close(ts[i].id, Stale(col.staleAfter));
      SweptNext(before, mid, ts, col, touched, at, s.clock, i, done, sound, bound, res.Ok?);
      ok := res.Ok?;
      done := done + {ts[i].id};
    } else {
      SweptPast(before, s.db, ts, col, touched, at, s.clock, i, done, sound, bound);
    }
  }

  /** Ages out the jobs of the collector's own targets that no group touched. */
  method SweepAbsent(s: Store, col: Collector, touched: set<int>, ghost sound: bool, ghost bound: int)
    returns (ok: bool)
    requires Valid(s.db) && col.staleAfter > 0 && bound <= s.clock - col.staleAfter
    requires sound ==> SeenSince(s.db, touched, bound)
    modifies s
    ensures Valid(s.db) && old(s.clock) <= s.clock && (old(s.faulted) ==> s.faulted) && (!s.faulted ==> ok)
    ensures SweepDone(old(s.db), s.db, col, touched, s.clock, ok && sound, bound)
  {
    ghost var before, since, done := s.db, s.clock, touched;
    ok := s.Reach();
    if !ok {
      AgedOutGrow(before, s.db, col, touched, s.clock);
      return;
    }
    var ts := ListActive(s);
    ghost var at := s.clock;
    for i := 0 to |ts|
      invariant Valid(s.db) && since <= at == s.clock && (old(s.faulted) ==> s.faulted) && (!s.faulted ==> ok)
      invariant Swept(before, s.db, ts, col, touched, at, i, done, sound && ok, bound)
    {
      var closed;
      closed, done := SweepOne(s, ts, col, touched, i, before, at, done, sound && ok, bound);
      ok, at := ok && closed, s.clock;
    }
    SweptAll(before, s.db, ts, col, touched, s.clock, done, ok && sound, bound);
  }

  // ----- One collector, and a run of several ----------------------------------------------------------

  /** So far no opening was written by two collectors, and what was written is on record. */
  ghost predicate Apart(c: Config, stored: map<string, seq<string>>, writes: seq<Write>) {
    NoOverlap(c, writes) && Recorded(stored, writes)
  }

  lemma {:induction false} ApartNext(
    c: Config, n: nat, stored: map<string, seq<string>>, writes: seq<Write>, more: seq<Write>)
    requires Apart(c, stored, writes)
    requires AllNew(c, n, stored, more)
    ensures Apart(c, Record(stored, more), writes + more)
  {
    RecordKeeps(stored, writes, more);
    var all := writes + more;
    forall i, j | 0 <= i < |all| && 0 <= j < |all| && all[i].collector != all[j].collector
      ensures !SameOpening(c, all[i], all[j])
    {
      if i < |writes| <= j { ApartPair(c, stored, writes, i, all[j]); }
      if j < |writes| <= i { ApartPair(c, stored, writes, j, all[i]); }
    }
  }

  lemma {:induction false} ApartPair(
    c: Config, stored: map<string, seq<string>>, writes: seq<Write>, i: nat, w: Write)
    requires Recorded(stored, writes) && i < |writes| && IsNew(c, stored, w)
    ensures !SameOpening(c, writes[i], w) && !SameOpening(c, w, writes[i])
  {
    var locs := StoredAt(stored, KeyOfWrite(w));
    if writes[i].market == w.market && writes[i].employer == w.employer && writes[i].title == w.title {
      var h :| 0 <= h < |locs| && locs[h] == writes[i].location;
      SamePlaceIff(c.place, locs[h], w.location);
      SamePlaceIff(c.place, w.location, locs[h]);
    }
  }

  /** A collector's run: its groups, for each how it was handled, with the openings stored before
      it, the tables before and after it, and the time it was done; and the tables and the time
      once the sweep was over. */
  datatype GroupsRun = GroupsRun(
    groups: map<string, Group>, order: seq<string>, states: seq<Db>, stored: seq<map<string, seq<string>>>,
    times: seq<int>, hows: seq<Handling>, swept: Db, done: int)

  ghost predicate Fits(run: GroupsRun, results: seq<GroupResult>) {
    && |run.states| == |results| + 1 == |run.stored| + 1 == |run.times| + 1 == |run.hows| + 1
    && |results| <= |run.order|
  }

  ghost predicate HandledAll(c: Config, col: Collector, run: GroupsRun, results: seq<GroupResult>) {
    Fits(run, results) && forall i :: 0 <= i < |results| ==> HandledAt(c, col, run, results, i)
  }

  ghost predicate HandledAt(c: Config, col: Collector, run: GroupsRun, results: seq<GroupResult>, i: nat)
    requires Fits(run, results) && i < |results|
  {
    && run.order[i] in run.groups
    && Handled(c, run.states[i], run.states[i + 1], col, run.order[i], run.groups[run.order[i]], run.stored[i],
               run.times[i], results[i], run.hows[i])
  }

  function Extended(run: GroupsRun, db: Db, stored: map<string, seq<string>>, now: int, how: Handling): GroupsRun {
    run.(states := run.states + [db], stored := run.stored + [stored], times := run.times + [now],
         hows := run.hows + [how])
  }

  lemma {:induction false} HandledNext(
    c: Config, col: Collector, run: GroupsRun, results: seq<GroupResult>, db: Db, stored: map<string, seq<string>>,
    now: int, res: GroupResult, how: Handling)
    requires HandledAll(c, col, run, results) && |results| < |run.order| && run.order[|results|] in run.groups
    requires var key := run.order[|results|];
      Handled(c, run.states[|results|], db, col, key, run.groups[key], stored, now, res, how)
    ensures HandledAll(c, col, Extended(run, db, stored, now, how), results + [res])
  {
    var next, all := Extended(run, db, stored, now, how), results + [res];
    forall i: nat | i < |all| ensures HandledAt(c, col, next, all, i) {
      if i < |results| { assert HandledAt(c, col, run, results, i); }
    }
  }

  predicate AllClean(results: seq<GroupResult>) { forall i :: 0 <= i < |results| ==> Clean(results[i]) }

  /** The targets of the groups. */
  function Touched(results: seq<GroupResult>): set<int> {
    if results == [] then {} else Touched(results[..|results| - 1]) + TouchedBy(results[|results| - 1])
  }

  lemma {:induction false} TouchedNext(results: seq<GroupResult>, res: GroupResult)
    ensures Touched(results + [res]) == Touched(results) + TouchedBy(res)
  {
    assert (results + [res])[..|results|] == results;
  }

  ghost predicate AllAccounted(c: Config, col: Collector, n: nat, results: seq<GroupResult>, writes: seq<Write>) {
    forall i :: 0 <= i < |results| ==> Accounted(c, col, n, results[i], writes)
  }

  /** What the groups processed so far keep; `own` are the openings written for them. */
  ghost predicate GroupsDone(
    c: Config, col: Collector, n: nat, before: Db, db: Db, bound: int, writes0: seq<Write>, run: GroupsRun,
    results: seq<GroupResult>, stored: map<string, seq<string>>, own: seq<Write>)
  {
    && HandledAll(c, col, run, results) && run.states[0] == before && run.states[|results|] == db
    && Grows(before, db) && AllAccounted(c, col, n, results, own)
    && (AllClean(results) ==> SeenSince(db, Touched(results), bound))
    && OnRecord(c, n, stored, writes0, own, run.hows)
  }

  /** The openings written are on record, those of the collector as its own, and each group knew of
      the earlier ones. */
  ghost predicate OnRecord(
    c: Config, n: nat, stored: map<string, seq<string>>, writes0: seq<Write>, own: seq<Write>, hows: seq<Handling>)
  {
    Apart(c, stored, writes0 + own) && AllBy(own, n) && AllPrior(hows, writes0, writes0 + own)
  }

  lemma {:induction false} OnRecordNext(
    c: Config, n: nat, stored: map<string, seq<string>>, writes0: seq<Write>, own: seq<Write>, hows: seq<Handling>,
    more: seq<Write>, how: Handling)
    requires OnRecord(c, n, stored, writes0, own, hows) && AllNew(c, n, stored, more) && how.earlier == writes0 + own
    ensures OnRecord(c, n, Record(stored, more), writes0, own + more, hows + [how])
  {
    assert writes0 + (own + more) == (writes0 + own) + more;
    ApartNext(c, n, stored, writes0 + own, more);
    PriorNext(hows, writes0, own, more, how);
  }

  ghost predicate AllBy(writes: seq<Write>, n: nat) { forall w :: w in writes ==> w.collector == n }

  /** What was on record for a group: all that was written before its collector, and nothing that
      was not written. */
  ghost predicate IsPrior(how: Handling, writes0: seq<Write>, writes: seq<Write>) {
    (forall w :: w in writes0 ==> w in how.earlier) && (forall w :: w in how.earlier ==> w in writes)
  }

  ghost predicate AllPrior(hows: seq<Handling>, writes0: seq<Write>, writes: seq<Write>) {
    forall i :: 0 <= i < |hows| ==> IsPrior(hows[i], writes0, writes)
  }

  lemma {:induction false} PriorNext(
    hows: seq<Handling>, writes0: seq<Write>, own: seq<Write>, more: seq<Write>, how: Handling)
    requires AllPrior(hows, writes0, writes0 + own) && how.earlier == writes0 + own
    ensures AllPrior(hows + [how], writes0, writes0 + (own + more))
  {
    forall i | 0 <= i < |hows + [how]| ensures IsPrior((hows + [how])[i], writes0, writes0 + (own + more)) {
      if i < |hows| { assert IsPrior(hows[i], writes0, writes0 + own); }
    }
  }

  /** For every group the openings of other sources could be looked up. */
  ghost predicate AllCertain(hows: seq<Handling>) { forall i :: 0 <= i < |hows| ==> hows[i].certain }

  lemma {:induction false} GroupsNext(
    c: Config, col: Collector, n: nat, before: Db, mid: Db, db: Db, bound: int, writes0: seq<Write>, run: GroupsRun,
    results: seq<GroupResult>, stored: map<string, seq<string>>, own: seq<Write>,
    key: string, now: int, ids: set<int>, res: GroupResult, stored': map<string, seq<string>>, more: seq<Write>,
    how: Handling)
    requires GroupsDone(c, col, n, before, mid, bound, writes0, run, results, stored, own)
    requires how.earlier == writes0 + own
    requires |results| < |run.order| && key == run.order[|results|] && key in run.groups
    requires ids == if AllClean(results) then Touched(results) else {}
    requires Collected(c, mid, db, col, n, key, run.groups[key], stored, now, ids, bound, res, stored', more, how)
    ensures GroupsDone(c, col, n, before, db, bound, writes0, Extended(run, db, stored, now, how), results + [res],
                       stored', own + more)
  {
    GrowsOn(before, mid, db);
    HandledNext(c, col, run, results, db, stored, now, res, how);
    OnRecordNext(c, n, stored, writes0, own, run.hows, more, how);
    TouchedNext(results, res);
    var all := results + [res];
    if AllClean(all) {
      assert Clean(all[|results|]);
      assert forall i :: 0 <= i < |results| ==> results[i] == all[i];
    }
  }

  lemma {:induction false} GroupsStart(
    c: Config, col: Collector, n: nat, db: Db, bound: int, writes0: seq<Write>, run: GroupsRun,
    stored: map<string, seq<string>>)
    requires run.states == [db] && run.stored == [] && run.times == [] && run.hows == [] && Apart(c, stored, writes0)
    ensures GroupsDone(c, col, n, db, db, bound, writes0, run, [], stored, [])
  {
    assert writes0 + [] == writes0;
  }

  /** The groups of a collector, in order. */
  method CollectGroups(
    c: Config, s: Store, col: Collector, n: nat, groups: map<string, Group>, order: seq<string>,
    stored0: map<string, seq<string>>, ghost writes0: seq<Write>, ghost bound: int)
    returns (results: seq<GroupResult>, stored: map<string, seq<string>>, touched: set<int>,
      ghost own: seq<Write>, ghost run: GroupsRun)
    requires Valid(s.db) && col.staleAfter > 0 && bound <= s.clock - col.staleAfter
    requires GroupsOf(c, col, groups) && forall key :: key in order ==> key in groups
    requires Apart(c, stored0, writes0)
    modifies s
    ensures Valid(s.db) && old(s.clock) <= s.clock && (old(s.faulted) ==> s.faulted)
    ensures run.groups == groups && run.order == order && |results| == |order| && touched == Touched(results)
    ensures GroupsDone(c, col, n, old(s.db), s.db, bound, writes0, run, results, stored, own)
    ensures !s.faulted ==> AllCertain(run.hows)
  {
    ghost var before, since := s.db, s.clock;
    results, stored, touched, own := [], stored0, {}, [];
    run := GroupsRun(groups, order, [before], [], [], [], before, since);
    GroupsStart(c, col, n, before, bound, writes0, run, stored);
    for i := 0 to |order|
      invariant Valid(s.db) && since <= s.clock && (old(s.faulted) ==> s.faulted)
      invariant run.groups == groups && run.order == order && |results| == i && touched == Touched(results)
      invariant GroupsDone(c, col, n, before, s.db, bound, writes0, run, results, stored, own)
      invariant !s.faulted ==> AllCertain(run.hows)
    {
      ghost var mid, earlier, ids := s.db, stored, if AllClean(results) then touched else {};
      var res;
      ghost var more, how;
      res, stored, more, how :=
        CollectGroup(c, s, col, n, order[i], groups[order[i]], stored, writes0 + own, ids, bound);
      GroupsNext(c, col, n, before, mid, s.db, bound, writes0, run, results, earlier, own, order[i], s.clock, ids, res,
                 stored, more, how);
      TouchedNext(results, res);
      run, own := Extended(run, s.db, earlier, s.clock, how), own + more;
      results, touched := results + [res], touched + TouchedBy(res);
    }
  }

  /** The source gave something, and sets a window for unseen jobs. */
  predicate Readable(col: Collector) { col.staleAfter > 0 && !col.found.Nothing? && col.found != Partial([]) }

  /** Every employer the collector named was handled, in order, and then its other targets were
      swept; a source that gave nothing, or has no window, changes nothing. */
  ghost predicate RunOf(c: Config, col: Collector, run: GroupsRun, results: seq<GroupResult>) {
    var read := col.staleAfter > 0 && (col.found.Complete? || (col.found.Partial? && col.found.jobs != []));
    && run.states != []
    && (read ==>
          && Grouped(c, col, JobsIn(col.found), |JobsIn(col.found)|, run.groups, run.order)
          && GroupsHold(c, col, JobsIn(col.found), run.groups)
          && |results| == |run.order| && HandledAll(c, col, run, results)
          && (forall k :: AgedOut(run.states[|results|], run.swept, col, Touched(results), run.done, k)))
    && (!read ==> results == [] && run.swept == run.states[0])
  }

  /** The source was read to its end and every group went through. */
  predicate Healthy(col: Collector, results: seq<GroupResult>) {
    && col.found.Complete? && col.staleAfter > 0
    && forall i :: 0 <= i < |results| ==>
         results[i].Ignored? || (results[i].Registered? && results[i].r.err == None)
  }

  /** Runs one collector. `ok` says that nothing failed; then every open job of the
      collector's own active targets was seen within the window before the start. */
  method RunCollector(
    c: Config, s: Store, col: Collector, n: nat, stored0: map<string, seq<string>>,
    ghost writes0: seq<Write>)
    returns (results: seq<GroupResult>, ok: bool, stored: map<string, seq<string>>,
      ghost own: seq<Write>, ghost run: GroupsRun)
    requires Valid(s.db) && Apart(c, stored0, writes0)
    modifies s
    ensures Valid(s.db) && old(s.clock) <= s.clock && (old(s.faulted) ==> s.faulted) && Grows(old(s.db), s.db)
    ensures RunOf(c, col, run, results) && run.states[0] == old(s.db) && run.swept == s.db && run.done == s.clock
    ensures ok ==> Healthy(col, results) && Readable(col)
    ensures !s.faulted && Healthy(col, results) ==> ok
    ensures AllAccounted(c, col, n, results, own)
    ensures ok ==> OwnSeen(s.db, col, old(s.clock) - col.staleAfter)
    ensures OnRecord(c, n, stored, writes0, own, run.hows) && (!s.faulted ==> AllCertain(run.hows))
  {
    results, ok, stored, own := [], false, stored0, [];
    run := GroupsRun(map[], [], [s.db], [], [], [], s.db, s.clock);
    ghost var before, bound := s.db, s.clock - col.staleAfter;
    assert writes0 + own == writes0;
    if !Readable(col) { return; }
    var groups, order := GroupJobs(c, col, col.found.jobs);
    GroupedAre(c, col, col.found.jobs, groups, order);
    var touched;
    results, stored, touched, own, run := CollectGroups(c, s, col, n, groups, order, stored0, writes0, bound);
    ghost var mid := s.db;
    var swept := SweepAbsent(s, col, touched, AllClean(results), bound);
    GrowsOn(before, mid, s.db);
    RunIs(c, col, run, results, s.db, s.clock);
    ok, run := AllClean(results) && swept && col.found.Complete?, run.(swept := s.db, done := s.clock);
  }

  lemma {:induction false} RunIs(
    c: Config, col: Collector, run: GroupsRun, results: seq<GroupResult>, db: Db, now: int)
    requires Readable(col) && HandledAll(c, col, run, results) && |results| == |run.order|
    requires Grouped(c, col, JobsIn(col.found), |JobsIn(col.found)|, run.groups, run.order)
    requires GroupsHold(c, col, JobsIn(col.found), run.groups)
    requires forall k :: AgedOut(run.states[|results|], db, col, Touched(results), now, k)
    ensures RunOf(c, col, run.(swept := db, done := now), results)
  {
    var all := run.(swept := db, done := now);
    forall i | 0 <= i < |results| ensures HandledAt(c, col, all, results, i) {
      assert HandledAt(c, col, run, results, i);
    }
  }

  // ----- Several collectors -----------------------------------------------------------------------------

  ghost predicate RunAccounted(
    c: Config, cols: seq<Collector>, results: seq<seq<GroupResult>>, writes: seq<Write>)
  {
    |results| <= |cols| && forall i :: 0 <= i < |results| ==> AllAccounted(c, cols[i], i, results[i], writes)
  }

  lemma {:induction false} RunAccountedNext(
    c: Config, cols: seq<Collector>, results: seq<seq<GroupResult>>, res: seq<GroupResult>, writes: seq<Write>,
    own: seq<Write>)
    requires RunAccounted(c, cols, results, writes) && |results| < |cols|
    requires AllAccounted(c, cols[|results|], |results|, res, own)
    ensures RunAccounted(c, cols, results + [res], writes + own)
  {
    var all := results + [res];
    forall i | 0 <= i < |all| ensures AllAccounted(c, cols[i], i, all[i], writes + own) {}
  }

  /** One run after the other, from the tables before to those after. */
  ghost predicate Linked(runs: seq<GroupsRun>, before: Db, db: Db) {
    if runs == [] then db == before
    else
      var last := runs[|runs| - 1];
      last.states != [] && last.swept == db && Linked(runs[..|runs| - 1], before, last.states[0])
  }

  ghost predicate RunsOf(
    c: Config, cols: seq<Collector>, runs: seq<GroupsRun>, results: seq<seq<GroupResult>>, before: Db, db: Db)
  {
    && |runs| == |results| <= |cols| && Linked(runs, before, db)
    && forall i :: 0 <= i < |runs| ==> RunOf(c, cols[i], runs[i], results[i])
  }

  lemma {:induction false} LinkedNext(runs: seq<GroupsRun>, before: Db, db: Db, run: GroupsRun)
    requires Linked(runs, before, db) && run.states != [] && run.states[0] == db
    ensures Linked(runs + [run], before, run.swept)
  {
    assert (runs + [run])[..|runs|] == runs;
  }

  lemma {:induction false} RunsNext(
    c: Config, cols: seq<Collector>, runs: seq<GroupsRun>, results: seq<seq<GroupResult>>, before: Db, db: Db,
    run: GroupsRun, res: seq<GroupResult>)
    requires RunsOf(c, cols, runs, results, before, db) && |runs| < |cols|
    requires RunOf(c, cols[|runs|], run, res) && run.states[0] == db
    ensures RunsOf(c, cols, runs + [run], results + [res], before, run.swept)
    ensures AllHealthy(cols, results + [res]) ==> AllHealthy(cols, results) && Healthy(cols[|runs|], res)
  {
    LinkedNext(runs, before, db, run);
    var all, every := runs + [run], results + [res];
    assert every[|results|] == res && forall i :: 0 <= i < |results| ==> every[i] == results[i];
    forall i | 0 <= i < |all| ensures RunOf(c, cols[i], all[i], every[i]) {
      if i < |runs| { assert RunOf(c, cols[i], runs[i], results[i]); }
    }
  }

  /** For every group of every collector, the openings of the earlier collectors were on record,
      and nothing that was not written. */
  ghost predicate KnownWrites(runs: seq<GroupsRun>, writes: seq<Write>) {
    forall n :: 0 <= n < |runs| ==> KnownTo(runs[n].hows, n, writes)
  }

  ghost predicate KnownTo(hows: seq<Handling>, n: nat, writes: seq<Write>) {
    forall i :: 0 <= i < |hows| ==>
      && (forall w :: w in writes && w.collector < n ==> w in hows[i].earlier)
      && (forall w :: w in hows[i].earlier ==> w in writes && w.collector <= n)
  }

  lemma {:induction false} KnownNext(runs: seq<GroupsRun>, writes: seq<Write>, own: seq<Write>, run: GroupsRun)
    requires KnownWrites(runs, writes) && AllBy(own, |runs|) && AllPrior(run.hows, writes, writes + own)
    requires forall w :: w in writes ==> w.collector < |runs|
    ensures KnownWrites(runs + [run], writes + own)
  {
    var all := runs + [run];
    forall n | 0 <= n < |all| ensures KnownTo(all[n].hows, n, writes + own) {
      if n < |runs| {
        assert KnownTo(runs[n].hows, n, writes);
      } else {
        forall i | 0 <= i < |run.hows| ensures IsPrior(run.hows[i], writes, writes + own) {}
      }
    }
  }

  ghost predicate CertainRuns(runs: seq<GroupsRun>) { forall i :: 0 <= i < |runs| ==> AllCertain(runs[i].hows) }

  /** What the collectors so far have written. */
  ghost predicate Written(
    c: Config, stored: map<string, seq<string>>, writes: seq<Write>, runs: seq<GroupsRun>)
  {
    && Apart(c, stored, writes) && KnownWrites(runs, writes)
    && forall w :: w in writes ==> w.collector < |runs|
  }

  lemma {:induction false} WrittenNext(
    c: Config, stored: map<string, seq<string>>, writes: seq<Write>, own: seq<Write>, runs: seq<GroupsRun>,
    run: GroupsRun)
    requires KnownWrites(runs, writes) && forall w :: w in writes ==> w.collector < |runs|
    requires OnRecord(c, |runs|, stored, writes, own, run.hows)
    ensures Written(c, stored, writes + own, runs + [run])
  {
    KnownNext(runs, writes, own, run);
  }

  predicate AllHealthy(cols: seq<Collector>, results: seq<seq<GroupResult>>) {
    |results| <= |cols| && forall i :: 0 <= i < |results| ==> Healthy(cols[i], results[i])
  }

  /** Runs the collectors one after the other. The writes account for every job stored; if
      nothing failed, no two collectors wrote the same opening. */
  method RunCollectors(c: Config, s: Store, cols: seq<Collector>)
    returns (results: seq<seq<GroupResult>>, clean: bool, ghost writes: seq<Write>, ghost runs: seq<GroupsRun>)
    requires Valid(s.db)
    modifies s
    ensures Valid(s.db) && Grows(old(s.db), s.db) && |results| == |cols|
    ensures RunsOf(c, cols, runs, results, old(s.db), s.db)
    ensures RunAccounted(c, cols, results, writes)
    ensures NoOverlap(c, writes) && KnownWrites(runs, writes)
    ensures !s.faulted && AllHealthy(cols, results) ==> clean
    ensures !s.faulted ==> CertainRuns(runs)
  {
    ghost var before := s.db;
    var stored: map<string, seq<string>> := map[];
    results, clean, writes, runs := [], true, [], [];
    for i := 0 to |cols|
      invariant Valid(s.db) && Grows(before, s.db) && |results| == i
      invariant Written(c, stored, writes, runs) && (!s.faulted ==> CertainRuns(runs))
      invariant RunAccounted(c, cols, results, writes)
      invariant RunsOf(c, cols, runs, results, before, s.db)
      invariant !s.faulted && AllHealthy(cols, results) ==> clean
    {
      ghost var mid := s.db;
      var res, ok;
      ghost var run, own;
      res, ok, stored, own, run := RunCollector(c, s, cols[i], i, stored, writes);
      GrowsOn(before, mid, s.db);
      RunAccountedNext(c, cols, results, res, writes, own);
      RunsNext(c, cols, runs, results, before, mid, run, res);
      WrittenNext(c, stored, writes, own, runs, run);
      runs, writes := runs + [run], writes + own;
      clean := clean && ok;
      results := results + [res];
    }
  }

  // ----- Why a job is left out -------------------------------------------------------------------------------

  /** A job left out of a group has an open row of another source; where those could be looked up,
      the open jobs kept have none. */
  lemma {:induction false} LeftOutRightly(
    c: Config, before: Db, db: Db, col: Collector, key: string, g: Group, stored: map<string, seq<string>>, now: int,
    res: GroupResult, how: Handling, j: Job)
    requires Handled(c, before, db, col, key, g, stored, now, res, how) && res.Registered? && j in how.given
    ensures var m, provider := Route(col, g).2, Route(col, g).0;
      && (j !in how.kept ==> !j.closed && exists k :: IsElsewhere(c, how.db, res.t.company, m, provider, j, k))
      && (j in how.kept && !j.closed && how.certain ==>
            forall k :: !IsElsewhere(c, how.db, res.t.company, m, provider, j, k))
  {
    LeftOutAre(c, how.db, res.t.company, Route(col, g).2, Route(col, g).0, how.given, how.kept, how.certain);
  }

  /** The row is open and has the job's title. */
  ghost predicate IsRowOf(c: Config, row: Row, j: Job) {
    row.status == Open && c.titleKey(row.content.title) == c.titleKey(j.content.title)
  }

  /** A job all of whose rows, of whatever company and place, are the source's own is kept. */
  lemma {:induction false} OwnRowIsKept(
    c: Config, before: Db, db: Db, col: Collector, key: string, g: Group, stored: map<string, seq<string>>, now: int,
    res: GroupResult, how: Handling, j: Job)
    requires Handled(c, before, db, col, key, g, stored, now, res, how) && res.Registered? && j in how.given
    requires forall k :: k in how.db.jobs && IsRowOf(c, how.db.jobs[k], j) ==>
      k.0 == if g.priority && col.priorityProvider != "" then col.priorityProvider else col.name
    ensures j in how.kept
  {
    LeftOutRightly(c, before, db, col, key, g, stored, now, res, how, j);
  }

  // ----- Why a job is closed --------------------------------------------------------------------------------

  /** The group's source reports the job as ended, or the job had not been seen for the window
      when the group was done. */
  ghost predicate ClosedInGroup(col: Collector, how: Handling, now: int, res: GroupResult, k: Key) {
    && res.Registered? && k in how.db.jobs
    && (k.1 in EndedIds(how.kept) || SeenAt(how.db, res.t, how.since, res.r, k) < now - col.staleAfter)
  }

  lemma {:induction false} GroupClosesRightly(
    c: Config, before: Db, db: Db, col: Collector, key: string, g: Group, stored: map<string, seq<string>>, now: int,
    res: GroupResult, how: Handling, k: Key)
    requires Handled(c, before, db, col, key, g, stored, now, res, how) && col.staleAfter > 0
    requires IsOpen(before, k) && !IsOpen(db, k)
    ensures ClosedInGroup(col, how, now, res, k)
  {
    if res.Registered? {
      assert PersistedAt(how.db, db, res.t, how.kept, col.staleAfter, true, c.appNow, how.since, now, res.r, k);
    }
  }

  /** The job was closed by the sweep: it had not been seen for the window, and its target is one
      of the collector's own that was active and not touched. */
  ghost predicate ClosedBySweep(col: Collector, run: GroupsRun, results: seq<GroupResult>, k: Key)
    requires |results| < |run.states|
  {
    var db := run.states[|results|];
    && IsOpen(db, k) && db.jobs[k].lastSeen < run.done - col.staleAfter
    && IsOwnActive(db, col, db.jobs[k].target) && db.jobs[k].target !in Touched(results)
  }

  /** The group of the first `n` in which a job was closed for the last time. */
  lemma {:induction false} ClosedBySomeGroup(
    c: Config, col: Collector, run: GroupsRun, results: seq<GroupResult>, n: nat, k: Key) returns (i: nat)
    requires HandledAll(c, col, run, results) && n <= |results| && col.staleAfter > 0
    requires IsOpen(run.states[0], k) && !IsOpen(run.states[n], k)
    ensures i < n && IsOpen(run.states[i], k) && ClosedInGroup(col, run.hows[i], run.times[i], results[i], k)
  {
    i := n - 1;
    if IsOpen(run.states[i], k) {
      assert HandledAt(c, col, run, results, i);
      var key := run.order[i];
      GroupClosesRightly(c, run.states[i], run.states[i + 1], col, key, run.groups[key], run.stored[i], run.times[i],
                         results[i], run.hows[i], k);
    } else {
      i := ClosedBySomeGroup(c, col, run, results, n - 1, k);
    }
  }

  /** The collector that closed the job for the last time. */
  lemma {:induction false} ClosedBySomeCollector(runs: seq<GroupsRun>, before: Db, db: Db, k: Key) returns (i: nat)
    requires Linked(runs, before, db)
    requires IsOpen(before, k) && !IsOpen(db, k)
    ensures i < |runs| && runs[i].states != [] && IsOpen(runs[i].states[0], k) && !IsOpen(runs[i].swept, k)
  {
    i := |runs| - 1;
    if !IsOpen(runs[i].states[0], k) { i := ClosedBySomeCollector(runs[..i], before, runs[i].states[0], k); }
  }

  /** A job that was open before a run of collectors and is not after it was reported as ended in
      a group's listing, or had not been seen for the window, either when a group of its target was
      done or when its target, untouched by any group, was swept. Nothing else closes a job, whether
      or not something fails. */
  lemma {:induction false} OnlyTwoReasons(
    c: Config, cols: seq<Collector>, runs: seq<GroupsRun>, results: seq<seq<GroupResult>>, before: Db, db: Db, k: Key)
    returns (n: nat, i: nat)
    requires RunsOf(c, cols, runs, results, before, db)
    requires IsOpen(before, k) && !IsOpen(db, k)
    ensures n < |runs| && Readable(cols[n]) && i <= |results[n]| && Fits(runs[n], results[n])
    ensures if i < |results[n]| then
        && IsOpen(runs[n].states[i], k)
        && ClosedInGroup(cols[n], runs[n].hows[i], runs[n].times[i], results[n][i], k)
      else ClosedBySweep(cols[n], runs[n], results[n], k)
  {
    n := ClosedBySomeCollector(runs, before, db, k);
    var run := runs[n];
    assert RunOf(c, cols[n], run, results[n]);
    i := |results[n]|;
    if IsOpen(run.states[i], k) {
      assert AgedOut(run.states[i], run.swept, cols[n], Touched(results[n]), run.done, k);
    } else {
      i := ClosedBySomeGroup(c, cols[n], run, results[n], i, k);
    }
  }
}

/** Dropping the repeated postings of one opening from a result list. Being the same place
    is not transitive: a location without a city matches every Ethiopian city. */
module Openings {

  import opened Places
  import opened Text

  /** `rest` stands for the fields the comparison does not look at. */
  datatype Job = Job(id: string, employer: string, title: string, location: string, closed: bool, rest: string)

  datatype Rules = Rules(place: Reading, nameKey: string -> string, titleKey: string -> string)

  function Key(r: Rules, j: Job): string { r.nameKey(j.employer) + "|" + r.titleKey(j.title) }

  function City(r: Rules, j: Job): string { r.place.city(j.location) }

  predicate Same(r: Rules, a: Job, b: Job) { SamePlace(r.place, a.location, b.location) }

  /** The record that closes what an earlier run may have stored of the job. */
  function ClosureMarker(j: Job): Job { Job(j.id, j.employer, "", "", true, "") }

  // ----- What should survive, without the two passes ---------------------------------------

  /** An open job of a given employer, title and city. */
  predicate Of(r: Rules, j: Job, key: string, city: string) { !j.closed && Key(r, j) == key && City(r, j) == city }

  predicate Twin(r: Rules, a: Job, b: Job) { !b.closed && Of(r, a, Key(r, b), City(r, b)) }

  /** The first open job of its employer, title and city. */
  ghost predicate First(r: Rules, jobs: seq<Job>, i: nat) {
    i < |jobs| && !jobs[i].closed && forall h :: 0 <= h < i ==> !Twin(r, jobs[h], jobs[i])
  }

  /** The job names a city and is in Ethiopia. */
  predicate LocalIn(r: Rules, j: Job, key: string) {
    Key(r, j) == key && City(r, j) != "" && r.place.inEthiopia(j.location)
  }

  /** Some first job that names a city is in Ethiopia. */
  ghost predicate LocalFirst(r: Rules, jobs: seq<Job>, key: string) {
    exists h: nat :: First(r, jobs, h) && LocalIn(r, jobs[h], key)
  }

  ghost predicate Survives(r: Rules, jobs: seq<Job>, i: nat) {
    First(r, jobs, i) && (City(r, jobs[i]) == "" ==> !LocalFirst(r, jobs, Key(r, jobs[i])))
  }

  lemma {:induction false} FirstTwin(r: Rules, jobs: seq<Job>, i: nat) returns (g: nat)
    requires i < |jobs| && !jobs[i].closed
    ensures g <= i && Twin(r, jobs[g], jobs[i]) && First(r, jobs, g)
  {
    if First(r, jobs, i) {
      g := i;
    } else {
      var h: nat :| h < i && Twin(r, jobs[h], jobs[i]);
      g := FirstTwin(r, jobs, h);
    }
  }

  /** Two survivors of the same employer and title are never the same place. */
  lemma {:induction false} SurvivorsDiffer(r: Rules, jobs: seq<Job>, a: nat, b: nat)
    requires Survives(r, jobs, a) && Survives(r, jobs, b) && a != b && Key(r, jobs[a]) == Key(r, jobs[b])
    ensures !Same(r, jobs[a], jobs[b])
  {}

  /** Every open job that is dropped is the same place as a survivor of its employer and title. */
  lemma {:induction false} DroppedHasSurvivor(r: Rules, jobs: seq<Job>, i: nat) returns (g: nat)
    requires i < |jobs| && !jobs[i].closed && !Survives(r, jobs, i)
    ensures g != i && Survives(r, jobs, g) && Key(r, jobs[g]) == Key(r, jobs[i]) && Same(r, jobs[g], jobs[i])
    ensures g < i || (City(r, jobs[i]) == "" && City(r, jobs[g]) != "")
  {
    if City(r, jobs[i]) == "" && LocalFirst(r, jobs, Key(r, jobs[i])) {
      g :| First(r, jobs, g) && LocalIn(r, jobs[g], Key(r, jobs[i]));
    } else {
      g := FirstTwin(r, jobs, i);
    }
  }

  // ----- The same, field by field ------------------------------------------------------------

  /** The same employer and title, at the same place. */
  ghost predicate SameOpening(r: Rules, a: Job, b: Job) {
    && r.nameKey(a.employer) == r.nameKey(b.employer)
    && r.titleKey(a.title) == r.titleKey(b.title)
    && OnePlace(r.place, a.location, b.location)
  }

  /** The posting at `g` stays open and is the opening of the one at `i`. It comes first, or
      it names a city and the other does not. */
  ghost predicate StandsFor(r: Rules, jobs: seq<Job>, out: seq<Job>, g: nat, i: nat)
    requires i < |jobs| == |out|
  {
    && g < |jobs| && !out[g].closed && SameOpening(r, jobs[g], jobs[i])
    && (g < i || (r.place.city(jobs[i].location) == "" && r.place.city(jobs[g].location) != ""))
  }

  /** The bar that joins the two keys does not occur in the first. */
  ghost predicate BarFree(r: Rules, jobs: seq<Job>) { forall j :: j in jobs ==> '|' !in r.nameKey(j.employer) }

  /** Unless it was closed or is kept as it is, a posting gives way to a closed one of its id
      and employer. */
  ghost predicate Marked(jobs: seq<Job>, out: seq<Job>) {
    |out| == |jobs| && forall i :: 0 <= i < |jobs| ==>
      out[i] == jobs[i] || (!jobs[i].closed && out[i] == Job(jobs[i].id, jobs[i].employer, "", "", true, ""))
  }

  ghost predicate NoRepeats(r: Rules, jobs: seq<Job>, out: seq<Job>)
    requires |jobs| == |out|
  {
    forall i: nat, j: nat :: i < j < |jobs| && !out[i].closed && !out[j].closed ==>
      !SameOpening(r, jobs[i], jobs[j])
  }

  /** Whatever was closed here has an opening that stands for it. */
  ghost predicate OnlyRepeatsClosed(r: Rules, jobs: seq<Job>, out: seq<Job>)
    requires |jobs| == |out|
  {
    forall i: nat :: i < |jobs| && !jobs[i].closed && out[i].closed ==> exists g: nat :: StandsFor(r, jobs, out, g, i)
  }

  lemma {:induction false} KeysJoin(a: string, b: string, c: string, d: string)
    requires '|' !in a && '|' !in c && a + "|" + b == c + "|" + d
    ensures a == c && b == d
  {
    BarAt(a, b, c, d);
    BarAt(c, d, a, b);
    var s, t := a + "|" + b, c + "|" + d;
    assert s[..|a|] == a && t[..|c|] == c && s[|a| + 1..] == b && t[|c| + 1..] == d;
  }

  lemma {:induction false} BarAt(a: string, b: string, c: string, d: string)
    requires a + "|" + b == c + "|" + d
    ensures |a| < |c| ==> '|' in c
  {
    var s, t := a + "|" + b, c + "|" + d;
    if |a| < |c| { assert s[|a|] == '|' && t[|a|] == c[|a|]; }
  }

  ghost predicate Result(r: Rules, jobs: seq<Job>, out: seq<Job>) {
    |out| == |jobs| && forall i :: 0 <= i < |jobs| ==>
      out[i] == if jobs[i].closed || Survives(r, jobs, i) then jobs[i] else ClosureMarker(jobs[i])
  }

  lemma {:induction false} ResultNoRepeats(r: Rules, jobs: seq<Job>, out: seq<Job>)
    requires Result(r, jobs, out)
    ensures Marked(jobs, out) && NoRepeats(r, jobs, out)
  {
    forall i: nat, j: nat | i < j < |jobs| && !out[i].closed && !out[j].closed
      ensures !SameOpening(r, jobs[i], jobs[j])
    {
      SamePlaceIff(r.place, jobs[i].location, jobs[j].location);
      assert !jobs[i].closed && !jobs[j].closed;
    }
  }

  lemma {:induction false} ResultStands(r: Rules, jobs: seq<Job>, out: seq<Job>, i: nat) returns (g: nat)
    requires Result(r, jobs, out) && BarFree(r, jobs) && i < |jobs| && !jobs[i].closed && out[i].closed
    ensures StandsFor(r, jobs, out, g, i)
  {
    g := DroppedHasSurvivor(r, jobs, i);
    var a, b := jobs[g], jobs[i];
    KeysJoin(r.nameKey(a.employer), r.titleKey(a.title), r.nameKey(b.employer), r.titleKey(b.title));
    SamePlaceIff(r.place, a.location, b.location);
  }

  lemma {:induction false} ResultOnlyRepeats(r: Rules, jobs: seq<Job>, out: seq<Job>)
    requires Result(r, jobs, out) && BarFree(r, jobs)
    ensures OnlyRepeatsClosed(r, jobs, out)
  {
    forall i: nat | i < |jobs| && !jobs[i].closed && out[i].closed
      ensures exists g: nat :: StandsFor(r, jobs, out, g, i)
    {
      var g := ResultStands(r, jobs, out, i);
    }
  }

  // ----- The two passes ----------------------------------------------------------------------

  /** Pass 0 takes the jobs that name a city, pass 1 the others; both have come to index `i`. */
  predicate Processed(r: Rules, jobs: seq<Job>, pass: nat, i: nat, h: nat)
    requires h < |jobs|
  {
    if City(r, jobs[h]) != "" then pass > 0 || h < i else pass > 1 || (pass == 1 && h < i)
  }

  /** The open jobs a pass looks at. */
  predicate Due(r: Rules, j: Job, pass: nat) { !j.closed && (City(r, j) != "" <==> pass == 0) }

  /** `locs` are the locations kept so far for an employer and title. */
  ghost predicate KeptFor(r: Rules, jobs: seq<Job>, pass: nat, i: nat, key: string, locs: seq<string>) {
    && (forall loc :: loc in locs ==> Keeps(r, jobs, pass, i, key, loc))
    && (forall h: nat :: h < |jobs| && Processed(r, jobs, pass, i, h) && Survives(r, jobs, h) && Key(r, jobs[h]) == key
          ==> jobs[h].location in locs)
  }

  ghost predicate Keeps(r: Rules, jobs: seq<Job>, pass: nat, i: nat, key: string, loc: string) {
    exists h: nat :: h < |jobs| && Processed(r, jobs, pass, i, h) && Survives(r, jobs, h) && Key(r, jobs[h]) == key
      && jobs[h].location == loc
  }

  ghost predicate Matches(r: Rules, locs: seq<string>, j: Job) {
    exists a :: 0 <= a < |locs| && SamePlace(r.place, locs[a], j.location)
  }

  ghost predicate Keeping(r: Rules, jobs: seq<Job>, pass: nat, i: nat, kept: map<string, seq<string>>) {
    forall key :: KeptFor(r, jobs, pass, i, key, KeptAt(kept, key))
  }

  /** The job has been looked at and found to be repeated. */
  ghost predicate Dropped(r: Rules, jobs: seq<Job>, pass: nat, i: nat, h: nat)
    requires h < |jobs|
  {
    !jobs[h].closed && Processed(r, jobs, pass, i, h) && !Survives(r, jobs, h)
  }

  /** Comparing with what is kept decides exactly whether the job survives. */
  lemma {:induction false} KeptDecides(r: Rules, jobs: seq<Job>, pass: nat, i: nat, kept: map<string, seq<string>>)
    requires pass < 2 && i < |jobs| && Due(r, jobs[i], pass) && Keeping(r, jobs, pass, i, kept)
    ensures Matches(r, KeptAt(kept, Key(r, jobs[i])), jobs[i]) <==> !Survives(r, jobs, i)
  {
    var key, locs := Key(r, jobs[i]), KeptAt(kept, Key(r, jobs[i]));
    assert KeptFor(r, jobs, pass, i, key, locs);
    if Survives(r, jobs, i) {
      forall a | 0 <= a < |locs| ensures !SamePlace(r.place, locs[a], jobs[i].location) {
        assert Keeps(r, jobs, pass, i, key, locs[a]);
        var h: nat :| h < |jobs| && Processed(r, jobs, pass, i, h) && Survives(r, jobs, h)
          && Key(r, jobs[h]) == key && jobs[h].location == locs[a];
        SurvivorsDiffer(r, jobs, h, i);
      }
    } else {
      var g := SurvivorBefore(r, jobs, pass, i);
      var a :| 0 <= a < |locs| && locs[a] == jobs[g].location;
      assert SamePlace(r.place, locs[a], jobs[i].location);
    }
  }

  lemma {:induction false} DroppedStep(r: Rules, jobs: seq<Job>, pass: nat, i: nat)
    requires pass < 2 && i < |jobs|
    ensures forall h: nat :: h < |jobs| && h != i ==>
      (Dropped(r, jobs, pass, i + 1, h) <==> Dropped(r, jobs, pass, i, h))
    ensures Due(r, jobs[i], pass) ==>
      !Dropped(r, jobs, pass, i, i) && (Dropped(r, jobs, pass, i + 1, i) <==> !Survives(r, jobs, i))
    ensures !Due(r, jobs[i], pass) ==> (Dropped(r, jobs, pass, i + 1, i) <==> Dropped(r, jobs, pass, i, i))
  {}

  lemma {:induction false} SurvivorBefore(r: Rules, jobs: seq<Job>, pass: nat, i: nat) returns (g: nat)
    requires pass < 2 && i < |jobs| && Due(r, jobs[i], pass)
    requires !Survives(r, jobs, i)
    ensures Survives(r, jobs, g) && Key(r, jobs[g]) == Key(r, jobs[i]) && Same(r, jobs[g], jobs[i])
    ensures Processed(r, jobs, pass, i, g)
  {
    if City(r, jobs[i]) == "" && LocalFirst(r, jobs, Key(r, jobs[i])) {
      g := DroppedHasSurvivor(r, jobs, i);
    } else {
      g := FirstTwin(r, jobs, i);
      assert g < i;
    }
  }

  function KeptAt(kept: map<string, seq<string>>, key: string): seq<string> {
    if key in kept then kept[key] else []
  }

  method DedupeOpenings(r: Rules, jobs: seq<Job>) returns (out: seq<Job>)
    ensures Result(r, jobs, out)
    ensures Marked(jobs, out) && NoRepeats(r, jobs, out)
    ensures BarFree(r, jobs) ==> OnlyRepeatsClosed(r, jobs, out)
  {
    var kept: map<string, seq<string>> := map[];
    var drop := new bool[|jobs|](_ => false);
    for pass := 0 to 2
      invariant forall h: nat :: h < |jobs| ==> (drop[h] <==> Dropped(r, jobs, pass, 0, h))
      invariant Keeping(r, jobs, pass, 0, kept)
    {
      kept := Pass(r, jobs, pass, kept, drop);
    }
    out := [];
    for i := 0 to |jobs|
      invariant |out| == i
      invariant forall h :: 0 <= h < i ==>
        out[h] == if jobs[h].closed || Survives(r, jobs, h) then jobs[h] else ClosureMarker(jobs[h])
    {
      out := out + [if drop[i] then ClosureMarker(jobs[i]) else jobs[i]];
    }
    ResultNoRepeats(r, jobs, out);
    if BarFree(r, jobs) { ResultOnlyRepeats(r, jobs, out); }
  }

  method Pass(r: Rules, jobs: seq<Job>, pass: nat, kept0: map<string, seq<string>>, drop: array<bool>)
    returns (kept: map<string, seq<string>>)
    requires pass < 2 && drop.Length == |jobs|
    requires forall h: nat :: h < |jobs| ==> (drop[h] <==> Dropped(r, jobs, pass, 0, h))
    requires Keeping(r, jobs, pass, 0, kept0)
    modifies drop
    ensures forall h: nat :: h < |jobs| ==> (drop[h] <==> Dropped(r, jobs, pass, |jobs|, h))
    ensures Keeping(r, jobs, pass, |jobs|, kept)
  {
    kept := kept0;
    for i := 0 to |jobs|
      invariant forall h: nat :: h < |jobs| ==> (drop[h] <==> Dropped(r, jobs, pass, i, h))
      invariant Keeping(r, jobs, pass, i, kept)
    {
      DroppedStep(r, jobs, pass, i);
      if jobs[i].closed || HasCity(r.place, jobs[i].location) != (pass == 0) {
        SkipKeeps(r, jobs, pass, i, kept);
        continue;
      }
      drop[i], kept := Settle(r, jobs, pass, i, kept);
    }
  }

  /** Compares a job with what is kept, and keeps it if nothing is the same place. */
  method Settle(r: Rules, jobs: seq<Job>, pass: nat, i: nat, before: map<string, seq<string>>)
    returns (same: bool, kept: map<string, seq<string>>)
    requires pass < 2 && i < |jobs| && Due(r, jobs[i], pass) && Keeping(r, jobs, pass, i, before)
    ensures same <==> !Survives(r, jobs, i)
    ensures Keeping(r, jobs, pass, i + 1, kept)
  {
    var key := Key(r, jobs[i]);
    same := AnySame(r, KeptAt(before, key), jobs[i]);
    KeptDecides(r, jobs, pass, i, before);
    kept := if same then before else before[key := KeptAt(before, key) + [jobs[i].location]];
    StepKeeps(r, jobs, pass, i, before, kept);
  }

  method AnySame(r: Rules, locs: seq<string>, j: Job) returns (same: bool)
    ensures same <==> Matches(r, locs, j)
  {
    for a := 0 to |locs|
      invariant forall b :: 0 <= b < a ==> !SamePlace(r.place, locs[b], j.location)
    {
      if SamePlace(r.place, locs[a], j.location) { return true; }
    }
    return false;
  }

  lemma {:induction false} SkipKeeps(r: Rules, jobs: seq<Job>, pass: nat, i: nat, kept: map<string, seq<string>>)
    requires pass < 2 && i < |jobs| && !Due(r, jobs[i], pass)
    requires Keeping(r, jobs, pass, i, kept)
    ensures Keeping(r, jobs, pass, i + 1, kept)
  {}

  /** The locations kept for one key after a job is looked at. */
  lemma {:induction false} StepKeepsFor(
    r: Rules, jobs: seq<Job>, pass: nat, i: nat, key: string, locs: seq<string>, now: seq<string>)
    requires pass < 2 && i < |jobs| && Due(r, jobs[i], pass) && KeptFor(r, jobs, pass, i, key, locs)
    requires now == if Survives(r, jobs, i) && key == Key(r, jobs[i]) then locs + [jobs[i].location] else locs
    ensures KeptFor(r, jobs, pass, i + 1, key, now)
  {
    forall loc | loc in now ensures Keeps(r, jobs, pass, i + 1, key, loc) {
      if loc in locs {
      } else {
        assert Processed(r, jobs, pass, i + 1, i);
      }
    }
  }

  lemma {:induction false} StepKeeps(
    r: Rules, jobs: seq<Job>, pass: nat, i: nat, before: map<string, seq<string>>, kept: map<string, seq<string>>)
    requires pass < 2 && i < |jobs| && Due(r, jobs[i], pass)
    requires Keeping(r, jobs, pass, i, before)
    requires kept == if Survives(r, jobs, i)
      then before[Key(r, jobs[i]) := KeptAt(before, Key(r, jobs[i])) + [jobs[i].location]] else before
    ensures Keeping(r, jobs, pass, i + 1, kept)
  {
    forall key ensures KeptFor(r, jobs, pass, i + 1, key, KeptAt(kept, key)) {
      StepKeepsFor(r, jobs, pass, i, key, KeptAt(before, key), KeptAt(kept, key));
    }
  }

  // ----- When the order of the results matters --------------------------------------------------

  /** What survives, as employer and title with city. By `SurvivorsDiffer` no pair stands
      for two survivors. */
  ghost function Outcome(r: Rules, jobs: seq<Job>): set<(string, string)> {
    set i | 0 <= i < |jobs| && Survives(r, jobs, i) :: (Key(r, jobs[i]), City(r, jobs[i]))
  }

  /** An open job of an employer and title that names a city. */
  predicate InCity(r: Rules, j: Job, key: string) { !j.closed && Key(r, j) == key && City(r, j) != "" }

  ghost predicate AllLocal(r: Rules, jobs: seq<Job>, key: string, city: string) {
    forall j :: j in jobs && Of(r, j, key, city) ==> r.place.inEthiopia(j.location)
  }

  /** Some city all of whose postings of this employer and title are in Ethiopia. */
  ghost predicate SomeCityLocal(r: Rules, jobs: seq<Job>, key: string) {
    exists j :: j in jobs && InCity(r, j, key) && AllLocal(r, jobs, key, City(r, j))
  }

  ghost predicate NoCityLocal(r: Rules, jobs: seq<Job>, key: string) {
    forall j :: j in jobs && InCity(r, j, key) ==> !r.place.inEthiopia(j.location)
  }

  /** For every employer and title with an open job naming no city: either some city is
      in Ethiopia in all of its postings, or no posting that names a city is. */
  ghost predicate OrderFree(r: Rules, jobs: seq<Job>) {
    forall j :: j in jobs && Of(r, j, Key(r, j), "") ==>
      SomeCityLocal(r, jobs, Key(r, j)) || NoCityLocal(r, jobs, Key(r, j))
  }

  lemma {:induction false} OutcomeHas(r: Rules, jobs: seq<Job>, key: string, city: string)
    ensures (key, city) in Outcome(r, jobs) <==>
      (exists j :: j in jobs && Of(r, j, key, city)) && (city == "" ==> !LocalFirst(r, jobs, key))
  {
    if (key, city) in Outcome(r, jobs) {
      var i :| 0 <= i < |jobs| && Survives(r, jobs, i) && (Key(r, jobs[i]), City(r, jobs[i])) == (key, city);
      assert Of(r, jobs[i], key, city);
    }
    if (exists j :: j in jobs && Of(r, j, key, city)) && (city == "" ==> !LocalFirst(r, jobs, key)) {
      var i: nat :| i < |jobs| && Of(r, jobs[i], key, city);
      var g := FirstTwin(r, jobs, i);
      assert Survives(r, jobs, g);
    }
  }

  lemma {:induction false} SameMembers(a: seq<Job>, b: seq<Job>, j: Job)
    requires multiset(a) == multiset(b)
    ensures j in a <==> j in b
  {
    assert j in multiset(a) <==> j in multiset(b);
  }

  lemma {:induction false} LocalCityIsFirst(r: Rules, jobs: seq<Job>, key: string)
    requires SomeCityLocal(r, jobs, key)
    ensures LocalFirst(r, jobs, key)
  {
    var j :| j in jobs && InCity(r, j, key) && AllLocal(r, jobs, key, City(r, j));
    var i: nat :| i < |jobs| && jobs[i] == j;
    var g := FirstTwin(r, jobs, i);
    assert jobs[g] in jobs && LocalIn(r, jobs[g], key);
  }

  lemma {:induction false} SomeCityLocalMoves(r: Rules, jobs: seq<Job>, other: seq<Job>, key: string)
    requires multiset(other) == multiset(jobs) && SomeCityLocal(r, jobs, key)
    ensures SomeCityLocal(r, other, key)
  {
    var j :| j in jobs && InCity(r, j, key) && AllLocal(r, jobs, key, City(r, j));
    SameMembers(other, jobs, j);
    forall k | k in other && Of(r, k, key, City(r, j)) ensures r.place.inEthiopia(k.location) {
      SameMembers(other, jobs, k);
    }
    assert AllLocal(r, other, key, City(r, j));
  }

  lemma {:induction false} OrderFreeLocal(r: Rules, jobs: seq<Job>, other: seq<Job>, key: string)
    requires multiset(other) == multiset(jobs)
    requires SomeCityLocal(r, jobs, key) || NoCityLocal(r, jobs, key)
    ensures LocalFirst(r, other, key) <==> SomeCityLocal(r, jobs, key)
  {
    if SomeCityLocal(r, jobs, key) {
      SomeCityLocalMoves(r, jobs, other, key);
      LocalCityIsFirst(r, other, key);
    } else if LocalFirst(r, other, key) {
      var h: nat :| First(r, other, h) && LocalIn(r, other[h], key);
      SameMembers(other, jobs, other[h]);
      assert InCity(r, other[h], key);
    }
  }

  /** The condition suffices. */
  lemma {:induction false} OrderFreeSuffices(r: Rules, jobs: seq<Job>, other: seq<Job>)
    requires OrderFree(r, jobs) && multiset(other) == multiset(jobs)
    ensures Outcome(r, other) == Outcome(r, jobs)
  {
    forall key: string, city: string ensures (key, city) in Outcome(r, other) <==> (key, city) in Outcome(r, jobs) {
      OutcomeHas(r, other, key, city);
      OutcomeHas(r, jobs, key, city);
      forall j ensures j in other <==> j in jobs { SameMembers(other, jobs, j); }
      if city == "" && exists j :: j in jobs && Of(r, j, key, "") {
        OrderFreeLocal(r, jobs, other, key);
        OrderFreeLocal(r, jobs, jobs, key);
      }
    }
  }

  function Filter(r: Rules, jobs: seq<Job>, local: bool): seq<Job> {
    if jobs == [] then []
    else (if r.place.inEthiopia(jobs[0].location) == local then [jobs[0]] else []) + Filter(r, jobs[1..], local)
  }

  lemma {:induction false} FilterMember(r: Rules, jobs: seq<Job>, local: bool, j: Job)
    ensures j in Filter(r, jobs, local) <==> j in jobs && r.place.inEthiopia(j.location) == local
  {
    if jobs != [] { FilterMember(r, jobs[1..], local, j); }
  }

  lemma {:induction false} FilterSplits(r: Rules, jobs: seq<Job>)
    ensures multiset(Filter(r, jobs, false)) + multiset(Filter(r, jobs, true)) == multiset(jobs)
  {
    if jobs != [] {
      FilterSplits(r, jobs[1..]);
      assert jobs == [jobs[0]] + jobs[1..];
    }
  }

  function ForeignThenLocal(r: Rules, jobs: seq<Job>): seq<Job> { Filter(r, jobs, false) + Filter(r, jobs, true) }

  /** With the foreign spellings first, no first job of the key is local. */
  lemma {:induction false} ForeignFirst(r: Rules, jobs: seq<Job>, key: string)
    requires !SomeCityLocal(r, jobs, key)
    ensures !LocalFirst(r, ForeignThenLocal(r, jobs), key)
  {
    var all := ForeignThenLocal(r, jobs);
    if LocalFirst(r, all, key) {
      var h: nat :| First(r, all, h) && LocalIn(r, all[h], key);
      var g := ForeignSpelling(r, jobs, key, h);
      assert false;
    }
  }

  lemma {:induction false} ForeignSpelling(r: Rules, jobs: seq<Job>, key: string, h: nat) returns (g: nat)
    requires !SomeCityLocal(r, jobs, key)
    requires h < |ForeignThenLocal(r, jobs)|
    requires var j := ForeignThenLocal(r, jobs)[h]; !j.closed && LocalIn(r, j, key)
    ensures g < h && Twin(r, ForeignThenLocal(r, jobs)[g], ForeignThenLocal(r, jobs)[h])
  {
    var foreign, all := Filter(r, jobs, false), ForeignThenLocal(r, jobs);
    var j := all[h];
    FilterMember(r, jobs, false, j);
    FilterMember(r, jobs, true, j);
    forall x | 0 <= x < |foreign| ensures all[x] != j { assert foreign[x] in foreign; }
    assert Filter(r, jobs, true)[h - |foreign|] == j;
    assert InCity(r, j, key);
    assert !AllLocal(r, jobs, key, City(r, j));
    var k :| k in jobs && Of(r, k, key, City(r, j)) && !r.place.inEthiopia(k.location);
    FilterMember(r, jobs, false, k);
    g :| 0 <= g < |foreign| && foreign[g] == k;
    assert all[g] == k;
  }

  /** With a local posting first, some first job of the key is local. */
  lemma {:induction false} LocalAtFront(r: Rules, jobs: seq<Job>, i: nat)
    requires i < |jobs| && !jobs[i].closed && City(r, jobs[i]) != "" && r.place.inEthiopia(jobs[i].location)
    ensures LocalFirst(r, [jobs[i]] + (jobs[..i] + jobs[i + 1..]), Key(r, jobs[i]))
    ensures multiset([jobs[i]] + (jobs[..i] + jobs[i + 1..])) == multiset(jobs)
  {
    var all := [jobs[i]] + (jobs[..i] + jobs[i + 1..]);
    assert First(r, all, 0) && all[0] == jobs[i] && LocalIn(r, all[0], Key(r, jobs[i]));
    assert jobs == jobs[..i] + ([jobs[i]] + jobs[i + 1..]);
  }

  /** Where the condition fails, two orders of the same jobs disagree. */
  lemma {:induction false} OrderMatters(r: Rules, jobs: seq<Job>) returns (one: seq<Job>, two: seq<Job>)
    requires !OrderFree(r, jobs)
    ensures multiset(one) == multiset(two) == multiset(jobs) && Outcome(r, one) != Outcome(r, two)
  {
    var j :| j in jobs && Of(r, j, Key(r, j), "")
      && !SomeCityLocal(r, jobs, Key(r, j)) && !NoCityLocal(r, jobs, Key(r, j));
    var key := Key(r, j);
    var c :| c in jobs && InCity(r, c, key) && r.place.inEthiopia(c.location);
    var i: nat :| i < |jobs| && jobs[i] == c;
    FilterSplits(r, jobs);
    one := ForeignThenLocal(r, jobs);
    two := [jobs[i]] + (jobs[..i] + jobs[i + 1..]);
    ForeignFirst(r, jobs, key);
    LocalAtFront(r, jobs, i);
    SameMembers(one, jobs, j);
    OutcomeHas(r, one, key, "");
    OutcomeHas(r, two, key, "");
  }

  /** Every order of the input gives the same survivors exactly under the condition. */
  lemma {:induction false} OrderDoesNotMatterIff(r: Rules, jobs: seq<Job>)
    ensures OrderFree(r, jobs) <==>
      forall other :: multiset(other) == multiset(jobs) ==> Outcome(r, other) == Outcome(r, jobs)
  {
    if OrderFree(r, jobs) {
      forall other | multiset(other) == multiset(jobs) ensures Outcome(r, other) == Outcome(r, jobs) {
        OrderFreeSuffices(r, jobs, other);
      }
    } else {
      var one, two := OrderMatters(r, jobs);
      assert !(Outcome(r, one) == Outcome(r, jobs) && Outcome(r, two) == Outcome(r, jobs));
    }
  }

  /** It suffices that spellings of one city agree on whether they are in Ethiopia. */
  lemma {:induction false} AgreeingCitiesAreOrderFree(r: Rules, jobs: seq<Job>)
    requires forall a, b :: a in jobs && b in jobs && City(r, a) == City(r, b) != "" ==>
      r.place.inEthiopia(a.location) == r.place.inEthiopia(b.location)
    ensures OrderFree(r, jobs)
  {}

  function Posting(location: string): Job { Job(location, "Acme", "Nurse", location, false, "") }

  /** Two spellings of Hawassa that disagree, and a posting without a place; `HawassaKey`
      gives the cities. */
  lemma {:induction false} HawassaOrderMatters(r: Rules)
    requires r.place.city("Hawassa") == r.place.city("Hawassa, Ethiopia") == "hawassa" && r.place.city("") == ""
    requires !r.place.inEthiopia("Hawassa") && r.place.inEthiopia("Hawassa, Ethiopia")
    ensures !OrderFree(r, [Posting("Hawassa"), Posting("Hawassa, Ethiopia"), Posting("")])
  {
    TwoSpellings(r, Posting("Hawassa"), Posting("Hawassa, Ethiopia"), Posting(""));
  }

  lemma {:induction false} TwoSpellings(r: Rules, a: Job, b: Job, none: Job)
    requires var k := Key(r, none); Of(r, a, k, City(r, b)) && Of(r, b, k, City(r, a)) && Of(r, none, k, "")
    requires City(r, a) != "" && !r.place.inEthiopia(a.location) && r.place.inEthiopia(b.location)
    ensures !OrderFree(r, [a, b, none])
  {}

  lemma {:induction false} HawassaKey(tail: string)
    requires tail == "" || tail[0] == ','
    ensures CityKey("Hawassa" + tail) == "hawassa"
  {
    assert Lower("Hawassa") == "hawassa";
    PlainCity("Hawassa", "hawassa", tail);
  }

  /** The part before the comma names the city; Ethiopia names none, and the capital has three
      spellings. */
  lemma {:induction false} NamedCity(name: string, key: string, tail: string)
    requires ',' !in name && (tail == "" || tail[0] == ',') && Lower(name) == key && Squeeze(key) == key
    ensures CityKey(name + tail) ==
      if key == "ethiopia" then "" else if key in ["addis", "addis abeba", "addis ababa"] then "addis ababa" else key
  {
    Cut(name, tail);
  }

  /** A one-word city with none of the special spellings is its own key. */
  lemma {:induction false} PlainCity(name: string, key: string, tail: string)
    requires ',' !in name && (tail == "" || tail[0] == ',')
    requires Lower(name) == key && |key| == 7 && forall i :: 0 <= i < |key| ==> !IsSpace(key[i])
    ensures CityKey(name + tail) == key
  {
    Cut(name, tail);
    NoSpaces(key);
    assert |"ethiopia"| == 8 && |"addis"| == 5 && |"addis abeba"| == 11 && |"addis ababa"| == 11;
  }

  lemma {:induction false} Cut(a: string, b: string)
    requires ',' !in a && (b == "" || b[0] == ',')
    ensures BeforeComma(a + b) == a
  {
    if a == "" {
      assert a + b == b;
    } else {
      assert (a + b)[1..] == a[1..] + b;
      Cut(a[1..], b);
    }
  }

  lemma {:induction false} NoSpaces(s: string)
    requires forall i :: 0 <= i < |s| ==> !IsSpace(s[i])
    ensures Squeeze(s) == s
  {
    if s != "" {
      var front, last := s[..|s| - 1], s[|s| - 1];
      NoSpaces(front);
      assert !IsSpace(last);
      if front != "" { assert front[|front| - 1] == s[|s| - 2]; }
      assert s == front + [last];
    }
  }
}

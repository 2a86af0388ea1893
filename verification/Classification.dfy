/** Deciding if someone living in the target country can be hired for a job, from what was read
    in its location and its text. Reading the texts is not modelled: places, time zones and
    signals are given. */
module Classification {

  import opened GeoScan

  datatype Status = Eligible | Ineligible | Uncertain

  datatype Basis =
    | LocalTarget | OpenWorldwide | RegionIncludes | TimezoneWindow | ExclusionListOK | ExplicitPermission
    | RestrictedPlaces | Excluded | TimezoneOutside | OnsiteElsewhere | WorkAuthorization
    | Conflict | NoSignal

  function StatusOf(b: Basis): Status {
    match b
    case LocalTarget | OpenWorldwide | RegionIncludes => Eligible
    case TimezoneWindow | ExclusionListOK | ExplicitPermission => Eligible
    case RestrictedPlaces | Excluded | TimezoneOutside | OnsiteElsewhere | WorkAuthorization => Ineligible
    case Conflict | NoSignal => Uncertain
  }

  datatype Window = Window(lo: real, hi: real)

  /** What a location text says. */
  datatype Location = Location(
    given: bool,                  // the text is not empty
    places: seq<Place>, excluded: seq<Place>, worldwide: bool,
    remote: bool, hybrid: bool, onsite: bool,
    windows: seq<Window>,
    regionListed: bool,           // a region holding the target is an item of its own
    unknownSegments: nat)

  datatype Workplace = Unknown | Remote | Hybrid | Onsite

  datatype SignalKind = OnlyIn | NotIn | OpenToAll | AuthIn | Timezone

  datatype Signal = Signal(
    kind: SignalKind, places: seq<Place>, windows: seq<Window>, strong: bool, weak: bool, located: bool, quote: string)

  /** Everything the decision looks at; the last four fields say what the patterns find in
      the description. */
  datatype Input = Input(
    loc: Location, signals: seq<Signal>, board: bool, ethiopianMarket: bool, workplace: Workplace, described: bool,
    hiresInTarget: bool, onsiteHit: bool, onsiteRegionHit: bool, remoteHit: bool)

  datatype Rules = Rules(target: string, offset: real)

  const TZ_MAX_DISTANCE := 4.0

  datatype Result = Result(status: Status, confidence: real, basis: Basis, hours: string)

  function Decided(b: Basis, confidence: real): Result { Result(StatusOf(b), confidence, b, "") }

  // ----- Time zones ------------------------------------------------------------------------

  function Away(w: Window, offset: real): real {
    if offset < w.lo then w.lo - offset else if offset > w.hi then offset - w.hi else 0.0
  }

  datatype Distance = Infinite | Hours(value: real)

  function Nearest(ws: seq<Window>, offset: real): Distance {
    if ws == [] then Infinite
    else
      var before, d := Nearest(ws[..|ws| - 1], offset), Away(ws[|ws| - 1], offset);
      if before.Infinite? || d < before.value then Hours(d) else before
  }

  method TzDistance(ws: seq<Window>, offset: real) returns (best: Distance)
    ensures best == Nearest(ws, offset)
  {
    best := Infinite;
    for i := 0 to |ws|
      invariant best == Nearest(ws[..i], offset)
    {
      assert ws[..i + 1][..i] == ws[..i];
      var w := ws[i];
      var d := 0.0;
      if offset < w.lo { d := w.lo - offset; } else if offset > w.hi { d := offset - w.hi; }
      if best.Infinite? || d < best.value { best := Hours(d); }
    }
    assert ws[..|ws|] == ws;
  }

  predicate Inside(d: Distance) { d == Hours(0.0) }
  predicate Far(d: Distance) { d.Infinite? || d.value > TZ_MAX_DISTANCE }

  /** The offset is inside some window, or too far from all of them. */
  lemma {:induction false} NearestMeans(ws: seq<Window>, offset: real)
    ensures Inside(Nearest(ws, offset)) <==> exists w :: w in ws && w.lo <= offset <= w.hi
    ensures Far(Nearest(ws, offset)) <==>
      forall w :: w in ws ==> offset < w.lo - TZ_MAX_DISTANCE || (w.lo <= offset && offset > w.hi + TZ_MAX_DISTANCE)
    ensures Nearest(ws, offset).Hours? ==> Nearest(ws, offset).value >= 0.0
  {
    if ws != [] {
      NearestMeans(ws[..|ws| - 1], offset);
      assert ws == ws[..|ws| - 1] + [ws[|ws| - 1]];
    }
  }

  // ----- What a location means ---------------------------------------------------------------

  predicate HasScope(l: Location) { l.places != [] || l.worldwide || l.excluded != [] }

  predicate AnyIncludes(ps: seq<Place>, target: string) { exists i :: 0 <= i < |ps| && GeoScan.Includes(ps[i], target) }

  datatype Why = Excludes | EverywhereExcept | Anywhere | Names | LimitedTo

  /** Whether the target is inside the geography, and why. */
  method LocationIncludes(l: Location, target: string) returns (r: bool, why: Why)
    ensures r == Includes(l, target)
    ensures why.Excludes? <==> AnyIncludes(l.excluded, target)
  {
    for i := 0 to |l.excluded|
      invariant forall k :: 0 <= k < i ==> !GeoScan.Includes(l.excluded[k], target)
    {
      if GeoScan.Includes(l.excluded[i], target) { return false, Excludes; }
    }
    if l.excluded != [] && l.places == [] { return true, EverywhereExcept; }
    if l.worldwide { return true, Anywhere; }
    for i := 0 to |l.places|
      invariant forall k :: 0 <= k < i ==> !GeoScan.Includes(l.places[k], target)
    {
      if GeoScan.Includes(l.places[i], target) { return true, Names; }
    }
    return false, LimitedTo;
  }

  /** The meaning of a location: everything if it is worldwide or only lists exclusions,
      else the union of its places; in both cases without the union of the exclusions. */
  predicate Includes(l: Location, target: string) {
    (l.worldwide || (l.places == [] && l.excluded != []) || AnyIncludes(l.places, target))
    && !AnyIncludes(l.excluded, target)
  }

  predicate InTarget(l: Location, target: string) {
    exists i :: 0 <= i < |l.places| && l.places[i].code == target
      && (l.places[i].kind.Country? || l.places[i].kind.Subdivision?)
  }

  // ----- Signals -----------------------------------------------------------------------------

  /** The scanner makes no time-zone signal without a window. */
  predicate ValidSignals(ss: seq<Signal>) {
    forall i :: 0 <= i < |ss| ==> (ss[i].kind.Timezone? ==> ss[i].windows != [])
  }

  datatype Finding = Finding(weak: bool, confidence: real, basis: Basis)

  /** A signal that rules out, rules in, or asks for distant working hours. */
  datatype Reading = Ignored | Restricts(f: Finding) | Permits(f: Finding) | DistantHours

  /** Hints do not count against a location that already restricts. */
  predicate Unheard(l: Location, target: string, s: Signal) { s.weak && HasScope(l) && !Includes(l, target) }

  function Read(r: Rules, l: Location, s: Signal): Reading {
    var includes, d := AnyIncludes(s.places, r.target), Nearest(s.windows, r.offset);
    if Unheard(l, r.target, s) then Ignored
    else match s.kind
      case OnlyIn =>
        if !includes then Restricts(Finding(s.weak, 0.85, RestrictedPlaces))
        else if s.strong then Permits(Finding(false, 0.8, RegionIncludes)) else Ignored
      case AuthIn => if includes then Ignored else Restricts(Finding(false, 0.8, WorkAuthorization))
      case NotIn => if includes then Restricts(Finding(false, 0.85, Excluded)) else Ignored
      case OpenToAll => if s.strong then Permits(Finding(false, 0.8, ExplicitPermission)) else Ignored
      case Timezone =>
        if Far(d) then (if s.located then Restricts(Finding(false, 0.7, TimezoneOutside)) else DistantHours)
        else if Inside(d) && s.located then Permits(Finding(false, 0.7, TimezoneWindow)) else Ignored
  }

  function Negatives(r: Rules, l: Location, ss: seq<Signal>): seq<Finding> {
    if ss == [] then []
    else
      var rest, x := Negatives(r, l, ss[..|ss| - 1]), Read(r, l, ss[|ss| - 1]);
      if x.Restricts? then rest + [x.f] else rest
  }

  function Positives(r: Rules, l: Location, ss: seq<Signal>): seq<Finding> {
    if ss == [] then []
    else
      var rest, x := Positives(r, l, ss[..|ss| - 1]), Read(r, l, ss[|ss| - 1]);
      if x.Permits? then rest + [x.f] else rest
  }

  /** The first request for distant hours. */
  function HoursAsked(r: Rules, l: Location, ss: seq<Signal>): string {
    if ss == [] then ""
    else
      var before := HoursAsked(r, l, ss[..|ss| - 1]);
      if before == "" && Read(r, l, ss[|ss| - 1]).DistantHours? then ss[|ss| - 1].quote else before
  }

  method Split(r: Rules, l: Location, ss: seq<Signal>) returns (neg: seq<Finding>, pos: seq<Finding>, hours: string)
    requires ValidSignals(ss)
    ensures neg == Negatives(r, l, ss) && pos == Positives(r, l, ss) && hours == HoursAsked(r, l, ss)
  {
    neg, pos, hours := [], [], "";
    var locIncludes, _ := LocationIncludes(l, r.target);
    for i := 0 to |ss|
      invariant neg == Negatives(r, l, ss[..i]) && pos == Positives(r, l, ss[..i]) && hours == HoursAsked(r, l, ss[..i])
    {
      assert ss[..i + 1][..i] == ss[..i];
      var s := ss[i];
      if s.weak && HasScope(l) && !locIncludes { continue; }
      var includes := false;
      for k := 0 to |s.places|
        invariant includes <==> exists j :: 0 <= j < k && GeoScan.Includes(s.places[j], r.target)
      {
        if GeoScan.Includes(s.places[k], r.target) { includes := true; }
      }
      match s.kind {
        case OnlyIn =>
          if includes {
            if s.strong { pos := pos + [Finding(false, 0.8, RegionIncludes)]; }
          } else {
            neg := neg + [Finding(s.weak, 0.85, RestrictedPlaces)];
          }
        case AuthIn => if !includes { neg := neg + [Finding(false, 0.8, WorkAuthorization)]; }
        case NotIn => if includes { neg := neg + [Finding(false, 0.85, Excluded)]; }
        case OpenToAll => if s.strong { pos := pos + [Finding(false, 0.8, ExplicitPermission)]; }
        case Timezone =>
          var d := TzDistance(s.windows, r.offset);
          if Far(d) && s.located {
            neg := neg + [Finding(false, 0.7, TimezoneOutside)];
          } else if Far(d) {
            if hours == "" { hours := s.quote; }
          } else if Inside(d) && s.located {
            pos := pos + [Finding(false, 0.7, TimezoneWindow)];
          }
      }
    }
    assert ss[..|ss|] == ss;
  }

  // ----- The location field --------------------------------------------------------------------

  const CITY_STATES := {"SG", "HK", "MO", "MC", "VA"}

  predicate Specific(p: Place) { p.kind.Country? || p.kind.Subdivision? }
  predicate CityLike(p: Place) { p.kind.Subdivision? || (p.code in CITY_STATES && p.kind.Country?) }

  predicate AnyOf(ps: seq<Place>, f: Place -> bool) { exists i :: 0 <= i < |ps| && f(ps[i]) }

  predicate IsRemote(x: Input) { x.workplace.Remote? || x.loc.remote }
  predicate IsHybrid(x: Input) { x.workplace.Hybrid? || x.loc.hybrid }
  predicate IsOnsite(x: Input) { x.workplace.Onsite? || x.loc.onsite }

  /** On what ground a location that covers the target does so. */
  function IncludedBy(l: Location): Basis {
    if l.worldwide then OpenWorldwide
    else if l.excluded != [] && l.places == [] then ExclusionListOK
    else RegionIncludes
  }

  /** The location of a job board says where applicants may come from. */
  function BoardScope(r: Rules, l: Location): Result {
    if Includes(l, r.target) then
      Decided(IncludedBy(l), 0.9)
    else Decided(if AnyIncludes(l.excluded, r.target) then Excluded else RestrictedPlaces, 0.9)
  }

  /** Elsewhere it says where the job is, or where a remote job may be done from. */
  function AtsScope(r: Rules, x: Input): Result {
    var l, specific := x.loc, AnyOf(x.loc.places, Specific);
    var remote, hybrid, onsite := IsRemote(x), IsHybrid(x), IsOnsite(x);
    var inScope := Includes(l, r.target);
    if inScope && !l.worldwide && !remote && (hybrid || onsite) then
      if specific then Decided(OnsiteElsewhere, 0.75) else Decided(NoSignal, 0.4)
    else
      // "Novi Sad, Serbia, EMEA" tags an office with its region
      var includes := inScope && !(!l.worldwide && specific && !l.regionListed);
      if includes && !remote && !l.worldwide && l.regionListed then
        if x.onsiteRegionHit then Decided(OnsiteElsewhere, 0.7) else Decided(RegionIncludes, 0.75)
      else if includes then
        if remote || l.worldwide then
          Decided(IncludedBy(l), 0.85)
        else Decided(NoSignal, 0.4)
      else if remote then Decided(RestrictedPlaces, 0.85)
      else if hybrid || onsite then
        Decided(OnsiteElsewhere, if x.workplace != Unknown && !l.hybrid && !l.onsite then 0.75 else 0.85)
      else if x.onsiteHit then Decided(OnsiteElsewhere, 0.75)
      else if x.remoteHit then Decided(RestrictedPlaces, 0.7)
      else if !AnyOf(l.places, CityLike) && l.unknownSegments == 0 then Decided(RestrictedPlaces, 0.6)
      else Decided(NoSignal, 0.4)
  }

  function FromLocation(r: Rules, x: Input): Result {
    var l, d := x.loc, Nearest(x.loc.windows, r.offset);
    if l.given && HasScope(l) then (if x.board then BoardScope(r, l) else AtsScope(r, x))
    else if l.given && l.windows != [] then
      if Inside(d) then Decided(TimezoneWindow, 0.8)
      else if Far(d) then Decided(TimezoneOutside, 0.7)
      else Decided(NoSignal, 0.4)
    else if !l.given && !x.described then Decided(NoSignal, 0.2)
    else Decided(NoSignal, 0.35)
  }

  // ----- The decision ----------------------------------------------------------------------------

  /** Where the places given leave the target out, working hours that suit it count for nothing. */
  function Counting(r: Rules, l: Location, pos: seq<Finding>): seq<Finding> {
    if HasScope(l) && !Includes(l, r.target) then WithoutTimezones(pos) else pos
  }

  function WithoutTimezones(pos: seq<Finding>): seq<Finding> {
    if pos == [] then []
    else
      var before, f := WithoutTimezones(pos[..|pos| - 1]), pos[|pos| - 1];
      if f.basis != TimezoneWindow then before + [f] else before
  }

  predicate AllWeak(fs: seq<Finding>) { forall i :: 0 <= i < |fs| ==> fs[i].weak }

  function FromSignals(r: Rules, x: Input, neg: seq<Finding>, pos: seq<Finding>): Result {
    if HasScope(x.loc) && Includes(x.loc, r.target) && pos == [] && neg != [] && AllWeak(neg) then
      Decided(Conflict, 0.3)
    else if neg != [] && pos != [] then Decided(Conflict, 0.3)
    else if neg != [] then Decided(neg[0].basis, neg[0].confidence)
    else if pos != [] then Decided(pos[0].basis, pos[0].confidence)
    else
      var res := FromLocation(r, x);
      if res.basis == RestrictedPlaces && x.hiresInTarget then Decided(Conflict, 0.3) else res
  }

  /** Listed in the Ethiopian market and no place named. */
  predicate MarketLocal(x: Input) { x.ethiopianMarket && !x.board && !HasScope(x.loc) }

  function Decision(r: Rules, x: Input): Result {
    var neg, pos := Negatives(r, x.loc, x.signals), Positives(r, x.loc, x.signals);
    if InTarget(x.loc, r.target) then Decided(LocalTarget, 0.95)
    else if MarketLocal(x) && neg == [] then Decided(LocalTarget, 0.75)
    else
      var res := FromSignals(r, x, neg, Counting(r, x.loc, pos));
      if res.status == Eligible then res.(hours := HoursAsked(r, x.loc, x.signals)) else res
  }

  method Narrow(r: Rules, l: Location, pos: seq<Finding>) returns (kept: seq<Finding>)
    ensures kept == Counting(r, l, pos)
  {
    var includes, _ := LocationIncludes(l, r.target);
    if !HasScope(l) || includes { return pos; }
    kept := [];
    for i := 0 to |pos|
      invariant kept == WithoutTimezones(pos[..i])
    {
      assert pos[..i + 1][..i] == pos[..i];
      if pos[i].basis != TimezoneWindow { kept := kept + [pos[i]]; }
    }
    assert pos[..|pos|] == pos;
  }

  method Decide(r: Rules, x: Input) returns (res: Result)
    requires ValidSignals(x.signals)
    ensures res == Decision(r, x) && Right(r, x, res)
  {
    res := Verdict(r, x);
    DecisionIsRight(r, x);
  }

  method Verdict(r: Rules, x: Input) returns (res: Result)
    requires ValidSignals(x.signals)
    ensures res == Decision(r, x)
  {
    if InTarget(x.loc, r.target) { return Decided(LocalTarget, 0.95); }
    var neg, pos, hours := Split(r, x.loc, x.signals);
    if MarketLocal(x) && neg == [] { return Decided(LocalTarget, 0.75); }
    pos := Narrow(r, x.loc, pos);
    res := FromSignals(r, x, neg, pos);
    if res.status == Eligible && res.hours == "" { res := res.(hours := hours); }
  }

  // ----- What the input means, in its own fields ---------------------------------------------------

  /** The place is the target, is in it, or is a region it belongs to. */
  ghost predicate Around(p: Place, target: string) {
    || p.kind == Worldwide
    || ((p.kind == Country || p.kind == Subdivision) && p.code == target)
    || (p.kind == Region && target in p.countries)
  }

  ghost predicate Some(ps: seq<Place>, target: string) { exists p :: p in ps && Around(p, target) }

  ghost predicate NoPlace(l: Location) { |l.places| == 0 && |l.excluded| == 0 && !l.worldwide }

  /** The location takes in the target: it names a place around it, or is worldwide, or only
      lists exclusions; and none of the exclusions is around the target. */
  ghost predicate Covers(l: Location, target: string) {
    && !NoPlace(l) && !Some(l.excluded, target)
    && (l.worldwide || |l.places| == 0 || Some(l.places, target))
  }

  ghost predicate LeavesOut(l: Location, target: string) { !NoPlace(l) && !Covers(l, target) }

  /** The job itself is in the target. */
  ghost predicate IsLocal(l: Location, target: string) {
    exists p :: p in l.places && p.code == target && (p.kind == Country || p.kind == Subdivision)
  }

  ghost predicate Contains(ws: seq<Window>, offset: real) { exists w :: w in ws && w.lo <= offset <= w.hi }

  /** Every window is more than four hours away. */
  ghost predicate AllFar(ws: seq<Window>, offset: real) {
    forall w :: w in ws ==> if offset < w.lo then w.lo - offset > 4.0 else offset - w.hi > 4.0
  }

  // ----- What a signal means ---------------------------------------------------------------------------

  ghost predicate Heard(r: Rules, l: Location, s: Signal) { !(s.weak && LeavesOut(l, r.target)) }

  /** The signal rules the target out, on this ground and with this confidence. */
  ghost predicate Against(r: Rules, l: Location, s: Signal, b: Basis, c: real) {
    Heard(r, l, s) &&
    match s.kind
    case OnlyIn => !Some(s.places, r.target) && b == RestrictedPlaces && c == 0.85
    case AuthIn => !Some(s.places, r.target) && b == WorkAuthorization && c == 0.8
    case NotIn => Some(s.places, r.target) && b == Excluded && c == 0.85
    case Timezone => s.located && AllFar(s.windows, r.offset) && b == TimezoneOutside && c == 0.7
    case OpenToAll => false
  }

  /** The signal rules the target in. */
  ghost predicate InFavour(r: Rules, l: Location, s: Signal, b: Basis, c: real) {
    Heard(r, l, s) &&
    match s.kind
    case OpenToAll => s.strong && b == ExplicitPermission && c == 0.8
    case OnlyIn => s.strong && Some(s.places, r.target) && b == RegionIncludes && c == 0.8
    case Timezone =>
      s.located && Contains(s.windows, r.offset) && !LeavesOut(l, r.target) && b == TimezoneWindow && c == 0.7
    case AuthIn | NotIn => false
  }

  /** It asks for distant hours, whatever the place. */
  ghost predicate AsksHours(r: Rules, l: Location, s: Signal) {
    Heard(r, l, s) && s.kind == Timezone && !s.located && AllFar(s.windows, r.offset)
  }

  ghost predicate RulesOut(r: Rules, l: Location, s: Signal) { exists b, c :: Against(r, l, s, b, c) }

  ghost predicate RulesIn(r: Rules, l: Location, s: Signal) { exists b, c :: InFavour(r, l, s, b, c) }

  ghost predicate AnyRestricts(r: Rules, x: Input) { exists s :: s in x.signals && RulesOut(r, x.loc, s) }

  ghost predicate AnyPermits(r: Rules, x: Input) { exists s :: s in x.signals && RulesIn(r, x.loc, s) }

  /** Every restricting signal is a hint. */
  ghost predicate OnlyHints(r: Rules, x: Input) {
    forall s :: s in x.signals && RulesOut(r, x.loc, s) ==> s.kind == OnlyIn && s.weak
  }

  /** The first restricting signal gives the ground. */
  ghost predicate FirstAgainst(r: Rules, x: Input, b: Basis, c: real) {
    exists i :: 0 <= i < |x.signals| && Against(r, x.loc, x.signals[i], b, c)
      && forall h :: 0 <= h < i ==> !RulesOut(r, x.loc, x.signals[h])
  }

  ghost predicate FirstInFavour(r: Rules, x: Input, b: Basis, c: real) {
    exists i :: 0 <= i < |x.signals| && InFavour(r, x.loc, x.signals[i], b, c)
      && forall h :: 0 <= h < i ==> !RulesIn(r, x.loc, x.signals[h])
  }

  /** The hours are those of the first signal that asks for some, if any does. */
  ghost predicate Mentions(r: Rules, x: Input, hours: string) {
    if hours == "" then forall s :: s in x.signals && AsksHours(r, x.loc, s) ==> s.quote == ""
    else FirstToAsk(r, x.loc, x.signals, hours)
  }

  ghost predicate FirstToAsk(r: Rules, l: Location, ss: seq<Signal>, hours: string) {
    exists i :: 0 <= i < |ss| && AsksHours(r, l, ss[i]) && ss[i].quote == hours
      && forall h :: 0 <= h < i && AsksHours(r, l, ss[h]) ==> ss[h].quote == ""
  }

  // ----- What a location means -----------------------------------------------------------------------------

  ghost predicate RemoteJob(x: Input) { x.workplace == Remote || x.loc.remote }

  /** The job is tied to an office, wholly or in part. */
  ghost predicate OfficeJob(x: Input) {
    x.workplace == Hybrid || x.workplace == Onsite || x.loc.hybrid || x.loc.onsite
  }

  ghost predicate NamesCountry(l: Location) {
    exists p :: p in l.places && (p.kind == Country || p.kind == Subdivision)
  }

  ghost predicate NamesCity(l: Location) {
    exists p :: p in l.places &&
      (p.kind == Subdivision || (p.kind == Country && p.code in {"SG", "HK", "MO", "MC", "VA"}))
  }

  /** The location field alone permits. */
  ghost predicate LocationPermits(r: Rules, x: Input) {
    var l := x.loc;
    && l.given
    && if NoPlace(l) then Contains(l.windows, r.offset)
       else
         && Covers(l, r.target)
         && (|| x.board || l.worldwide
             || (RemoteJob(x) && (l.regionListed || !NamesCountry(l)))
             || (!RemoteJob(x) && !OfficeJob(x) && l.regionListed && !x.onsiteRegionHit))
  }

  /** The location field alone rules the target out. */
  ghost predicate LocationRulesOut(r: Rules, x: Input) {
    var l, covers := x.loc, Covers(x.loc, r.target);
    && l.given
    && if NoPlace(l) then |l.windows| > 0 && AllFar(l.windows, r.offset)
       else if x.board then !covers
       else if covers && l.worldwide then false
       else if covers && OfficeJob(x) && !RemoteJob(x) then NamesCountry(l)
       else if covers && (l.regionListed || !NamesCountry(l)) then
         l.regionListed && !RemoteJob(x) && x.onsiteRegionHit
       else
         || RemoteJob(x) || OfficeJob(x) || x.onsiteHit || x.remoteHit
         || (!NamesCity(l) && l.unknownSegments == 0)
  }

  /** On what ground, and how surely, the location alone decides. */
  ghost predicate LocationGround(r: Rules, x: Input, b: Basis, c: real) {
    var l, covers, remote, office := x.loc, Covers(x.loc, r.target), RemoteJob(x), OfficeJob(x);
    var permits, rulesOut := LocationPermits(r, x), LocationRulesOut(r, x);
    match b
    case LocalTarget | ExplicitPermission | WorkAuthorization | Conflict => false
    case OpenWorldwide => permits && l.worldwide && c == if x.board then 0.9 else 0.85
    case ExclusionListOK =>
      && permits && !l.worldwide && |l.places| == 0 && |l.excluded| > 0 && (x.board || remote)
      && c == if x.board then 0.9 else 0.85
    case RegionIncludes =>
      && permits && !NoPlace(l) && !l.worldwide && (|l.places| > 0 || !(x.board || remote))
      && c == if x.board then 0.9 else if remote then 0.85 else 0.75
    case TimezoneWindow => permits && NoPlace(l) && c == 0.8
    case TimezoneOutside => rulesOut && NoPlace(l) && c == 0.7
    case Excluded => rulesOut && x.board && Some(l.excluded, r.target) && c == 0.9
    case RestrictedPlaces =>
      && rulesOut && !NoPlace(l)
      && if x.board then !Some(l.excluded, r.target) && c == 0.9
         else if remote then c == 0.85
         else !office && !x.onsiteHit && !(covers && l.regionListed) && c == if x.remoteHit then 0.7 else 0.6
    case OnsiteElsewhere =>
      && rulesOut && !NoPlace(l) && !x.board && !remote
      && if office then
           c == if covers || (x.workplace != Unknown && !l.hybrid && !l.onsite) then 0.75 else 0.85
         else if covers && l.regionListed then c == 0.7
         else x.onsiteHit && c == 0.75
    case NoSignal =>
      && !permits && !rulesOut
      && c == if !l.given then (if x.described then 0.35 else 0.2)
              else if NoPlace(l) && |l.windows| == 0 then 0.35 else 0.4
  }

  /** The location leaves the target out, yet the text says that people are hired around it. */
  ghost predicate SaysOtherwise(r: Rules, x: Input) {
    x.hiresInTarget && exists c :: LocationGround(r, x, RestrictedPlaces, c)
  }

  // ----- What the decision guarantees ----------------------------------------------------------------

  /** Listed in the Ethiopian market, not on a job board, and no place named. */
  ghost predicate ListedLocally(x: Input) { x.ethiopianMarket && !x.board && NoPlace(x.loc) }

  /** When exactly a job is eligible. */
  ghost predicate MayHire(r: Rules, x: Input) {
    || IsLocal(x.loc, r.target)
    || (!AnyRestricts(r, x) && (ListedLocally(x) || AnyPermits(r, x) || LocationPermits(r, x)))
  }

  /** When exactly it is ineligible. */
  ghost predicate MayNotHire(r: Rules, x: Input) {
    && !IsLocal(x.loc, r.target) && !AnyPermits(r, x)
    && if AnyRestricts(r, x) then !(Covers(x.loc, r.target) && OnlyHints(r, x))
       else !ListedLocally(x) && LocationRulesOut(r, x) && !SaysOtherwise(r, x)
  }

  /** What contradicts itself: signals both ways, only hints against a location that covers the
      target, or a restricting location next to such a sentence. */
  ghost predicate Contradicts(r: Rules, x: Input) {
    if AnyRestricts(r, x) then AnyPermits(r, x) || (Covers(x.loc, r.target) && OnlyHints(r, x))
    else !ListedLocally(x) && !AnyPermits(r, x) && SaysOtherwise(r, x)
  }

  /** The ground of a verdict: a local place, else the first restricting signal, else the first
      permitting one, else the location. */
  ghost predicate Grounded(r: Rules, x: Input, v: Result) {
    if IsLocal(x.loc, r.target) then v.basis == LocalTarget && v.confidence == 0.95
    else if Contradicts(r, x) then v.basis == Conflict && v.confidence == 0.3
    else if AnyRestricts(r, x) then FirstAgainst(r, x, v.basis, v.confidence)
    else if ListedLocally(x) then v.basis == LocalTarget && v.confidence == 0.75
    else if AnyPermits(r, x) then FirstInFavour(r, x, v.basis, v.confidence)
    else LocationGround(r, x, v.basis, v.confidence)
  }

  /** Distant hours are mentioned with an eligible verdict that rests on more than a local place. */
  ghost predicate NamesHours(r: Rules, x: Input, v: Result) {
    if v.status == Eligible && v.basis != LocalTarget then Mentions(r, x, v.hours) else v.hours == ""
  }

  ghost predicate Consistent(v: Result) {
    && v.status == StatusOf(v.basis)
    && (if v.status == Uncertain then 0.2 <= v.confidence <= 0.4 else 0.6 <= v.confidence <= 0.95)
  }

  /** The verdict is the one the input calls for, on its ground, as surely as that makes it. */
  ghost predicate Right(r: Rules, x: Input, v: Result) {
    && (v.status == Eligible <==> MayHire(r, x))
    && (v.status == Ineligible <==> MayNotHire(r, x))
    && Grounded(r, x, v)
    && NamesHours(r, x, v)
  }

  // ----- The decision follows those meanings ----------------------------------------------------------------

  lemma {:induction false} SomeIff(ps: seq<Place>, target: string)
    ensures AnyIncludes(ps, target) <==> Some(ps, target)
  {
    if AnyIncludes(ps, target) {
      var i :| 0 <= i < |ps| && GeoScan.Includes(ps[i], target);
      assert ps[i] in ps && Around(ps[i], target);
    }
    if Some(ps, target) {
      var p :| p in ps && Around(p, target);
      var i :| 0 <= i < |ps| && ps[i] == p;
    }
  }

  lemma {:induction false} ScopeIs(l: Location, target: string)
    ensures HasScope(l) <==> !NoPlace(l)
    ensures HasScope(l) && Includes(l, target) <==> Covers(l, target)
    ensures HasScope(l) && !Includes(l, target) <==> LeavesOut(l, target)
    ensures Includes(l, target) ==> HasScope(l)
    ensures AnyIncludes(l.excluded, target) <==> Some(l.excluded, target)
  {
    SomeIff(l.places, target);
    SomeIff(l.excluded, target);
  }

  lemma {:induction false} WindowsAre(ws: seq<Window>, offset: real)
    ensures Inside(Nearest(ws, offset)) <==> Contains(ws, offset)
    ensures Far(Nearest(ws, offset)) <==> AllFar(ws, offset)
  {
    NearestMeans(ws, offset);
  }

  predicate PermitsOverall(r: Rules, l: Location, s: Signal) {
    Read(r, l, s).Permits? && (s.kind.Timezone? ==> !HasScope(l) || Includes(l, r.target))
  }

  /** A signal is read as what it means. */
  lemma {:induction false} AgainstIff(r: Rules, l: Location, s: Signal, b: Basis, c: real)
    ensures Against(r, l, s, b, c) <==> Read(r, l, s) == Restricts(Finding(s.kind == OnlyIn && s.weak, c, b))
  {
    ScopeIs(l, r.target);
    SomeIff(s.places, r.target);
    WindowsAre(s.windows, r.offset);
  }

  lemma {:induction false} InFavourIff(r: Rules, l: Location, s: Signal, b: Basis, c: real)
    ensures InFavour(r, l, s, b, c) <==> PermitsOverall(r, l, s) && Read(r, l, s) == Permits(Finding(false, c, b))
  {
    ScopeIs(l, r.target);
    SomeIff(s.places, r.target);
    WindowsAre(s.windows, r.offset);
  }

  lemma {:induction false} AsksHoursIff(r: Rules, l: Location, s: Signal)
    ensures AsksHours(r, l, s) <==> Read(r, l, s) == DistantHours
  {
    ScopeIs(l, r.target);
    WindowsAre(s.windows, r.offset);
  }

  lemma {:induction false} SignalMeans(r: Rules, l: Location, s: Signal)
    ensures Read(r, l, s).Restricts? <==> RulesOut(r, l, s)
    ensures PermitsOverall(r, l, s) <==> RulesIn(r, l, s)
    ensures var x := Read(r, l, s);
      && (x.Restricts? ==> Against(r, l, s, x.f.basis, x.f.confidence))
      && (PermitsOverall(r, l, s) ==> InFavour(r, l, s, x.f.basis, x.f.confidence))
      && (x.Restricts? ==> (x.f.weak <==> s.kind == OnlyIn && s.weak))
  {
    var x := Read(r, l, s);
    if x.Restricts? { AgainstIff(r, l, s, x.f.basis, x.f.confidence); }
    if x.Permits? { InFavourIff(r, l, s, x.f.basis, x.f.confidence); }
    forall b, c | Against(r, l, s, b, c) ensures x.Restricts? { AgainstIff(r, l, s, b, c); }
    forall b, c | InFavour(r, l, s, b, c) ensures PermitsOverall(r, l, s) { InFavourIff(r, l, s, b, c); }
  }

  /** The first signal that restricts is the first one noted. */
  lemma {:induction false} FirstNegative(r: Rules, l: Location, ss: seq<Signal>) returns (i: nat)
    requires Negatives(r, l, ss) != []
    ensures i < |ss| && Read(r, l, ss[i]).Restricts? && Negatives(r, l, ss)[0] == Read(r, l, ss[i]).f
    ensures forall h :: 0 <= h < i ==> !Read(r, l, ss[h]).Restricts?
  {
    var n := |ss| - 1;
    NegativesAre(r, l, ss[..n]);
    if Negatives(r, l, ss[..n]) != [] { i := FirstNegative(r, l, ss[..n]); } else { i := n; }
  }

  lemma {:induction false} FirstPositive(r: Rules, l: Location, ss: seq<Signal>) returns (i: nat)
    requires Counting(r, l, Positives(r, l, ss)) != []
    ensures i < |ss| && PermitsOverall(r, l, ss[i]) && Counting(r, l, Positives(r, l, ss))[0] == Read(r, l, ss[i]).f
    ensures forall h :: 0 <= h < i ==> !PermitsOverall(r, l, ss[h])
  {
    var n := |ss| - 1;
    PositivesAre(r, l, ss[..n]);
    var before, x := Positives(r, l, ss[..n]), Read(r, l, ss[n]);
    if x.Permits? { assert (before + [x.f])[..|before|] == before; }
    if Counting(r, l, before) != [] { i := FirstPositive(r, l, ss[..n]); } else { i := n; }
  }

  lemma {:induction false} NegativesAre(r: Rules, l: Location, ss: seq<Signal>)
    ensures Negatives(r, l, ss) == [] <==> forall i :: 0 <= i < |ss| ==> !Read(r, l, ss[i]).Restricts?
    ensures AllWeak(Negatives(r, l, ss)) <==>
      forall i :: 0 <= i < |ss| && Read(r, l, ss[i]).Restricts? ==> Read(r, l, ss[i]).f.weak
  {
    if ss != [] {
      var n := |ss| - 1;
      NegativesAre(r, l, ss[..n]);
      var before := Negatives(r, l, ss[..n]);
      if Read(r, l, ss[n]).Restricts? {
        assert Negatives(r, l, ss)[|before|] == Read(r, l, ss[n]).f;
        assert forall i :: 0 <= i < |before| ==> Negatives(r, l, ss)[i] == before[i];
      }
    }
  }

  lemma {:induction false} PositivesAre(r: Rules, l: Location, ss: seq<Signal>)
    ensures Counting(r, l, Positives(r, l, ss)) == [] <==> forall i :: 0 <= i < |ss| ==> !PermitsOverall(r, l, ss[i])
  {
    if ss != [] {
      var n := |ss| - 1;
      PositivesAre(r, l, ss[..n]);
      var before, x := Positives(r, l, ss[..n]), Read(r, l, ss[n]);
      if x.Permits? { assert (before + [x.f])[..|before|] == before; }
    }
  }

  /** What the signals noted say of all of them. */
  lemma {:induction false} Noted(r: Rules, x: Input)
    ensures Negatives(r, x.loc, x.signals) != [] <==> AnyRestricts(r, x)
    ensures Counting(r, x.loc, Positives(r, x.loc, x.signals)) != [] <==> AnyPermits(r, x)
    ensures AllWeak(Negatives(r, x.loc, x.signals)) <==> OnlyHints(r, x)
  {
    forall s ensures Read(r, x.loc, s).Restricts? <==> RulesOut(r, x.loc, s) { SignalMeans(r, x.loc, s); }
    forall s ensures PermitsOverall(r, x.loc, s) <==> RulesIn(r, x.loc, s) { SignalMeans(r, x.loc, s); }
    forall s | Read(r, x.loc, s).Restricts? ensures Read(r, x.loc, s).f.weak <==> s.kind == OnlyIn && s.weak {
      SignalMeans(r, x.loc, s);
    }
    NegativesAre(r, x.loc, x.signals);
    PositivesAre(r, x.loc, x.signals);
  }

  lemma {:induction false} FirstOnes(r: Rules, x: Input)
    ensures var neg := Negatives(r, x.loc, x.signals);
      neg != [] ==> FirstAgainst(r, x, neg[0].basis, neg[0].confidence)
    ensures var pos := Counting(r, x.loc, Positives(r, x.loc, x.signals));
      pos != [] ==> FirstInFavour(r, x, pos[0].basis, pos[0].confidence)
  {
    forall s ensures Read(r, x.loc, s).Restricts? <==> RulesOut(r, x.loc, s) { SignalMeans(r, x.loc, s); }
    forall s ensures PermitsOverall(r, x.loc, s) <==> RulesIn(r, x.loc, s) { SignalMeans(r, x.loc, s); }
    if Negatives(r, x.loc, x.signals) != [] {
      var i := FirstNegative(r, x.loc, x.signals);
      SignalMeans(r, x.loc, x.signals[i]);
    }
    if Counting(r, x.loc, Positives(r, x.loc, x.signals)) != [] {
      var i := FirstPositive(r, x.loc, x.signals);
      SignalMeans(r, x.loc, x.signals[i]);
    }
  }

  lemma {:induction false} AnyOfIff(ps: seq<Place>, f: Place -> bool)
    ensures AnyOf(ps, f) <==> exists p :: p in ps && f(p)
  {
    if exists p :: p in ps && f(p) {
      var p :| p in ps && f(p);
      var i :| 0 <= i < |ps| && ps[i] == p;
    }
  }

  lemma {:induction false} LocalIs(l: Location, target: string)
    ensures InTarget(l, target) <==> IsLocal(l, target)
  {
    if IsLocal(l, target) {
      var p :| p in l.places && p.code == target && (p.kind == Country || p.kind == Subdivision);
      var i :| 0 <= i < |l.places| && l.places[i] == p;
    }
  }

  /** What the location's places and the windows are read as. */
  lemma {:induction false} LocationRead(r: Rules, x: Input)
    ensures AnyOf(x.loc.places, Specific) <==> NamesCountry(x.loc)
    ensures AnyOf(x.loc.places, CityLike) <==> NamesCity(x.loc)
    ensures Inside(Nearest(x.loc.windows, r.offset)) <==> Contains(x.loc.windows, r.offset)
    ensures Far(Nearest(x.loc.windows, r.offset)) <==> AllFar(x.loc.windows, r.offset)
    ensures Contains(x.loc.windows, r.offset) ==> !AllFar(x.loc.windows, r.offset) && |x.loc.windows| > 0
  {
    AnyOfIff(x.loc.places, Specific);
    AnyOfIff(x.loc.places, CityLike);
    WindowsAre(x.loc.windows, r.offset);
  }

  /** When exactly the location decides on each ground, and how surely. */
  lemma {:induction false} LocationGroundIff(r: Rules, x: Input, b: Basis, c: real)
    ensures LocationGround(r, x, b, c) <==> FromLocation(r, x) == Decided(b, c)
  {
    ScopeIs(x.loc, r.target);
    if x.loc.given && !NoPlace(x.loc) {
      if x.board { BoardGroundIff(r, x, b, c); } else { AtsGroundIff(r, x, b, c); }
    } else {
      LocationRead(r, x);
    }
  }

  lemma {:induction false} BoardGroundIff(r: Rules, x: Input, b: Basis, c: real)
    requires x.loc.given && !NoPlace(x.loc) && x.board
    ensures LocationGround(r, x, b, c) <==> BoardScope(r, x.loc) == Decided(b, c)
  {
    ScopeIs(x.loc, r.target);
  }

  lemma {:induction false} AtsGroundIff(r: Rules, x: Input, b: Basis, c: real)
    requires x.loc.given && !NoPlace(x.loc) && !x.board
    ensures LocationGround(r, x, b, c) <==> AtsScope(r, x) == Decided(b, c)
  {
    LocationRead(r, x);
    ScopeIs(x.loc, r.target);
  }

  lemma {:induction false} LocationStatus(r: Rules, x: Input)
    ensures FromLocation(r, x).status == Eligible <==> LocationPermits(r, x)
    ensures FromLocation(r, x).status == Ineligible <==> LocationRulesOut(r, x)
  {
    LocationRead(r, x);
    ScopeIs(x.loc, r.target);
  }

  lemma {:induction false} SaysOtherwiseIff(r: Rules, x: Input)
    ensures SaysOtherwise(r, x) <==> FromLocation(r, x).basis == RestrictedPlaces && x.hiresInTarget
  {
    forall c ensures LocationGround(r, x, RestrictedPlaces, c) <==> FromLocation(r, x) == Decided(RestrictedPlaces, c) {
      LocationGroundIff(r, x, RestrictedPlaces, c);
    }
    LocationIsPlain(r, x);
  }

  lemma {:induction false} LocationIsPlain(r: Rules, x: Input)
    ensures FromLocation(r, x) == Decided(FromLocation(r, x).basis, FromLocation(r, x).confidence)
  {}

  /** Everything the decision looks at, in those terms. */
  lemma {:induction false} Facts(r: Rules, x: Input)
    ensures InTarget(x.loc, r.target) <==> IsLocal(x.loc, r.target)
    ensures MarketLocal(x) <==> ListedLocally(x)
    ensures HasScope(x.loc) && Includes(x.loc, r.target) <==> Covers(x.loc, r.target)
  {
    LocalIs(x.loc, r.target);
    ScopeIs(x.loc, r.target);
  }

  /** A signal's ground is of its side. */
  lemma {:induction false} Sides(r: Rules, x: Input, b: Basis, c: real)
    ensures FirstAgainst(r, x, b, c) ==> StatusOf(b) == Ineligible && 0.7 <= c <= 0.85
    ensures FirstInFavour(r, x, b, c) ==> StatusOf(b) == Eligible && 0.7 <= c <= 0.85
  {}

  lemma {:induction false} SidesNoted(r: Rules, x: Input)
    ensures var neg := Negatives(r, x.loc, x.signals);
      neg != [] ==> StatusOf(neg[0].basis) == Ineligible && 0.7 <= neg[0].confidence <= 0.85
    ensures var pos := Counting(r, x.loc, Positives(r, x.loc, x.signals));
      pos != [] ==> StatusOf(pos[0].basis) == Eligible && 0.7 <= pos[0].confidence <= 0.85
  {
    FirstOnes(r, x);
    var neg, pos := Negatives(r, x.loc, x.signals), Counting(r, x.loc, Positives(r, x.loc, x.signals));
    if neg != [] { Sides(r, x, neg[0].basis, neg[0].confidence); }
    if pos != [] { Sides(r, x, pos[0].basis, pos[0].confidence); }
  }

  lemma {:induction false} EligibleIff(r: Rules, x: Input)
    ensures Decision(r, x).status == Eligible <==> MayHire(r, x)
  {
    Facts(r, x);
    Noted(r, x);
    SidesNoted(r, x);
    LocationStatus(r, x);
    LocationIsPlain(r, x);
  }

  /** With `EligibleIff` this fixes the status of every job. */
  lemma {:induction false} IneligibleIff(r: Rules, x: Input)
    ensures Decision(r, x).status == Ineligible <==> MayNotHire(r, x)
  {
    Facts(r, x);
    Noted(r, x);
    SidesNoted(r, x);
    LocationStatus(r, x);
    SaysOtherwiseIff(r, x);
  }

  /** The ground of every verdict, and its confidence. */
  lemma {:induction false} GroundOfVerdict(r: Rules, x: Input)
    ensures Grounded(r, x, Decision(r, x))
  {
    Facts(r, x);
    Noted(r, x);
    FirstOnes(r, x);
    SaysOtherwiseIff(r, x);
    LocationIsPlain(r, x);
    LocationGroundIff(r, x, FromLocation(r, x).basis, FromLocation(r, x).confidence);
  }

  lemma {:induction false} HoursAre(r: Rules, l: Location, ss: seq<Signal>)
    ensures HoursAsked(r, l, ss) == "" ==> forall i :: 0 <= i < |ss| && AsksHours(r, l, ss[i]) ==> ss[i].quote == ""
    ensures HoursAsked(r, l, ss) != "" ==> FirstToAsk(r, l, ss, HoursAsked(r, l, ss))
  {
    if ss != [] {
      var n := |ss| - 1;
      HoursAre(r, l, ss[..n]);
      AsksHoursIff(r, l, ss[n]);
      if HoursAsked(r, l, ss[..n]) != "" {
        var i :| 0 <= i < n && AsksHours(r, l, ss[..n][i]) && ss[..n][i].quote == HoursAsked(r, l, ss[..n])
          && forall h :: 0 <= h < i && AsksHours(r, l, ss[..n][h]) ==> ss[..n][h].quote == "";
        assert forall h :: 0 <= h < i ==> ss[h] == ss[..n][h];
        assert ss[i] == ss[..n][i];
      } else {
        assert forall h :: 0 <= h < n ==> ss[h] == ss[..n][h];
      }
    }
  }

  lemma {:induction false} HoursOfVerdict(r: Rules, x: Input)
    ensures NamesHours(r, x, Decision(r, x))
  {
    HoursAre(r, x.loc, x.signals);
    FirstOnes(r, x);
    NotLocal(r, x);
    LocationGroundIff(r, x, FromLocation(r, x).basis, FromLocation(r, x).confidence);
    LocationIsPlain(r, x);
  }

  lemma {:induction false} NotLocal(r: Rules, x: Input)
    ensures forall c :: !LocationGround(r, x, LocalTarget, c)
    ensures forall c :: !FirstInFavour(r, x, LocalTarget, c)
  {}

  lemma {:induction false} DecisionIsRight(r: Rules, x: Input)
    ensures Right(r, x, Decision(r, x))
  {
    EligibleIff(r, x);
    IneligibleIff(r, x);
    GroundOfVerdict(r, x);
    HoursOfVerdict(r, x);
  }

  /** The basis determines the status, and a verdict either way is surer than an uncertain one. */
  lemma {:induction false} VerdictsAreConsistent(r: Rules, x: Input)
    ensures Consistent(Decision(r, x))
  {
    SidesNoted(r, x);
    LocationConsistent(r, x);
  }

  lemma {:induction false} LocationConsistent(r: Rules, x: Input)
    ensures Consistent(FromLocation(r, x))
  {}

  /** A location that leaves the target out is overridden only by a place in the target, or
      by a strong statement that candidates may be anywhere or in places that hold the target. */
  lemma {:induction false} OverriddenOnlyExplicitly(r: Rules, x: Input)
    requires LeavesOut(x.loc, r.target) && Decision(r, x).status == Eligible
    ensures IsLocal(x.loc, r.target) || exists s :: s in x.signals && Explicit(r, s)
    ensures Decision(r, x).basis in {LocalTarget, ExplicitPermission, RegionIncludes}
  {
    EligibleIff(r, x);
    GroundOfVerdict(r, x);
    if !IsLocal(x.loc, r.target) {
      var s :| s in x.signals && RulesIn(r, x.loc, s);
      assert Explicit(r, s);
    }
  }

  ghost predicate Explicit(r: Rules, s: Signal) {
    s.strong && !s.weak && (s.kind == OpenToAll || (s.kind == OnlyIn && Some(s.places, r.target)))
  }
}

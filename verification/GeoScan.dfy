/** Finding the places named in a text: the longest known phrase at each word from left to
    right, then two-letter country codes, which count only next to an accepted place,
    after an exclusion or after "remote", repeated until nothing more is added. */
module GeoScan {

  datatype Kind = Country | Region | Worldwide | Subdivision | Ambiguous

  datatype Place = Place(name: string, kind: Kind, code: string, city: bool, countries: set<string>)

  /** Whether a country is inside the place; nothing is known of an ambiguous name. */
  predicate Includes(p: Place, country: string) {
    match p.kind
    case Worldwide => true
    case Country => p.code == country
    case Subdivision => p.code == country
    case Region => country in p.countries
    case Ambiguous => false
  }

  /** A place found in the words from `start` up to `end`. */
  datatype Mention = Mention(place: Place, start: nat, end: nat)

  /** The lexicon maps lower-cased phrases, the ISO table codes in capitals. */
  datatype Tables = Tables(
    lexicon: map<seq<string>, Place>, iso: map<string, Place>, codeStop: set<string>, usStates: set<string>)

  const MAX_PHRASE: nat := 5

  function Min(a: nat, b: nat): nat { if a <= b then a else b }

  // ----- Phrases of the lexicon ------------------------------------------------------------

  predicate Known(t: Tables, toks: seq<string>, i: nat, n: nat) {
    i + n <= |toks| && toks[i..i + n] in t.lexicon
  }

  /** The longest known phrase of at most `n` words at `i`; 0 if there is none. */
  function Longest(t: Tables, toks: seq<string>, i: nat, n: nat): (m: nat)
    ensures m <= n && (m > 0 ==> Known(t, toks, i, m))
    ensures forall k :: m < k <= n ==> !Known(t, toks, i, k)
  {
    if n == 0 then 0 else if Known(t, toks, i, n) then n else Longest(t, toks, i, n - 1)
  }

  function LongestAt(t: Tables, toks: seq<string>, i: nat): (m: nat)
    ensures m <= MAX_PHRASE && (m > 0 ==> Known(t, toks, i, m))
    ensures forall k :: m < k <= MAX_PHRASE ==> !Known(t, toks, i, k)
  {
    if i < |toks| then Longest(t, toks, i, Min(MAX_PHRASE, |toks| - i)) else 0
  }

  /** The phrase the scan takes at `i`. */
  function PhraseAt(t: Tables, toks: seq<string>, i: nat): Mention
    requires LongestAt(t, toks, i) > 0
  {
    var n := LongestAt(t, toks, i);
    Mention(t.lexicon[toks[i..i + n]], i, i + n)
  }

  /** Leftmost, longest phrases from `i` on. */
  function Munch(t: Tables, toks: seq<string>, i: nat): seq<Mention>
    decreases |toks| - i
  {
    if i >= |toks| then []
    else
      var n := LongestAt(t, toks, i);
      if n == 0 then Munch(t, toks, i + 1)
      else [PhraseAt(t, toks, i)] + Munch(t, toks, i + n)
  }

  predicate In(m: Mention, k: nat) { m.start <= k < m.end }

  predicate InSome(ms: seq<Mention>, k: nat) {
    exists a :: 0 <= a < |ms| && In(ms[a], k)
  }

  predicate Ordered(ms: seq<Mention>) {
    forall a, b :: 0 <= a < b < |ms| ==> ms[a].end <= ms[b].start
  }

  /** The mention is the longest known phrase at its start. */
  ghost predicate Maximal(t: Tables, toks: seq<string>, m: Mention) {
    && m.start < m.end <= m.start + 5 && Known(t, toks, m.start, m.end - m.start)
    && m.place == t.lexicon[toks[m.start..m.end]]
    && forall n :: m.end - m.start < n <= 5 ==> !Known(t, toks, m.start, n)
  }

  /** What leftmost maximal munch means from `i` on: disjoint, ordered, each the longest
      at its start, and no known phrase starts at a word left over. */
  ghost predicate IsMunch(t: Tables, toks: seq<string>, i: nat, ms: seq<Mention>) {
    && Ordered(ms)
    && (forall a :: 0 <= a < |ms| ==> i <= ms[a].start && Maximal(t, toks, ms[a]))
    && (forall k :: i <= k < |toks| && !InSome(ms, k) ==> LongestAt(t, toks, k) == 0)
  }

  lemma {:induction false} LongestIs(t: Tables, toks: seq<string>, m: Mention)
    requires Maximal(t, toks, m)
    ensures LongestAt(t, toks, m.start) == m.end - m.start
  {
    var n := LongestAt(t, toks, m.start);
    assert !(n < m.end - m.start) && !(n > m.end - m.start);
  }

  lemma {:induction false} TailHolds(ms: seq<Mention>, k: nat)
    requires ms != [] && !In(ms[0], k)
    ensures InSome(ms, k) <==> InSome(ms[1..], k)
  {
    if InSome(ms, k) {
      var b :| 0 <= b < |ms| && In(ms[b], k);
      assert In(ms[1..][b - 1], k);
    }
    if InSome(ms[1..], k) {
      var b :| 0 <= b < |ms[1..]| && In(ms[1..][b], k);
      assert In(ms[b + 1], k);
    }
  }

  lemma {:induction false} AddFirst(t: Tables, toks: seq<string>, m: Mention, rest: seq<Mention>)
    requires Maximal(t, toks, m) && IsMunch(t, toks, m.end, rest)
    ensures IsMunch(t, toks, m.start, [m] + rest)
  {
    var ms := [m] + rest;
    assert ms[1..] == rest;
    forall k | m.start <= k < |toks| && !InSome(ms, k) ensures LongestAt(t, toks, k) == 0 {
      assert !In(ms[0], k);
      TailHolds(ms, k);
    }
  }

  lemma {:induction false} AddWord(t: Tables, toks: seq<string>, i: nat, ms: seq<Mention>)
    requires LongestAt(t, toks, i) == 0 && IsMunch(t, toks, i + 1, ms)
    ensures IsMunch(t, toks, i, ms)
  {}

  lemma {:induction false} MunchSteps(t: Tables, toks: seq<string>, i: nat)
    requires i < |toks|
    ensures LongestAt(t, toks, i) == 0 ==> Munch(t, toks, i) == Munch(t, toks, i + 1)
    ensures LongestAt(t, toks, i) > 0 ==>
      Munch(t, toks, i) == [PhraseAt(t, toks, i)] + Munch(t, toks, PhraseAt(t, toks, i).end)
  {}

  lemma {:induction false} MunchIsMunch(t: Tables, toks: seq<string>, i: nat)
    ensures IsMunch(t, toks, i, Munch(t, toks, i))
    decreases |toks| - i
  {
    if i >= |toks| {
      assert Munch(t, toks, i) == [];
    } else {
      MunchSteps(t, toks, i);
      if LongestAt(t, toks, i) == 0 {
        MunchIsMunch(t, toks, i + 1);
        AddWord(t, toks, i, Munch(t, toks, i + 1));
      } else {
        var m := PhraseAt(t, toks, i);
        MunchIsMunch(t, toks, m.end);
        AddFirst(t, toks, m, Munch(t, toks, m.end));
      }
    }
  }

  lemma {:induction false} FirstIs(t: Tables, toks: seq<string>, i: nat, ms: seq<Mention>)
    requires IsMunch(t, toks, i, ms) && ms != []
    ensures i <= ms[0].start < ms[0].end <= |toks| && LongestAt(t, toks, ms[0].start) == ms[0].end - ms[0].start
  {
    assert Maximal(t, toks, ms[0]);
    LongestIs(t, toks, ms[0]);
  }

  /** The mention holding the first word is the first mention. */
  lemma {:induction false} CoveringIsFirst(t: Tables, toks: seq<string>, i: nat, ms: seq<Mention>)
    requires IsMunch(t, toks, i, ms) && InSome(ms, i)
    ensures ms != [] && ms[0].start == i
  {
    var a :| 0 <= a < |ms| && In(ms[a], i);
    FirstIs(t, toks, i, ms);
  }

  lemma {:induction false} SkipWord(t: Tables, toks: seq<string>, i: nat, ms: seq<Mention>)
    requires IsMunch(t, toks, i, ms) && LongestAt(t, toks, i) == 0
    ensures IsMunch(t, toks, i + 1, ms)
  {
    forall a | 0 <= a < |ms| ensures i + 1 <= ms[a].start && Maximal(t, toks, ms[a]) { LongestIs(t, toks, ms[a]); }
  }

  lemma {:induction false} DropFirst(t: Tables, toks: seq<string>, i: nat, ms: seq<Mention>)
    requires IsMunch(t, toks, i, ms) && i < |toks| && LongestAt(t, toks, i) > 0
    ensures var n := LongestAt(t, toks, i);
      ms != [] && ms[0] == Mention(t.lexicon[toks[i..i + n]], i, i + n) && IsMunch(t, toks, i + n, ms[1..])
  {
    assert InSome(ms, i);
    CoveringIsFirst(t, toks, i, ms);
    FirstIs(t, toks, i, ms);
    assert Maximal(t, toks, ms[0]);
    var rest := ms[1..];
    forall a | 0 <= a < |rest| ensures ms[0].end <= rest[a].start && Maximal(t, toks, rest[a]) {
      assert rest[a] == ms[a + 1];
    }
    forall k | ms[0].end <= k < |toks| && !InSome(rest, k) ensures LongestAt(t, toks, k) == 0 { TailHolds(ms, k); }
  }

  lemma {:induction false} NothingLeft(t: Tables, toks: seq<string>, i: nat, ms: seq<Mention>)
    requires IsMunch(t, toks, i, ms) && i >= |toks|
    ensures ms == []
  {
    if ms != [] { FirstIs(t, toks, i, ms); }
  }

  /** The description has exactly one solution: the one the scan computes. */
  lemma {:induction false} MunchUnique(t: Tables, toks: seq<string>, i: nat, ms: seq<Mention>)
    requires IsMunch(t, toks, i, ms)
    ensures ms == Munch(t, toks, i)
    decreases |toks| - i, 1
  {
    if i >= |toks| {
      NothingLeft(t, toks, i, ms);
    } else if LongestAt(t, toks, i) == 0 {
      UniqueAfterSkip(t, toks, i, ms);
    } else {
      DropFirst(t, toks, i, ms);
      assert ms == [ms[0]] + ms[1..];
      UniqueAfterFirst(t, toks, i, ms[1..]);
    }
  }

  lemma {:induction false} UniqueAfterSkip(t: Tables, toks: seq<string>, i: nat, ms: seq<Mention>)
    requires IsMunch(t, toks, i, ms) && i < |toks| && LongestAt(t, toks, i) == 0
    ensures ms == Munch(t, toks, i)
    decreases |toks| - i, 0
  {
    assert ms == Munch(t, toks, i + 1) by {
      SkipWord(t, toks, i, ms);
      MunchUnique(t, toks, i + 1, ms);
    }
  }

  lemma {:induction false} UniqueAfterFirst(t: Tables, toks: seq<string>, i: nat, rest: seq<Mention>)
    requires i < |toks| && LongestAt(t, toks, i) > 0 && IsMunch(t, toks, i + LongestAt(t, toks, i), rest)
    ensures [PhraseAt(t, toks, i)] + rest == Munch(t, toks, i)
    decreases |toks| - i, 0
  {
    MunchUnique(t, toks, i + LongestAt(t, toks, i), rest);
  }

  /** The first pass: `covered` marks the words of the mentions found. */
  method ScanLexicon(t: Tables, toks: seq<string>, covered: array<bool>) returns (out: seq<Mention>)
    requires covered.Length == |toks| && forall k :: 0 <= k < |toks| ==> !covered[k]
    modifies covered
    ensures out == Munch(t, toks, 0)
    ensures forall k :: 0 <= k < |toks| ==> (covered[k] <==> InSome(out, k))
  {
    out := [];
    var i := 0;
    while i < |toks|
      invariant 0 <= i <= |toks|
      invariant out + Munch(t, toks, i) == Munch(t, toks, 0)
      invariant forall k :: 0 <= k < |toks| ==> (covered[k] <==> InSome(out, k))
      invariant forall k :: i <= k < |toks| ==> !covered[k]
    {
      var n := LongestPhrase(t, toks, i);
      if n > 0 {
        var m := Mention(t.lexicon[toks[i..i + n]], i, i + n);
        Shift(out, m, Munch(t, toks, i + n));
        forall k: nat ensures InSome(out + [m], k) <==> InSome(out, k) || In(m, k) { InSomeSnoc(out, m, k); }
        out := out + [m];
        forall k | i <= k < i + n { covered[k] := true; }
        i := i + n;
      } else {
        i := i + 1;
      }
    }
  }

  /** The longest known phrase at `i`, tried from five words down to one. */
  method LongestPhrase(t: Tables, toks: seq<string>, i: nat) returns (n: nat)
    requires i < |toks|
    ensures n == LongestAt(t, toks, i)
  {
    n := Min(MAX_PHRASE, |toks| - i);
    while n >= 1
      invariant forall k :: n < k <= MAX_PHRASE ==> !Known(t, toks, i, k)
      invariant i + n <= |toks| && n <= MAX_PHRASE
    {
      if toks[i..i + n] in t.lexicon {
        assert Known(t, toks, i, n);
        break;
      }
      n := n - 1;
    }
    assert n > 0 ==> Known(t, toks, i, n);
    var m := LongestAt(t, toks, i);
    assert !(m < n) && !(n < m);
  }

  lemma {:induction false} Shift<T>(a: seq<T>, x: T, b: seq<T>)
    ensures a + ([x] + b) == (a + [x]) + b
  {}

  lemma {:induction false} InSomeSnoc(ms: seq<Mention>, m: Mention, k: nat)
    ensures InSome(ms + [m], k) <==> InSome(ms, k) || In(m, k)
  {
    var all := ms + [m];
    if InSome(ms, k) {
      var a :| 0 <= a < |ms| && In(ms[a], k);
      assert In(all[a], k);
    }
    if In(m, k) { assert In(all[|ms|], k); }
    if InSome(all, k) {
      var a :| 0 <= a < |all| && In(all[a], k);
      if a < |ms| { assert In(ms[a], k); }
    }
  }

  // ----- Exclusion phrases -------------------------------------------------------------------

  const TRIGGERS: seq<seq<string>> := [
    ["not", "in"], ["except"], ["except", "for"], ["excluding"], ["outside", "of"], ["outside"],
    ["other", "than"], ["apart", "from"], ["but", "not"], ["not", "located", "in"], ["not", "available", "in"]]

  predicate TriggerAt(toks: seq<string>, i: nat, x: nat)
    requires x < |TRIGGERS|
  {
    i + |TRIGGERS[x]| <= |toks| && toks[i..i + |TRIGGERS[x]|] == TRIGGERS[x]
  }

  /** Word `j` follows an exclusion phrase. */
  ghost predicate After(toks: seq<string>, j: nat) {
    exists i: nat, x: nat :: x < |TRIGGERS| && TriggerAt(toks, i, x) && i + |TRIGGERS[x]| <= j
  }

  /** Word `j` follows a phrase among those that start before `i`, or are among the first
      `y` triggers at `i`. */
  ghost predicate AfterSoFar(toks: seq<string>, j: nat, i: nat, y: nat) {
    exists i': nat, x: nat :: (i' < i || (i' == i && x < y))
      && x < |TRIGGERS| && TriggerAt(toks, i', x) && i' + |TRIGGERS[x]| <= j
  }

  method ExclusionEnds(toks: seq<string>) returns (out: set<nat>)
    ensures forall j: nat :: j in out <==> j < |toks| && After(toks, j)
  {
    out := {};
    for i := 0 to |toks|
      invariant forall j: nat :: j in out <==> j < |toks| && AfterSoFar(toks, j, i, 0)
    {
      for y := 0 to |TRIGGERS|
        invariant forall j: nat :: j in out <==> j < |toks| && AfterSoFar(toks, j, i, y)
      {
        if TriggerAt(toks, i, y) {
          var end := i + |TRIGGERS[y]|;
          for k := end to |toks|
            invariant forall j: nat :: j in out <==>
              j < |toks| && (AfterSoFar(toks, j, i, y) || end <= j < k)
          {
            out := out + {k};
          }
        }
      }
    }
  }

  /** Where the first exclusion phrase begins, or -1. */
  method ExclusionStart(toks: seq<string>) returns (first: int)
    ensures first >= 0 ==> exists x: nat :: x < |TRIGGERS| && TriggerAt(toks, first, x)
    ensures forall i: nat, x: nat :: x < |TRIGGERS| && TriggerAt(toks, i, x) ==> 0 <= first <= i
  {
    first := -1;
    for i := 0 to |toks|
      invariant first >= 0 ==> exists x: nat :: x < |TRIGGERS| && TriggerAt(toks, first, x)
      invariant -1 <= first < i
      invariant forall i': nat, x: nat :: i' < i && x < |TRIGGERS| && TriggerAt(toks, i', x) ==> 0 <= first <= i'
    {
      for y := 0 to |TRIGGERS|
        invariant first >= 0 ==> exists x: nat :: x < |TRIGGERS| && TriggerAt(toks, first, x)
        invariant -1 <= first <= i
        invariant forall i': nat, x: nat :: i' < i && x < |TRIGGERS| && TriggerAt(toks, i', x) ==> 0 <= first <= i'
        invariant forall x: nat :: x < y && TriggerAt(toks, i, x) ==> 0 <= first <= i
      {
        if TriggerAt(toks, i, y) && (first < 0 || i < first) { first := i; }
      }
    }
  }

  // ----- The rule for codes --------------------------------------------------------------------

  /** A text as the rule sees it: the words as written and lower-cased. */
  datatype Text = Text(t: Tables, raw: seq<string>, toks: seq<string>)

  ghost predicate Valid(x: Text) { |x.raw| == |x.toks| }

  predicate Capitals(s: string) { forall i :: 0 <= i < |s| ==> !('a' <= s[i] <= 'z') }

  predicate Linking(s: string) { s == "and" || s == "or" }

  /** The next word before (-1) or after (1) `j` that is not "and" or "or". */
  function Neighbour(toks: seq<string>, j: int, step: int): int
    requires step == 1 || step == -1
    decreases if step == 1 then |toks| - j else j
  {
    if 0 <= j < |toks| && Linking(toks[j]) then Neighbour(toks, j + step, step) else j
  }

  method FindNeighbour(toks: seq<string>, i: nat, step: int) returns (j: int)
    requires step == 1 || step == -1
    ensures j == Neighbour(toks, i + step, step)
  {
    j := i + step;
    while 0 <= j < |toks| && Linking(toks[j])
      invariant Neighbour(toks, j, step) == Neighbour(toks, i + step, step)
      decreases if step == 1 then |toks| - j else j
    {
      j := j + step;
    }
  }

  predicate Candidate(x: Text, i: nat) {
    i < |x.raw| && |x.raw[i]| == 2 && Capitals(x.raw[i]) && x.raw[i] !in x.t.codeStop && x.raw[i] in x.t.iso
  }

  predicate Introduced(x: Text, i: nat) {
    0 < i <= |x.toks| && (x.toks[i - 1] == "remote" || x.toks[i - 1] == "hybrid")
  }

  /** The kind of the first mention holding a word. */
  function KindAt(ms: seq<Mention>, k: nat): Kind {
    if ms == [] then Ambiguous else if In(ms[0], k) then ms[0].place.kind else KindAt(ms[1..], k)
  }

  /** The kind a word has once it is covered: that of its phrase, or of its code. */
  function KindOf(x: Text, k: nat): Kind {
    var ms := Munch(x.t, x.toks, 0);
    if InSome(ms, k) then KindAt(ms, k)
    else if k < |x.raw| && x.raw[k] in x.t.iso then x.t.iso[x.raw[k]].kind
    else Ambiguous
  }

  predicate Holds(s: set<nat>, j: int) { j >= 0 && j in s }

  /** Whether the code at `i` is accepted next to the covered words `s`. */
  ghost predicate Accepts(x: Text, s: set<nat>, i: nat) {
    var prev, next := Neighbour(x.toks, i - 1, -1), Neighbour(x.toks, i + 1, 1);
    && Candidate(x, i)
    && (Holds(s, prev) || Holds(s, next) || After(x.toks, i) || Introduced(x, i))
    && (x.raw[i] in x.t.usStates ==>
          (Holds(s, prev) && KindOf(x, prev) == Country) || After(x.toks, i) || Introduced(x, i))
  }

  /** The words covered by the phrases. */
  ghost function Base(x: Text): set<nat> {
    set k: nat | k < |x.toks| && InSome(Munch(x.t, x.toks, 0), k)
  }

  ghost predicate Closed(x: Text, s: set<nat>) {
    Base(x) <= s && forall i: nat :: Accepts(x, s, i) ==> i in s
  }

  /** The least set holding the phrases and closed under the rule. */
  ghost predicate Least(x: Text, s: set<nat>) {
    Closed(x, s) && forall c: set<nat> :: Closed(x, c) ==> s <= c
  }

  lemma {:induction false} AcceptsMonotone(x: Text, s: set<nat>, c: set<nat>, i: nat)
    requires s <= c && Accepts(x, s, i)
    ensures Accepts(x, c, i)
  {}

  // ----- The rule word by word -----------------------------------------------------------------

  ghost predicate JoinsItems(toks: seq<string>, k: int) {
    0 <= k < |toks| && (toks[k] == "and" || toks[k] == "or")
  }

  /** The words `a` and `b` are next to each other but for some "and" or "or". */
  ghost predicate NextTo(toks: seq<string>, a: nat, b: nat) {
    && a < b <= |toks| && !JoinsItems(toks, a)
    && forall k :: a < k < b ==> JoinsItems(toks, k)
  }

  ghost predicate NextBefore(toks: seq<string>, a: nat, b: nat) {
    && b < a < |toks| && !JoinsItems(toks, a)
    && forall k :: b < k < a ==> JoinsItems(toks, k)
  }

  /** The word is part of a phrase that names a country, or else is the code of one. */
  ghost predicate NamesCountry(x: Text, k: nat) {
    if exists m :: m in Munch(x.t, x.toks, 0) && m.start <= k < m.end then
      exists m :: m in Munch(x.t, x.toks, 0) && m.start <= k < m.end && m.place.kind == Country
    else k < |x.raw| && x.raw[k] in x.t.iso && x.t.iso[x.raw[k]].kind == Country
  }

  /** Two capitals that are a country's code and no ordinary word. */
  ghost predicate IsCode(x: Text, i: nat) {
    && i < |x.raw| && |x.raw[i]| == 2
    && !('a' <= x.raw[i][0] <= 'z') && !('a' <= x.raw[i][1] <= 'z')
    && x.raw[i] !in x.t.codeStop && x.raw[i] in x.t.iso
  }

  /** A code counts behind an exclusion, behind "remote" or "hybrid", or in a list with a word
      that counts; one that is also a state of the US only in a list behind a country. */
  ghost predicate Admitted(x: Text, s: set<nat>, i: nat) {
    && IsCode(x, i)
    && (|| After(x.toks, i)
        || (0 < i <= |x.toks| && x.toks[i - 1] in {"remote", "hybrid"})
        || (exists j :: j in s && NextTo(x.toks, j, i) && (x.raw[i] in x.t.usStates ==> NamesCountry(x, j)))
        || (x.raw[i] !in x.t.usStates && exists j :: j in s && NextBefore(x.toks, j, i)))
  }

  lemma {:induction false} NeighbourBefore(toks: seq<string>, i: nat, start: int)
    requires -1 <= start < i <= |toks| && forall k :: start < k < i ==> JoinsItems(toks, k)
    ensures -1 <= Neighbour(toks, start, -1) <= start
    ensures forall j: nat :: NextTo(toks, j, i) <==> j == Neighbour(toks, start, -1)
    decreases start + 1
  {
    if JoinsItems(toks, start) { NeighbourBefore(toks, i, start - 1); }
  }

  lemma {:induction false} NeighbourBehind(toks: seq<string>, i: nat, start: nat)
    requires i < start <= |toks| && forall k :: i < k < start ==> JoinsItems(toks, k)
    ensures start <= Neighbour(toks, start, 1) <= |toks|
    ensures forall j: nat :: NextBefore(toks, j, i) <==> j == Neighbour(toks, start, 1) && j < |toks|
    decreases |toks| - start
  {
    if JoinsItems(toks, start) { NeighbourBehind(toks, i, start + 1); }
  }

  /** The kind a covered word has is that of the one mention holding it. */
  lemma {:induction false} KindAtHolds(ms: seq<Mention>, m: Mention, k: nat)
    requires Ordered(ms) && m in ms && In(m, k)
    ensures KindAt(ms, k) == m.place.kind
  {
    if !In(ms[0], k) {
      assert ms == [ms[0]] + ms[1..];
      KindAtHolds(ms[1..], m, k);
    } else {
      var a :| 0 <= a < |ms| && ms[a] == m;
      OneHolder(ms, 0, a, k);
    }
  }

  lemma {:induction false} OneHolder(ms: seq<Mention>, a: nat, b: nat, k: nat)
    requires Ordered(ms) && a < |ms| && b < |ms| && In(ms[a], k) && In(ms[b], k)
    ensures a == b
  {}

  lemma {:induction false} HoldersKind(ms: seq<Mention>, k: nat)
    requires Ordered(ms)
    ensures InSome(ms, k) <==> exists m :: m in ms && m.start <= k < m.end
    ensures InSome(ms, k) ==>
      (KindAt(ms, k) == Country <==> exists m :: m in ms && m.start <= k < m.end && m.place.kind == Country)
  {
    forall m | m in ms && In(m, k) ensures KindAt(ms, k) == m.place.kind { KindAtHolds(ms, m, k); }
    if InSome(ms, k) {
      var a :| 0 <= a < |ms| && In(ms[a], k);
      assert ms[a] in ms && ms[a].start <= k < ms[a].end;
    }
    forall m | m in ms && m.start <= k < m.end ensures InSome(ms, k) {
      var a :| 0 <= a < |ms| && ms[a] == m;
      assert In(ms[a], k);
    }
  }

  lemma {:induction false} CountryIff(x: Text, k: nat)
    ensures KindOf(x, k) == Country <==> NamesCountry(x, k)
  {
    MunchIsMunch(x.t, x.toks, 0);
    HoldersKind(Munch(x.t, x.toks, 0), k);
  }

  /** The branch of the scan accepts what that rule admits. */
  lemma {:induction false} AcceptsIff(x: Text, s: set<nat>, i: nat)
    requires Valid(x) && forall k :: k in s ==> k < |x.toks|
    ensures Accepts(x, s, i) <==> Admitted(x, s, i)
  {
    if i < |x.toks| {
      NeighbourBefore(x.toks, i, i - 1);
      NeighbourBehind(x.toks, i, i + 1);
      forall k: nat ensures KindOf(x, k) == Country <==> NamesCountry(x, k) { CountryIff(x, k); }
      AcceptsListed(x, s, i);
    }
  }

  lemma {:induction false} AcceptsListed(x: Text, s: set<nat>, i: nat)
    requires Valid(x) && i < |x.toks| && forall k :: k in s ==> k < |x.toks|
    requires forall j: nat :: NextTo(x.toks, j, i) <==> j == Neighbour(x.toks, i - 1, -1)
    requires forall j: nat :: NextBefore(x.toks, j, i) <==> j == Neighbour(x.toks, i + 1, 1) && j < |x.toks|
    requires forall k: nat :: KindOf(x, k) == Country <==> NamesCountry(x, k)
    ensures Accepts(x, s, i) <==> Admitted(x, s, i)
  {
    var prev, next := Neighbour(x.toks, i - 1, -1), Neighbour(x.toks, i + 1, 1);
    assert Holds(s, prev) ==> NextTo(x.toks, prev, i);
    assert Holds(s, next) ==> NextBefore(x.toks, next, i);
    assert Candidate(x, i) <==> IsCode(x, i);
  }

  // ----- The order of accepting does not matter ----------------------------------------------------

  /** Codes accepted one at a time, in any order. */
  ghost predicate AcceptedInOrder(x: Text, s: set<nat>, order: seq<nat>, last: set<nat>)
    decreases |order|
  {
    if order == [] then last == s
    else Accepts(x, s, order[0]) && AcceptedInOrder(x, s + {order[0]}, order[1..], last)
  }

  lemma {:induction false} AcceptedStayBelow(x: Text, s: set<nat>, order: seq<nat>, last: set<nat>, c: set<nat>)
    requires AcceptedInOrder(x, s, order, last) && s <= c && Closed(x, c)
    ensures s <= last <= c
    decreases |order|
  {
    if order != [] {
      AcceptsMonotone(x, s, c, order[0]);
      AcceptedStayBelow(x, s + {order[0]}, order[1..], last, c);
    }
  }

  /** Whatever order codes are looked at in, once nothing more is accepted the same words
      are covered. */
  lemma {:induction false} OrderDoesNotMatter(x: Text, order: seq<nat>, last: set<nat>, f: set<nat>)
    requires AcceptedInOrder(x, Base(x), order, last) && Least(x, f)
    requires forall i: nat :: Accepts(x, last, i) ==> i in last
    ensures last == f
  {
    AcceptedStayBelow(x, Base(x), order, last, f);
    assert Closed(x, last);
  }

  // ----- The second pass -------------------------------------------------------------------------

  function CodeMention(x: Text, i: nat): Mention
    requires i < |x.raw| && x.raw[i] in x.t.iso
  {
    Mention(x.t.iso[x.raw[i]], i, i + 1)
  }

  /** The mentions of the codes in `codes`. */
  ghost predicate AreCodes(x: Text, codes: seq<nat>, ms: seq<Mention>) {
    && |ms| == |codes|
    && forall a :: 0 <= a < |codes| ==>
         codes[a] < |x.raw| && x.raw[codes[a]] in x.t.iso && ms[a] == CodeMention(x, codes[a])
  }

  lemma {:induction false} KindAtConcat(a: seq<Mention>, b: seq<Mention>, k: nat)
    ensures KindAt(a + b, k) == if InSome(a, k) then KindAt(a, k) else KindAt(b, k)
  {
    if a == [] {
      assert a + b == b;
    } else {
      assert (a + b)[1..] == a[1..] + b;
      KindAtConcat(a[1..], b, k);
      if !In(a[0], k) {
        if InSome(a, k) {
          var c :| 0 <= c < |a| && In(a[c], k);
          assert In(a[1..][c - 1], k);
        }
        if InSome(a[1..], k) {
          var c :| 0 <= c < |a[1..]| && In(a[1..][c], k);
          assert In(a[c + 1], k);
        }
      }
    }
  }

  lemma {:induction false} KindAtCode(x: Text, codes: seq<nat>, ms: seq<Mention>, k: nat)
    requires AreCodes(x, codes, ms) && k in codes
    ensures KindAt(ms, k) == x.t.iso[x.raw[k]].kind
  {
    if codes[0] != k {
      assert codes == [codes[0]] + codes[1..];
      KindAtCode(x, codes[1..], ms[1..], k);
    }
  }

  /** The state of the second pass: the phrases, then the codes accepted so far. */
  ghost predicate Sweeping(x: Text, out: seq<Mention>, codes: seq<nat>, s: set<nat>) {
    var ms := Munch(x.t, x.toks, 0);
    && |out| == |ms| + |codes| && out[..|ms|] == ms && AreCodes(x, codes, out[|ms|..])
    && (forall k: nat :: k in s <==> k in Base(x) || k in codes)
    && (forall a :: 0 <= a < |codes| ==> codes[a] !in Base(x))
    && (forall a, b :: 0 <= a < b < |codes| ==> codes[a] != codes[b])
    && (forall c: set<nat> :: Closed(x, c) ==> s <= c)
  }

  lemma {:induction false} KindKnown(x: Text, out: seq<Mention>, codes: seq<nat>, s: set<nat>, k: nat)
    requires Sweeping(x, out, codes, s) && k in s
    ensures KindAt(out, k) == KindOf(x, k)
  {
    var ms := Munch(x.t, x.toks, 0);
    assert out == ms + out[|ms|..];
    KindAtConcat(ms, out[|ms|..], k);
    if !InSome(ms, k) { KindAtCode(x, codes, out[|ms|..], k); }
  }

  lemma {:induction false} AcceptCode(x: Text, out: seq<Mention>, codes: seq<nat>, s: set<nat>, i: nat)
    requires Sweeping(x, out, codes, s) && Accepts(x, s, i) && i !in s
    ensures Sweeping(x, out + [CodeMention(x, i)], codes + [i], s + {i})
  {
    var ms := Munch(x.t, x.toks, 0);
    var out' := out + [CodeMention(x, i)];
    assert out'[|ms|..] == out[|ms|..] + [CodeMention(x, i)];
    assert out'[..|ms|] == ms;
    forall c: set<nat> | Closed(x, c) ensures s + {i} <= c { AcceptsMonotone(x, s, c, i); }
  }

  /** The words marked as covered. */
  ghost function Marked(covered: seq<bool>): set<nat> { set k: nat | k < |covered| && covered[k] }

  lemma {:induction false} MarkedNext(covered: seq<bool>, i: nat)
    requires i < |covered|
    ensures Marked(covered[i := true]) == Marked(covered) + {i}
  {}

  /** Whether the code at `i` is to be added now. */
  method Judge(
    x: Text, covered: array<bool>, after: set<nat>, out: seq<Mention>, i: nat, ghost codes: seq<nat>, ghost s: set<nat>)
    returns (accepted: bool)
    requires Valid(x) && covered.Length == |x.toks| && i < |x.raw|
    requires s == Marked(covered[..]) && Sweeping(x, out, codes, s)
    requires forall j: nat :: j in after <==> j < |x.toks| && After(x.toks, j)
    ensures accepted <==> Accepts(x, s, i) && i !in s
  {
    var r := x.raw[i];
    if covered[i] || |r| != 2 || !Capitals(r) || r in x.t.codeStop { return false; }
    if r !in x.t.iso { return false; }
    var prev := FindNeighbour(x.toks, i, -1);
    var next := FindNeighbour(x.toks, i, 1);
    var prevPlace := 0 <= prev < |x.toks| && covered[prev];
    var nextPlace := 0 <= next < |x.toks| && covered[next];
    assert (prevPlace <==> Holds(s, prev)) && (nextPlace <==> Holds(s, next));
    if prevPlace { KindKnown(x, out, codes, s, prev); }
    var introduced := i > 0 && (x.toks[i - 1] == "remote" || x.toks[i - 1] == "hybrid");
    if r in x.t.usStates && !(prevPlace && KindAt(out, prev) == Country) && i !in after && !introduced {
      return false; // "San Francisco, CA" names a state
    }
    if !(prevPlace || nextPlace) && i !in after && !introduced { return false; }
    return true;
  }

  /** No code is left to be accepted. */
  ghost predicate Saturated(x: Text, s: set<nat>) { forall i: nat :: Accepts(x, s, i) ==> i in s }

  /** One sweep over the words. */
  method Sweep(x: Text, covered: array<bool>, after: set<nat>, out0: seq<Mention>, ghost codes0: seq<nat>)
    returns (out: seq<Mention>, changed: bool, ghost codes: seq<nat>)
    requires Valid(x) && covered.Length == |x.toks| && Sweeping(x, out0, codes0, Marked(covered[..]))
    requires forall j: nat :: j in after <==> j < |x.toks| && After(x.toks, j)
    modifies covered
    ensures Sweeping(x, out, codes, Marked(covered[..]))
    ensures changed ==> |codes0| < |codes| <= |x.raw|
    ensures !changed ==> codes == codes0 && Saturated(x, Marked(covered[..]))
  {
    out, codes, changed := out0, codes0, false;
    ghost var s := Marked(covered[..]);
    for i := 0 to |x.raw|
      invariant s == Marked(covered[..])
      invariant Sweeping(x, out, codes, s)
      invariant changed ==> |codes0| < |codes|
      invariant !changed ==> codes == codes0 && forall j: nat :: j < i && Accepts(x, s, j) ==> j in s
    {
      var accepted := Judge(x, covered, after, out, i, codes, s);
      if !accepted { continue; }
      AcceptCode(x, out, codes, s, i);
      out, codes := out + [CodeMention(x, i)], codes + [i];
      MarkedNext(covered[..], i);
      covered[i] := true;
      s := s + {i};
      changed := true;
    }
    FewCodes(x, codes);
  }

  method AddCodes(x: Text, covered: array<bool>, phrases: seq<Mention>)
    returns (out: seq<Mention>, ghost codes: seq<nat>)
    requires Valid(x) && covered.Length == |x.toks| && phrases == Munch(x.t, x.toks, 0)
    requires forall k :: 0 <= k < |x.toks| ==> (covered[k] <==> InSome(phrases, k))
    modifies covered
    ensures Sweeping(x, out, codes, Marked(covered[..])) && Least(x, Marked(covered[..]))
  {
    out, codes := phrases, [];
    var after := ExclusionEnds(x.toks);
    var changed := true;
    while changed
      invariant Sweeping(x, out, codes, Marked(covered[..])) && |codes| <= |x.raw|
      invariant !changed ==> Saturated(x, Marked(covered[..]))
      decreases |x.raw| - |codes|, changed
    {
      out, changed, codes := Sweep(x, covered, after, out, codes);
    }
  }

  lemma {:induction false} FewCodes(x: Text, codes: seq<nat>)
    requires forall a :: 0 <= a < |codes| ==> codes[a] < |x.raw|
    requires forall a, b :: 0 <= a < b < |codes| ==> codes[a] != codes[b]
    ensures |codes| <= |x.raw|
  {
    DistinctFit(codes, Upto(|x.raw|));
  }

  function Upto(n: nat): (s: set<nat>)
    ensures |s| == n && forall k: nat :: k in s <==> k < n
  {
    if n == 0 then {} else Upto(n - 1) + {n - 1}
  }

  lemma {:induction false} DistinctFit(xs: seq<nat>, s: set<nat>)
    requires forall a :: 0 <= a < |xs| ==> xs[a] in s
    requires forall a, b :: 0 <= a < b < |xs| ==> xs[a] != xs[b]
    ensures |xs| <= |s|
  {
    if xs != [] { DistinctFit(xs[1..], s - {xs[0]}); }
  }

  // ----- The whole scan ------------------------------------------------------------------------------

  predicate Disjoint(ms: seq<Mention>) {
    forall a, b :: 0 <= a < b < |ms| ==> ms[a].end <= ms[b].start || ms[b].end <= ms[a].start
  }

  lemma {:induction false} SweepingDisjoint(x: Text, out: seq<Mention>, codes: seq<nat>, s: set<nat>)
    requires Valid(x) && Sweeping(x, out, codes, s)
    ensures Disjoint(out) && forall a :: 0 <= a < |out| ==> out[a].start < out[a].end <= |x.toks|
  {
    var ms := Munch(x.t, x.toks, 0);
    MunchIsMunch(x.t, x.toks, 0);
    forall a | 0 <= a < |out| ensures out[a].start < out[a].end <= |x.toks| {
      if a < |ms| {
        assert out[a] == ms[a] && Maximal(x.t, x.toks, ms[a]);
      } else {
        assert out[a] == out[|ms|..][a - |ms|];
      }
    }
    forall a, b | 0 <= a < b < |out| ensures out[a].end <= out[b].start || out[b].end <= out[a].start {
      if b < |ms| {
        assert out[a] == ms[a] && out[b] == ms[b];
      } else {
        var i := codes[b - |ms|];
        assert out[b] == out[|ms|..][b - |ms|] == CodeMention(x, i);
        if a < |ms| {
          assert out[a] == ms[a] && i !in Base(x);
          assert !In(ms[a], i);
        } else {
          assert out[a] == out[|ms|..][a - |ms|] == CodeMention(x, codes[a - |ms|]);
        }
      }
    }
  }

  predicate SortedByStart(ms: seq<Mention>) {
    forall a, b :: 0 <= a < b < |ms| ==> ms[a].start <= ms[b].start
  }

  /** A stable insertion by start. */
  function Insert(m: Mention, ms: seq<Mention>): seq<Mention> {
    if ms == [] || m.start < ms[0].start then [m] + ms else [ms[0]] + Insert(m, ms[1..])
  }

  lemma {:induction false} InsertHolds(m: Mention, ms: seq<Mention>)
    ensures multiset(Insert(m, ms)) == multiset(ms) + multiset{m}
    ensures forall p :: p in Insert(m, ms) <==> p == m || p in ms
  {
    if ms != [] && ms[0].start <= m.start {
      InsertHolds(m, ms[1..]);
      assert ms == [ms[0]] + ms[1..];
    }
  }

  lemma {:induction false} InsertSorted(m: Mention, ms: seq<Mention>)
    requires SortedByStart(ms)
    ensures SortedByStart(Insert(m, ms))
  {
    if ms != [] && ms[0].start <= m.start {
      InsertSorted(m, ms[1..]);
      InsertHolds(m, ms[1..]);
      var r := Insert(m, ms[1..]);
      forall a | 0 <= a < |r| ensures ms[0].start <= r[a].start { assert r[a] == m || r[a] in ms[1..]; }
    }
  }

  method SortByStart(ms: seq<Mention>) returns (sorted: seq<Mention>)
    ensures SortedByStart(sorted) && multiset(sorted) == multiset(ms)
  {
    sorted := [];
    for i := 0 to |ms|
      invariant SortedByStart(sorted) && multiset(sorted) == multiset(ms[..i])
    {
      InsertHolds(ms[i], sorted);
      InsertSorted(ms[i], sorted);
      assert ms[..i + 1] == ms[..i] + [ms[i]];
      sorted := Insert(ms[i], sorted);
    }
    assert ms[..|ms|] == ms;
  }

  /** Sorting disjoint mentions puts them one after the other. */
  lemma {:induction false} SortedDisjointOrdered(ms: seq<Mention>, sorted: seq<Mention>)
    requires Disjoint(ms) && SortedByStart(sorted) && multiset(sorted) == multiset(ms)
    requires forall a :: 0 <= a < |ms| ==> ms[a].start < ms[a].end
    ensures Ordered(sorted) && forall m :: m in sorted <==> m in ms
  {
    forall m ensures m in sorted <==> m in ms {
      assert m in sorted <==> m in multiset(sorted);
      assert m in ms <==> m in multiset(ms);
    }
    NoTwice(ms);
    forall a, b | 0 <= a < b < |sorted| ensures sorted[a].end <= sorted[b].start {
      assert sorted[a] in ms && sorted[b] in ms;
      TwiceCounts(sorted, a, b);
      assert multiset(ms)[sorted[a]] <= 1;
      var c :| 0 <= c < |ms| && ms[c] == sorted[a];
      var d :| 0 <= d < |ms| && ms[d] == sorted[b];
      assert c != d;
    }
  }

  lemma {:induction false} TwiceCounts(ms: seq<Mention>, a: nat, b: nat)
    requires a < b < |ms|
    ensures ms[a] == ms[b] ==> multiset(ms)[ms[a]] >= 2
  {
    assert ms == ms[..b] + [ms[b]] + ms[b + 1..];
    assert ms[a] in ms[..b];
  }

  lemma {:induction false} NoTwice(ms: seq<Mention>)
    requires Disjoint(ms) && forall a :: 0 <= a < |ms| ==> ms[a].start < ms[a].end
    ensures forall m :: multiset(ms)[m] <= 1
  {
    if ms != [] {
      var front, last := ms[..|ms| - 1], ms[|ms| - 1];
      NoTwice(front);
      assert last !in front by {
        forall a | 0 <= a < |front| ensures front[a] != last { assert ms[a] == front[a]; }
      }
      assert multiset(ms) == multiset(front) + multiset{last} by { assert ms == front + [last]; }
    }
  }

  /** The scan returns disjoint mentions in order: the leftmost longest phrases, and the
      codes of the least set closed under the acceptance rule. */
  method Scan(x: Text) returns (ms: seq<Mention>, ghost covered: set<nat>)
    requires Valid(x)
    ensures Ordered(ms) && forall a :: 0 <= a < |ms| ==> ms[a].start < ms[a].end <= |x.toks|
    ensures Least(x, covered)
    ensures forall i: nat :: i in covered <==> i in Base(x) || Admitted(x, covered, i)
    ensures forall m :: m in ms <==>
      || m in Munch(x.t, x.toks, 0)
      || (m.start in covered - Base(x) && Candidate(x, m.start) && m == CodeMention(x, m.start))
  {
    var marks := new bool[|x.toks|](_ => false);
    var phrases := ScanLexicon(x.t, x.toks, marks);
    ghost var codes;
    var out;
    out, codes := AddCodes(x, marks, phrases);
    covered := Marked(marks[..]);
    SweepingDisjoint(x, out, codes, covered);
    ms := SortByStart(out);
    SortedDisjointOrdered(out, ms);
    forall a | 0 <= a < |ms| ensures ms[a].start < ms[a].end <= |x.toks| { assert ms[a] in out; }
    MentionsAre(x, out, codes, covered);
    forall i: nat ensures i in covered <==> i in Base(x) || Admitted(x, covered, i) { CoveredAre(x, covered, i); }
  }

  /** The words covered in the end are those of the phrases and the codes admitted next to them. */
  lemma {:induction false} CoveredAre(x: Text, s: set<nat>, i: nat)
    requires Valid(x) && Least(x, s) && forall k :: k in s ==> k < |x.toks|
    ensures i in s <==> i in Base(x) || Admitted(x, s, i)
  {
    AcceptsIff(x, s, i);
    if i in s && i !in Base(x) && !Accepts(x, s, i) {
      var c := s - {i};
      forall j: nat | Accepts(x, c, j) ensures j in c { AcceptsMonotone(x, c, s, j); }
      assert Closed(x, c);
    }
  }

  lemma {:induction false} MentionsAre(x: Text, out: seq<Mention>, codes: seq<nat>, s: set<nat>)
    requires Sweeping(x, out, codes, s) && Least(x, s)
    ensures forall m :: m in out <==>
      || m in Munch(x.t, x.toks, 0)
      || (m.start in s - Base(x) && Candidate(x, m.start) && m == CodeMention(x, m.start))
  {
    var ms := Munch(x.t, x.toks, 0);
    assert out == ms + out[|ms|..];
    forall a | 0 <= a < |codes| ensures Candidate(x, codes[a]) { LeastAreCandidates(x, s, codes[a]); }
    forall m
      ensures m in out[|ms|..] <==> m.start in s - Base(x) && Candidate(x, m.start) && m == CodeMention(x, m.start)
    {
      if m in out[|ms|..] {
        var a :| 0 <= a < |codes| && out[|ms|..][a] == m;
        assert m == CodeMention(x, codes[a]);
      }
      if m.start in s - Base(x) && Candidate(x, m.start) && m == CodeMention(x, m.start) {
        var a :| 0 <= a < |codes| && codes[a] == m.start;
        assert out[|ms|..][a] == m;
      }
    }
  }

  /** Only candidates enter the least set. */
  lemma {:induction false} LeastAreCandidates(x: Text, s: set<nat>, i: nat)
    requires Least(x, s) && i in s && i !in Base(x)
    ensures Candidate(x, i)
  {
    if !Candidate(x, i) {
      var c := s - {i};
      forall j: nat | Accepts(x, c, j) ensures j in c { AcceptsMonotone(x, c, s, j); }
      assert Closed(x, c);
    }
  }
}

/** Reading the groups of a robots.txt and applying its longest-match rule
    (RFC 9309, sections 2.2.1 and 2.2.2). */
module RobotsRules {
  import opened RobotsGrammar
  import opened Text
  import Glob
  import PercentEncoding
  import RobotsLines

  /** Every line as `read` takes it; the first line is told apart. */
  function EventsBy(lines: seq<string>, read: (string, bool) -> Event): (es: seq<Event>)
    ensures |es| == |lines|
  {
    seq(|lines|, i requires 0 <= i < |lines| => read(lines[i], i == 0))
  }

  function Events(lines: seq<string>): seq<Event> {
    EventsBy(lines, ReadLine)
  }

  /** The events the lines stand for. */
  ghost predicate AllMean(lines: seq<string>, es: seq<Event>) {
    |es| == |lines| && forall i :: 0 <= i < |lines| ==> Means(lines[i], i == 0, es[i])
  }

  lemma {:induction false} EventsMean(lines: seq<string>, es: seq<Event>)
    ensures AllMean(lines, es) <==> es == Events(lines)
  {
    if |es| == |lines| {
      forall i | 0 <= i < |lines|
        ensures Means(lines[i], i == 0, es[i]) <==> es[i] == ReadLine(lines[i], i == 0)
      {
        MeansIff(lines[i], i == 0, es[i]);
      }
    }
  }

  // ----- Which rules apply ------------------------------------------------------------

  /** The last agent line before `j`, or -1. */
  ghost function LastAgent(es: seq<Event>, j: nat): (l: int)
    requires j <= |es|
    ensures -1 <= l < j && (l >= 0 ==> es[l].Agent?)
    ensures forall t :: l < t < j ==> !es[t].Agent?
  {
    if j == 0 then -1 else if es[j - 1].Agent? then j - 1 else LastAgent(es, j - 1)
  }

  /** Lines `a` to `l` are one run of agent lines, blank lines aside. */
  ghost predicate AgentRun(es: seq<Event>, a: nat, l: nat)
    requires l < |es|
  {
    forall t :: a <= t <= l ==> es[t].Agent? || es[t].Blank?
  }

  /** A rule at `j` belongs to the latest run of agent lines before it; this says that
      run names `name`. */
  ghost predicate Governed(es: seq<Event>, j: nat, name: string)
    requires j <= |es|
  {
    LastAgent(es, j) >= 0 &&
    exists a :: 0 <= a <= LastAgent(es, j) && es[a] == Agent(name) && AgentRun(es, a, LastAgent(es, j))
  }

  /** The rules of every group naming `name`, in order. */
  ghost function RulesFor(es: seq<Event>, n: nat, name: string): seq<Rule>
    requires n <= |es|
  {
    if n == 0 then []
    else RulesFor(es, n - 1, name) + if es[n - 1].Path? && Governed(es, n - 1, name) then [es[n - 1].rule] else []
  }

  /** The rules of the groups naming the crawler; those of the `*` groups only when no
      line names it at all. */
  ghost function Applicable(es: seq<Event>, agent: string): seq<Rule> {
    if agent != "" && Agent(agent) in es then RulesFor(es, |es|, agent) else RulesFor(es, |es|, "*")
  }

  // The same, read line by line.

  predicate RunOpen(es: seq<Event>, j: nat)
    requires j <= |es|
  {
    j > 0 && (es[j - 1].Agent? || (es[j - 1].Blank? && RunOpen(es, j - 1)))
  }

  predicate InGroup(es: seq<Event>, j: nat, name: string)
    requires j <= |es|
  {
    j > 0 &&
    if es[j - 1].Agent? then es[j - 1].name == name || (RunOpen(es, j - 1) && InGroup(es, j - 1, name))
    else InGroup(es, j - 1, name)
  }

  function GroupRules(es: seq<Event>, n: nat, name: string): seq<Rule>
    requires n <= |es|
  {
    if n == 0 then []
    else if es[n - 1].Path? && InGroup(es, n - 1, name) then GroupRules(es, n - 1, name) + [es[n - 1].rule]
    else GroupRules(es, n - 1, name)
  }

  lemma {:induction false} RunOpenSinceAgent(es: seq<Event>, j: nat)
    requires j <= |es|
    ensures RunOpen(es, j) <==> LastAgent(es, j) >= 0 && forall t :: LastAgent(es, j) < t < j ==> es[t].Blank?
  {
    if j > 0 { RunOpenSinceAgent(es, j - 1); }
  }

  /** Reading line by line finds the groups of the declarative reading. */
  lemma {:induction false} InGroupIffGoverned(es: seq<Event>, j: nat, name: string)
    requires j <= |es|
    ensures InGroup(es, j, name) <==> Governed(es, j, name)
  {
    if j > 0 {
      InGroupIffGoverned(es, j - 1, name);
      RunOpenSinceAgent(es, j - 1);
      var l := LastAgent(es, j - 1);
      if es[j - 1].Agent? {
        if es[j - 1].name == name { assert AgentRun(es, j - 1, j - 1); }
        if RunOpen(es, j - 1) && Governed(es, j - 1, name) {
          var a :| 0 <= a <= l && es[a] == Agent(name) && AgentRun(es, a, l);
          assert AgentRun(es, a, j - 1);
        }
        if Governed(es, j, name) && es[j - 1].name != name {
          var a :| 0 <= a <= j - 1 && es[a] == Agent(name) && AgentRun(es, a, j - 1);
          assert a <= l && AgentRun(es, a, l);
        }
      }
    }
  }

  lemma {:induction false} GroupRulesAreRulesFor(es: seq<Event>, n: nat, name: string)
    requires n <= |es|
    ensures GroupRules(es, n, name) == RulesFor(es, n, name)
  {
    if n > 0 {
      GroupRulesAreRulesFor(es, n - 1, name);
      InGroupIffGoverned(es, n - 1, name);
    }
  }

  const DENY_ALL: seq<Rule> := [Rule(false, "/")]

  method Parse(lines: seq<string>, agent: string, tooLong: bool) returns (rules: seq<Rule>)
    ensures forall es :: AllMean(lines, es) ==> rules == if tooLong then DENY_ALL else Applicable(es, agent)
  {
    rules := ParseLines(lines, ReadLine, agent);
    forall es | AllMean(lines, es) ensures es == Events(lines) { EventsMean(lines, es); }
    if tooLong { return DENY_ALL; }
  }

  /** The loop over the lines, for any way `read` of reading one. */
  method ParseLines(lines: seq<string>, read: (string, bool) -> Event, agent: string) returns (rules: seq<Rule>)
    ensures rules == Applicable(EventsBy(lines, read), agent)
  {
    var specific, wildcard: seq<Rule> := [], [];
    var haveSpecific, inSpecific, inWild, lastWasAgentLine := false, false, false, false;
    ghost var es := EventsBy(lines, read);
    for i := 0 to |lines|
      invariant haveSpecific <==> agent != "" && agent != "*" && Agent(agent) in es[..i]
      invariant inSpecific <==> agent != "" && agent != "*" && InGroup(es, i, agent)
      invariant inWild <==> InGroup(es, i, "*")
      invariant lastWasAgentLine <==> RunOpen(es, i)
      invariant agent != "" && agent != "*" ==> specific == GroupRules(es, i, agent)
      invariant wildcard == GroupRules(es, i, "*")
    {
      var event := read(lines[i], i == 0);
      assert es[..i + 1] == es[..i] + [event];
      assert GroupRules(es, i + 1, agent) ==
        GroupRules(es, i, agent) + if event.Path? && InGroup(es, i, agent) then [event.rule] else [];
      match event
      case Blank =>
      case Agent(v) =>
        if !lastWasAgentLine {
          inSpecific, inWild := false, false;
        }
        lastWasAgentLine := true;
        if v == "*" {
          inWild := true;
        } else if v != "" && agent != "" && v == agent {
          inSpecific, haveSpecific := true, true;
        }
      case Path(rule) =>
        lastWasAgentLine := false;
        if inSpecific { specific := specific + [rule]; }
        if inWild { wildcard := wildcard + [rule]; }
      case Other =>
        lastWasAgentLine := false;
    }
    assert es[..|lines|] == es;
    GroupRulesAreRulesFor(es, |es|, agent);
    GroupRulesAreRulesFor(es, |es|, "*");
    if haveSpecific { return specific; }
    return wildcard;
  }

  // ----- Deciding one path --------------------------------------------------------------

  ghost predicate Matching(r: Rule, rules: seq<Rule>, path: string) {
    r in rules && Glob.RuleMatches(r.pattern, path)
  }

  /** No rule matches, or one of the longest matching rules is an Allow. */
  ghost predicate Permitted(rules: seq<Rule>, path: string) {
    || (forall r :: !Matching(r, rules, path))
    || exists r :: Matching(r, rules, path) && r.allow && Longest(r, rules, path)
  }

  ghost predicate Longest(r: Rule, rules: seq<Rule>, path: string) {
    forall q :: Matching(q, rules, path) ==> |q.pattern| <= |r.pattern|
  }

  lemma {:induction false} MatchingNext(rules: seq<Rule>, i: nat, path: string)
    requires i < |rules|
    ensures forall r :: Matching(r, rules[..i + 1], path) <==>
      Matching(r, rules[..i], path) || (r == rules[i] && Glob.RuleMatches(r.pattern, path))
  {}

  method Allows(rules: seq<Rule>, path: string) returns (best: bool)
    ensures best <==> Permitted(rules, path)
  {
    best := true;
    var bestLen := -1;
    ghost var winner := Rule(true, "");
    for i := 0 to |rules|
      invariant bestLen == -1 ==> best && forall r :: !Matching(r, rules[..i], path)
      invariant bestLen != -1 ==>
        && Matching(winner, rules[..i], path) && |winner.pattern| == bestLen && winner.allow == best
        && Longest(winner, rules[..i], path)
        && (!best ==> forall r :: Matching(r, rules[..i], path) && r.allow ==> |r.pattern| < bestLen)
    {
      var rule := rules[i];
      MatchingNext(rules, i, path);
      var hit := Glob.Matches(rule.pattern, path);
      if !hit { continue; }
      var l := |rule.pattern|;
      if l > bestLen || (l == bestLen && rule.allow) {
        best, bestLen := rule.allow, l;
        winner := rule;
      }
    }
    assert rules[..|rules|] == rules;
  }

  /** The order of the rules, and repeating them, does not matter. */
  lemma {:induction false} OrderDoesNotMatter(a: seq<Rule>, b: seq<Rule>, path: string)
    requires forall r :: r in a <==> r in b
    ensures Permitted(a, path) <==> Permitted(b, path)
  {
    assert forall r :: Matching(r, a, path) <==> Matching(r, b, path);
    assert forall r :: Longest(r, a, path) <==> Longest(r, b, path);
  }

  // ----- From response to answer -----------------------------------------------------------

  /** What fetching a site's robots.txt gave. */
  datatype Fetched = Failed | Response(status: int, body: seq<string>, tooLong: bool)

  datatype Answer = Unavailable | Known(allowed: bool)

  /** The rules a response stands for; none at all when the answer is unknown. */
  ghost predicate RulesOf(f: Fetched, agent: string, rules: seq<Rule>) {
    && f.Response?
    && if 200 <= f.status < 300 then
         var body := RobotsLines.Concat(f.body);
         if '\0' in body || f.tooLong then rules == DENY_ALL
         else exists es :: AllMean(RobotsLines.Lines(body), es) && rules == Applicable(es, agent)
       else !(f.status == 429 || f.status >= 500) && rules == []
  }

  lemma {:induction false} OneSetOfRules(f: Fetched, agent: string, a: seq<Rule>, b: seq<Rule>)
    requires RulesOf(f, agent, a) && RulesOf(f, agent, b)
    ensures a == b
  {
    if 200 <= f.status < 300 {
      var lines := RobotsLines.Lines(RobotsLines.Concat(f.body));
      forall es | AllMean(lines, es) ensures es == Events(lines) { EventsMean(lines, es); }
    }
  }

  method Decide(f: Fetched, agent: string, path: string) returns (answer: Answer)
    ensures answer == Unavailable <==> f.Failed? || f.status == 429 || f.status >= 500
    ensures forall rules :: RulesOf(f, agent, rules) ==>
      answer == Known(Permitted(rules, PercentEncoding.Normal(path)))
  {
    if f.Failed? { return Unavailable; }
    var rules: seq<Rule> := [];
    if 200 <= f.status < 300 {
      var nul := false;
      for i := 0 to |f.body|
        invariant nul <==> '\0' in RobotsLines.Concat(f.body[..i])
      {
        ConcatSnoc(f.body[..i], f.body[i]);
        assert f.body[..i + 1] == f.body[..i] + [f.body[i]];
        nul := nul || '\0' in f.body[i];
      }
      assert f.body[..|f.body|] == f.body;
      if nul {
        rules := DENY_ALL;
      } else {
        var lines := RobotsLines.ReadLines(f.body);
        rules := Parse(lines, agent, f.tooLong);
        EventsMean(lines, Events(lines));
      }
    } else if f.status == 429 || f.status >= 500 {
      return Unavailable;
    }
    forall other | RulesOf(f, agent, other) ensures other == rules { OneSetOfRules(f, agent, other, rules); }
    var canonical := PercentEncoding.NormalizePercent(path);
    var allowed := Allows(rules, canonical);
    answer := Known(allowed);
  }

  lemma {:induction false} ConcatSnoc(chunks: seq<string>, last: string)
    ensures RobotsLines.Concat(chunks + [last]) == RobotsLines.Concat(chunks) + last
  {
    if chunks == [] {
      assert chunks + [last] == [last] && [last][1..] == [];
    } else {
      ConcatSnoc(chunks[1..], last);
      assert (chunks + [last])[1..] == chunks[1..] + [last];
      RobotsLines.Reassociate(chunks[0], RobotsLines.Concat(chunks[1..]), last);
    }
  }

  /** Under the fail-closed rules no path of a URL may be fetched. */
  lemma {:induction false} DenyAllDenies(path: string)
    requires path != "" && path[0] == '/'
    ensures !Permitted(DENY_ALL, path)
  {
    var deny := Rule(false, "/");
    assert path[..1] == "/";
    assert Glob.Fits("/", ["/"]) && Glob.Join(["/"]) == "/" by {
      assert ["/"][1..] == [] && Glob.Join([]) == "";
    }
    assert Glob.Splits("/", path[..1]);
    assert Matching(deny, DENY_ALL, path);
    assert forall r :: Matching(r, DENY_ALL, path) ==> r == deny;
  }

  /** Two spellings of one path get the same answer. */
  lemma {:induction false} EquivalentPathsDecidedAlike(rules: seq<Rule>, p: string, q: string)
    requires PercentEncoding.WellFormed(p) && PercentEncoding.WellFormed(q) && PercentEncoding.Equivalent(p, q)
    ensures Permitted(rules, PercentEncoding.Normal(p)) <==> Permitted(rules, PercentEncoding.Normal(q))
  {
    PercentEncoding.EqualIffEquivalent(p, q);
  }

  /** A response that can be used stands for some rules. */
  lemma {:induction false} HasRules(f: Fetched, agent: string) returns (rules: seq<Rule>)
    requires f.Response? && f.status != 429 && f.status < 500
    ensures RulesOf(f, agent, rules)
  {
    rules := [];
    if 200 <= f.status < 300 {
      var body := RobotsLines.Concat(f.body);
      var es := Events(RobotsLines.Lines(body));
      EventsMean(RobotsLines.Lines(body), es);
      rules := if '\0' in body || f.tooLong then DENY_ALL else Applicable(es, agent);
    }
  }

  // ----- One group -------------------------------------------------------------------------

  /** The only group is that of the star, and its only rule denies a pattern. */
  ghost predicate OnlyDenies(es: seq<Event>, i: nat, j: nat, pattern: string) {
    && i < j < |es| && es[i] == Agent("*") && es[j] == Path(Rule(false, pattern))
    && forall h :: 0 <= h < |es| ==> (es[h].Agent? ==> h == i) && (es[h].Path? ==> h == j)
  }

  lemma {:induction false} GovernedByStar(es: seq<Event>, i: nat, j: nat, pattern: string)
    requires OnlyDenies(es, i, j, pattern)
    ensures Governed(es, j, "*")
  {
    assert AgentRun(es, i, i) && LastAgent(es, j) == i;
  }

  lemma {:induction false} OneRule(es: seq<Event>, i: nat, j: nat, pattern: string, n: nat)
    requires OnlyDenies(es, i, j, pattern) && n <= |es|
    ensures RulesFor(es, n, "*") == if n <= j then [] else [Rule(false, pattern)]
  {
    if n > 0 {
      OneRule(es, i, j, pattern, n - 1);
      GovernedByStar(es, i, j, pattern);
    }
  }

  /** Whatever the crawler is called, that body denies exactly the paths the pattern matches. */
  lemma {:induction false} StarGroupDenies(es: seq<Event>, i: nat, j: nat, pattern: string, agent: string, path: string)
    requires OnlyDenies(es, i, j, pattern)
    ensures Permitted(Applicable(es, agent), path) <==> !Glob.RuleMatches(pattern, path)
  {
    OneRule(es, i, j, pattern, |es|);
    var deny := Rule(false, pattern);
    assert Applicable(es, agent) == [deny] by {
      if agent != "" && Agent(agent) in es { assert agent == "*"; }
    }
    assert forall r :: Matching(r, [deny], path) <==> r == deny && Glob.RuleMatches(pattern, path);
  }

  /** The same of a response: whatever its other lines are, as long as they name no agent
      and no path. */
  lemma {:induction false} StarBodyDenies(
    f: Fetched, es: seq<Event>, i: nat, j: nat, pattern: string, agent: string, rules: seq<Rule>, path: string)
    requires RulesOf(f, agent, rules) && 200 <= f.status < 300
    requires !f.tooLong && '\0' !in RobotsLines.Concat(f.body)
    requires AllMean(RobotsLines.Lines(RobotsLines.Concat(f.body)), es) && OnlyDenies(es, i, j, pattern)
    ensures Permitted(rules, path) <==> !Glob.RuleMatches(pattern, path)
  {
    assert RulesOf(f, agent, Applicable(es, agent));
    OneSetOfRules(f, agent, rules, Applicable(es, agent));
    StarGroupDenies(es, i, j, pattern, agent, path);
  }

  /** The line is this key, a colon and this value, without a comment or byte order mark. */
  ghost predicate IsPlain(raw: string, first: bool, key: string, value: string) {
    IsField(raw, key, value) && '#' !in raw && !(first && BOM <= raw)
  }

  lemma {:induction false} PlainLine(raw: string, first: bool, key: string, value: string, e: Event)
    requires IsPlain(raw, first, key, value) && Means(raw, first, e)
    ensures FieldSays(key, value, e)
  {
    var text :| Content(raw, first, text) && TextMeans(text, e);
    ContentIs(raw, first, text);
    IndexIs(raw, '#', raw, "");
    assert raw[|key|] == ':';
    FieldIs(raw, key, value);
    var a, b :| IsField(raw, a, b) && FieldSays(a, b, e);
    FieldIs(raw, a, b);
  }

  lemma {:induction false} SaysOne(key: string, word: string, other: string)
    requires Says(key, word) && word != other
    ensures !Says(key, other)
  {
    SaysIff(key, word);
    SaysIff(key, other);
  }

  lemma {:induction false} StarLine(raw: string, key: string, value: string, e: Event)
    requires IsPlain(raw, true, key, value) && Says(key, "user-agent") && Padded(value, "*")
    requires Means(raw, true, e)
    ensures e == Agent("*")
  {
    PlainLine(raw, true, key, value, e);
    TrimIsCore(value, "*");
    var core :| Padded(value, core) && FieldMeans(key, core, e);
    TrimIsCore(value, core);
    assert e.name == "*";
  }

  lemma {:induction false} DisallowLine(raw: string, key: string, value: string, pattern: string, e: Event)
    requires IsPlain(raw, false, key, value) && Says(key, "disallow") && Padded(value, pattern) && pattern != ""
    requires Means(raw, false, e)
    ensures e == Path(Rule(false, PercentEncoding.Normal(pattern)))
  {
    PlainLine(raw, false, key, value, e);
    SaysOne(key, "disallow", "user-agent");
    SaysOne(key, "disallow", "allow");
    TrimIsCore(value, pattern);
    var core :| Padded(value, core) && FieldMeans(key, core, e);
    TrimIsCore(value, core);
  }

  /** The two lines a site writes for it, in whatever case and with whatever white space. */
  lemma {:induction false} StarDisallow(
    lines: seq<string>, es: seq<Event>, key0: string, value0: string, key1: string, value1: string, pattern: string,
    agent: string, path: string)
    requires |lines| == 2 && AllMean(lines, es)
    requires IsPlain(lines[0], true, key0, value0) && Says(key0, "user-agent") && Padded(value0, "*")
    requires IsPlain(lines[1], false, key1, value1) && Says(key1, "disallow") && Padded(value1, pattern)
    requires pattern != ""
    ensures Permitted(Applicable(es, agent), path) <==> !Glob.RuleMatches(PercentEncoding.Normal(pattern), path)
  {
    assert Means(lines[0], 0 == 0, es[0]) && Means(lines[1], 1 == 0, es[1]);
    StarLine(lines[0], key0, value0, es[0]);
    DisallowLine(lines[1], key1, value1, pattern, es[1]);
    StarGroupDenies(es, 0, 1, PercentEncoding.Normal(pattern), agent, path);
  }
}

/** The pattern language of robots.txt paths (RFC 9309, section 2.2.3): `*` stands
    for any characters or none, and `$` at the end for the end of the path.
    `GlobMatch` is the iterative matcher with one backtracking point. */
module Glob {

  // ----- What a pattern means ----------------------------------------------

  /** One piece of the path for each pattern character: a literal takes exactly
      itself, a star takes any run. */
  ghost predicate Fits(p: string, parts: seq<string>) {
    |parts| == |p| && forall i :: 0 <= i < |p| && p[i] != '*' ==> parts[i] == [p[i]]
  }

  ghost function Join(parts: seq<string>): string {
    if parts == [] then "" else parts[0] + Join(parts[1..])
  }

  /** `s` can be cut into pieces that fit the pattern. */
  ghost predicate Splits(p: string, s: string) {
    exists parts :: Fits(p, parts) && Join(parts) == s
  }

  /** The same meaning read from left to right: the pattern from `i` fits the text
      from `j`. */
  ghost predicate From(p: string, i: nat, s: string, j: nat)
    requires i <= |p| && j <= |s|
    decreases |p| - i, |s| - j
  {
    if i == |p| then j == |s|
    else if p[i] == '*' then From(p, i + 1, s, j) || (j < |s| && From(p, i, s, j + 1))
    else j < |s| && s[j] == p[i] && From(p, i + 1, s, j + 1)
  }

  /** Where a star that fits stops. */
  lemma {:induction false} StarStops(p: string, i: nat, s: string, j: nat) returns (k: nat)
    requires i < |p| && j <= |s| && p[i] == '*' && From(p, i, s, j)
    ensures j <= k <= |s| && From(p, i + 1, s, k)
    decreases |s| - j
  {
    if From(p, i + 1, s, j) { k := j; } else { k := StarStops(p, i, s, j + 1); }
  }

  /** A star may stop anywhere. */
  lemma {:induction false} StarTakes(p: string, i: nat, s: string, j: nat, k: nat)
    requires i < |p| && j <= k <= |s| && p[i] == '*' && From(p, i + 1, s, k)
    ensures From(p, i, s, j)
    decreases k - j
  {
    if j < k { StarTakes(p, i, s, j + 1, k); }
  }

  lemma {:induction false} FromSplits(p: string, i: nat, s: string, j: nat)
    requires i <= |p| && j <= |s| && From(p, i, s, j)
    ensures Splits(p[i..], s[j..])
    decreases |p| - i
  {
    if i == |p| {
      assert Fits(p[i..], []) && Join([]) == s[j..];
    } else {
      var k: nat := j + 1;
      if p[i] == '*' {
        k := StarStops(p, i, s, j);
      }
      FromSplits(p, i + 1, s, k);
      assert p[i..][1..] == p[i + 1..];
      var parts :| Fits(p[i + 1..], parts) && Join(parts) == s[k..];
      Prepend(p[i..], s[j..k], parts);
      assert s[j..k] + s[k..] == s[j..];
    }
  }

  lemma {:induction false} Prepend(p: string, first: string, parts: seq<string>)
    requires p != "" && (p[0] != '*' ==> first == [p[0]]) && Fits(p[1..], parts)
    ensures Splits(p, first + Join(parts))
  {
    var all := [first] + parts;
    assert all[1..] == parts;
    forall i | 0 <= i < |p| && p[i] != '*' ensures all[i] == [p[i]] {
      if i > 0 { assert p[1..][i - 1] == p[i]; }
    }
    assert Fits(p, all);
  }

  lemma {:induction false} SplitsFrom(p: string, i: nat, s: string, j: nat, parts: seq<string>)
    requires i <= |p| && j <= |s| && Fits(p[i..], parts) && Join(parts) == s[j..]
    ensures From(p, i, s, j)
    decreases |p| - i
  {
    if i < |p| {
      var k := j + |parts[0]|;
      forall t | 0 <= t < |p[i + 1..]| && p[i + 1..][t] != '*' ensures parts[1..][t] == [p[i + 1..][t]] {
        assert p[i + 1..][t] == p[i..][t + 1];
      }
      assert s[k..] == s[j..][|parts[0]|..] == Join(parts[1..]);
      SplitsFrom(p, i + 1, s, k, parts[1..]);
      if p[i] == '*' {
        StarTakes(p, i, s, j, k);
      } else {
        assert p[i..][0] == p[i] && s[j..][0] == parts[0][0];
      }
    }
  }

  /** Both readings agree. */
  lemma {:induction false} FromIffSplits(p: string, s: string)
    ensures From(p, 0, s, 0) <==> Splits(p, s)
  {
    assert p[0..] == p && s[0..] == s;
    if From(p, 0, s, 0) { FromSplits(p, 0, s, 0); }
    if Splits(p, s) {
      var parts :| Fits(p, parts) && Join(parts) == s;
      SplitsFrom(p, 0, s, 0, parts);
    }
  }

  // ----- Facts the matcher's loop rests on ----------------------------------

  /** No star among the `n` pattern characters from `i` on. */
  ghost predicate Literal(p: string, i: nat, n: nat)
    requires i + n <= |p|
  {
    forall t :: i <= t < i + n ==> p[t] != '*'
  }

  /** The `n` pattern characters from `i` on stand in the text from `j` on. */
  ghost predicate Copied(p: string, i: nat, s: string, j: nat, n: nat)
    requires i + n <= |p|
  {
    j + n <= |s| && p[i..i + n] == s[j..j + n]
  }

  /** A run of literals must be copied before the rest can fit. */
  lemma {:induction false} LiteralRun(p: string, i: nat, s: string, j: nat, n: nat)
    requires i + n <= |p| && j <= |s| && Literal(p, i, n)
    ensures From(p, i, s, j) <==> Copied(p, i, s, j, n) && From(p, i + n, s, j + n)
    decreases n
  {
    if n > 0 && j < |s| && s[j] == p[i] {
      LiteralRun(p, i + 1, s, j + 1, n - 1);
      if j + n <= |s| {
        assert p[i..i + n] == [p[i]] + p[i + 1..i + n];
        assert s[j..j + n] == [s[j]] + s[j + 1..j + n];
      }
    } else if n > 0 && j + n <= |s| {
      assert p[i..i + n][0] == p[i] && s[j..j + n][0] == s[j];
    }
  }

  /** Nothing but stars fits the empty rest. */
  lemma {:induction false} OnlyStarsFitNothing(p: string, i: nat, s: string)
    requires i <= |p|
    ensures From(p, i, s, |s|) <==> forall t :: i <= t < |p| ==> p[t] == '*'
    decreases |p| - i
  {
    if i < |p| { OnlyStarsFitNothing(p, i + 1, s); }
  }

  // ----- One step of the matcher ---------------------------------------------

  /** What the loop knows at (pi, si) with the last star at `star`, retried from
      `mark`: the literals since the star are copied from `mark` on, and that star
      from `mark` on decides the whole question. */
  ghost predicate Progress(p: string, s: string, pi: nat, si: nat, star: int, mark: nat)
    requires pi <= |p| && si <= |s|
  {
    if star < 0 then
      star == -1 && mark == 0 && pi == si && (From(p, 0, s, 0) <==> From(p, pi, s, si))
    else
      Retried(p, s, pi, si, star, mark) && (From(p, 0, s, 0) <==> From(p, star, s, mark))
  }

  /** The literals between the star and `pi` stand in the text between `mark` and `si`. */
  ghost predicate Retried(p: string, s: string, pi: nat, si: nat, star: nat, mark: nat)
    requires pi <= |p| && si <= |s|
  {
    && star < pi && mark <= si && pi - star - 1 == si - mark && p[star] == '*'
    && (forall t :: star < t < pi ==> p[t] != '*')
    && p[star + 1..pi] == s[mark..si]
  }

  /** The star at `star`, from `mark` on, and the rest at (pi, si) decide the same
      question when a later star follows or the text has ended. */
  lemma {:induction false} SkipLiterals(p: string, s: string, pi: nat, si: nat, star: nat, mark: nat)
    requires pi <= |p| && si <= |s| && Retried(p, s, pi, si, star, mark)
    requires si == |s| || (pi < |p| && p[pi] == '*')
    ensures From(p, star, s, mark) <==> From(p, pi, s, si)
  {
    var n := si - mark;
    assert star + 1 + n == pi;
    if From(p, star, s, mark) {
      var k := StarStops(p, star, s, mark);
      LiteralRun(p, star + 1, s, k, n);
      if si < |s| {
        var m := StarStops(p, pi, s, k + n);
        StarTakes(p, pi, s, si, m);
      }
    }
    if From(p, pi, s, si) {
      LiteralRun(p, star + 1, s, mark, n);
      StarTakes(p, star, s, mark, mark);
    }
  }

  lemma {:induction false} TakeStar(p: string, s: string, pi: nat, si: nat, star: int, mark: nat)
    requires pi < |p| && si < |s| && p[pi] == '*' && Progress(p, s, pi, si, star, mark)
    ensures Progress(p, s, pi + 1, si, pi, si)
  {
    if star >= 0 { SkipLiterals(p, s, pi, si, star, mark); }
  }

  lemma {:induction false} TakeLiteral(p: string, s: string, pi: nat, si: nat, star: int, mark: nat)
    requires pi < |p| && si < |s| && p[pi] != '*' && p[pi] == s[si] && Progress(p, s, pi, si, star, mark)
    ensures Progress(p, s, pi + 1, si + 1, star, mark)
  {
    if star >= 0 {
      assert p[star + 1..pi + 1] == p[star + 1..pi] + [p[pi]];
      assert s[mark..si + 1] == s[mark..si] + [s[si]];
    }
  }

  /** A mismatch after a star rules out the current retry. */
  lemma {:induction false} Backtrack(p: string, s: string, pi: nat, si: nat, star: int, mark: nat)
    requires pi <= |p| && si < |s| && star >= 0 && Progress(p, s, pi, si, star, mark)
    requires pi == |p| || (p[pi] != '*' && p[pi] != s[si])
    ensures Progress(p, s, star + 1, mark + 1, star, mark + 1)
  {
    LiteralRun(p, star + 1, s, mark, si - mark);
    assert !From(p, star + 1, s, mark);
  }

  lemma {:induction false} AtTheEnd(p: string, s: string, pi: nat, star: int, mark: nat)
    requires pi <= |p| && Progress(p, s, pi, |s|, star, mark)
    ensures From(p, 0, s, 0) <==> From(p, pi, s, |s|)
  {
    if star >= 0 { SkipLiterals(p, s, pi, |s|, star, mark); }
  }

  /** Steps spent before the retry at `mark`, when a retry costs `width`. */
  ghost function Spent(mark: nat, width: nat): nat {
    if mark == 0 then 0 else Spent(mark - 1, width) + width
  }

  lemma {:induction false} SpentGrows(a: nat, b: nat, width: nat)
    requires a <= b
    ensures Spent(a, width) <= Spent(b, width)
    decreases b
  {
    if a < b { SpentGrows(a, b - 1, width); }
  }

  lemma {:induction false} SpentTotal(b: nat, width: nat)
    ensures Spent(b, width) == b * width
  {
    if b > 0 {
      SpentTotal(b - 1, width);
      assert (b - 1) * width + width == b * width;
    }
  }

  lemma {:induction false} WithinBound(steps: nat, mark: nat, pi: nat, p: string, s: string)
    requires mark <= |s| && pi <= |p| && steps <= Spent(mark, |p| + 1) + pi
    ensures steps <= |s| * (|p| + 1) + |p|
  {
    SpentGrows(mark, |s|, |p| + 1);
    SpentTotal(|s|, |p| + 1);
  }

  // ----- The matcher ---------------------------------------------------------

  /** The matcher decides the pattern language, and its main loop runs at most
      |s| * (|p| + 1) + |p| times however many stars the pattern holds. */
  method GlobMatch(p: string, s: string) returns (ok: bool, ghost steps: nat)
    ensures ok <==> Splits(p, s)
    ensures steps <= |s| * (|p| + 1) + |p|
  {
    FromIffSplits(p, s);
    var pi, si := 0, 0;
    var star, mark := -1, 0;
    steps := 0;
    while si < |s|
      invariant pi <= |p| && si <= |s| && mark <= si
      invariant Progress(p, s, pi, si, star, mark)
      invariant steps <= Spent(mark, |p| + 1) + pi
      decreases |s| - mark, |p| - pi
    {
      steps := steps + 1;
      if pi < |p| && p[pi] == '*' {
        TakeStar(p, s, pi, si, star, mark);
        SpentGrows(mark, si, |p| + 1);
        star, mark := pi, si;
        pi := pi + 1;
      } else if pi < |p| && p[pi] == s[si] {
        TakeLiteral(p, s, pi, si, star, mark);
        pi, si := pi + 1, si + 1;
      } else if star >= 0 {
        Backtrack(p, s, pi, si, star, mark);
        pi := star + 1;
        mark := mark + 1;
        si := mark;
      } else {
        WithinBound(steps, 1, pi, p, s);
        return false, steps;
      }
    }
    WithinBound(steps, mark, pi, p, s);
    AtTheEnd(p, s, pi, star, mark);
    OnlyStarsFitNothing(p, pi, s);
    ok := OnlyStars(p, pi);
  }

  /** Only stars may be left of the pattern when the string is used up. */
  method OnlyStars(p: string, from: nat) returns (ok: bool)
    requires from <= |p|
    ensures ok <==> forall i :: from <= i < |p| ==> p[i] == '*'
  {
    var pi := from;
    while pi < |p| && p[pi] == '*'
      invariant from <= pi <= |p|
      invariant forall i :: from <= i < pi ==> p[i] == '*'
    {
      pi := pi + 1;
    }
    ok := pi == |p|;
  }

  // ----- Whole rules ---------------------------------------------------------

  /** A rule path matches when it fits the whole path (with `$`) or a prefix of it. */
  ghost predicate RuleMatches(pattern: string, path: string) {
    if pattern != "" && pattern[|pattern| - 1] == '$' then Splits(pattern[..|pattern| - 1], path)
    else exists n :: 0 <= n <= |path| && Splits(pattern, path[..n])
  }

  lemma {:induction false} JoinLast(parts: seq<string>)
    requires parts != []
    ensures Join(parts) == Join(parts[..|parts| - 1]) + parts[|parts| - 1]
  {
    if |parts| > 1 {
      JoinLast(parts[1..]);
      assert parts[1..][..|parts| - 2] == parts[..|parts| - 1][1..];
    }
  }

  /** Appending a star turns a whole match into a prefix match. */
  lemma {:induction false} StarSuffixIsPrefixMatch(p: string, s: string)
    ensures Splits(p + "*", s) <==> exists n :: 0 <= n <= |s| && Splits(p, s[..n])
  {
    if Splits(p + "*", s) {
      var parts :| Fits(p + "*", parts) && Join(parts) == s;
      JoinLast(parts);
      var front := parts[..|p|];
      var n := |Join(front)|;
      assert s[..n] == Join(front);
      forall i | 0 <= i < |p| && p[i] != '*' ensures front[i] == [p[i]] { assert (p + "*")[i] == p[i]; }
      assert Fits(p, front);
    }
    forall n | 0 <= n <= |s| && Splits(p, s[..n]) ensures Splits(p + "*", s) {
      var front :| Fits(p, front) && Join(front) == s[..n];
      var parts := front + [s[n..]];
      JoinLast(parts);
      assert parts[..|p|] == front;
      assert Fits(p + "*", parts);
      assert Join(parts) == s[..n] + s[n..] == s;
    }
  }

  method Matches(pattern: string, path: string) returns (ok: bool)
    ensures ok <==> RuleMatches(pattern, path)
  {
    ghost var steps;
    if pattern != "" && pattern[|pattern| - 1] == '$' {
      ok, steps := GlobMatch(pattern[..|pattern| - 1], path);
    } else {
      ok, steps := GlobMatch(pattern + "*", path);
      StarSuffixIsPrefixMatch(pattern, path);
    }
  }
}

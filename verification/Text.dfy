/** ASCII text: white space and letter case. */
module Text {

  predicate IsSpace(c: char) { c == ' ' || '\t' <= c <= '\r' }

  function Lower(s: string): (r: string)
    ensures |r| == |s|
  {
    if s == "" then ""
    else [if 'A' <= s[0] <= 'Z' then (s[0] as int + 32) as char else s[0]] + Lower(s[1..])
  }

  lemma {:induction false} LowerAt(s: string, i: nat)
    requires i < |s|
    ensures Lower(s)[i] == if 'A' <= s[i] <= 'Z' then (s[i] as int + 32) as char else s[i]
  {
    if i > 0 { LowerAt(s[1..], i - 1); }
  }

  /** Changing the case keeps every other character. */
  lemma {:induction false} LowerKeeps(s: string, c: char)
    requires !('A' <= c <= 'Z') && !('a' <= c <= 'z')
    ensures c in Lower(s) <==> c in s
  {
    forall i: nat | i < |s| ensures Lower(s)[i] == c <==> s[i] == c { LowerAt(s, i); }
    if c in Lower(s) {
      var i: nat :| i < |s| && Lower(s)[i] == c;
      assert s[i] == c;
    }
    if c in s {
      var i: nat :| i < |s| && s[i] == c;
      assert Lower(s)[i] == c;
    }
  }

  lemma {:induction false} LowerTrimmed(s: string)
    requires Trimmed(s)
    ensures Trimmed(Lower(s))
  {
    if s != "" {
      LowerAt(s, 0);
      LowerAt(s, |s| - 1);
    }
  }

  function TrimLeft(s: string): string {
    if s != "" && IsSpace(s[0]) then TrimLeft(s[1..]) else s
  }

  function TrimRight(s: string): string {
    if s != "" && IsSpace(s[|s| - 1]) then TrimRight(s[..|s| - 1]) else s
  }

  /** The text without white space at its ends. */
  function Trim(s: string): string { TrimRight(TrimLeft(s)) }

  predicate Trimmed(s: string) { s == "" || (!IsSpace(s[0]) && !IsSpace(s[|s| - 1])) }

  lemma {:induction false} TrimLeftStarts(s: string)
    ensures var r := TrimLeft(s); r == "" || !IsSpace(r[0])
  {
    if s != "" && IsSpace(s[0]) { TrimLeftStarts(s[1..]); }
  }

  lemma {:induction false} TrimRightEnds(s: string)
    ensures var r := TrimRight(s); r <= s && (r == "" || !IsSpace(r[|r| - 1]))
  {
    if s != "" && IsSpace(s[|s| - 1]) { TrimRightEnds(s[..|s| - 1]); }
  }

  lemma {:induction false} TrimTrims(s: string)
    ensures Trimmed(Trim(s))
  {
    TrimLeftStarts(s);
    TrimRightEnds(TrimLeft(s));
  }

  lemma {:induction false} TrimDropsOnlySpace(s: string, c: char)
    requires !IsSpace(c)
    ensures c in Trim(s) <==> c in s
  {
    LeftDropsOnlySpace(s, c);
    RightDropsOnlySpace(TrimLeft(s), c);
  }

  lemma {:induction false} LeftDropsOnlySpace(s: string, c: char)
    requires !IsSpace(c)
    ensures c in TrimLeft(s) <==> c in s
  {
    if s != "" && IsSpace(s[0]) {
      LeftDropsOnlySpace(s[1..], c);
      assert s == [s[0]] + s[1..];
    }
  }

  lemma {:induction false} RightDropsOnlySpace(s: string, c: char)
    requires !IsSpace(c)
    ensures c in TrimRight(s) <==> c in s
  {
    if s != "" && IsSpace(s[|s| - 1]) {
      RightDropsOnlySpace(s[..|s| - 1], c);
      assert s == s[..|s| - 1] + [s[|s| - 1]];
    }
  }

  lemma {:induction false} TrimmedStays(s: string)
    requires Trimmed(s)
    ensures Trim(s) == s
  {}

  /** The words, one space between them. */
  function Squeeze(s: string): string {
    if s == "" then ""
    else
      var front, last := s[..|s| - 1], s[|s| - 1];
      var before := Squeeze(front);
      if IsSpace(last) then before
      else if before != "" && IsSpace(front[|front| - 1]) then before + [' ', last]
      else before + [last]
  }

  /** The words joined have no white space around them. */
  lemma {:induction false} SqueezeTrimmed(s: string)
    ensures Trimmed(Squeeze(s))
  {
    if s != "" { SqueezeTrimmed(s[..|s| - 1]); }
  }

  // ----- What trimming and lower-casing mean ------------------------------------------------

  ghost predicate AllSpace(s: string) { forall i :: 0 <= i < |s| ==> IsSpace(s[i]) }

  /** The text is `core` with only white space around it, and `core` has none at its ends. */
  ghost predicate Padded(s: string, core: string) {
    Trimmed(core) && exists a, b :: AllSpace(a) && AllSpace(b) && s == a + (core + b)
  }

  lemma {:induction false} LeftSkips(a: string, s: string)
    requires AllSpace(a)
    ensures TrimLeft(a + s) == TrimLeft(s)
  {
    if a == "" {
      assert a + s == s;
    } else {
      assert (a + s)[1..] == a[1..] + s;
      LeftSkips(a[1..], s);
    }
  }

  lemma {:induction false} RightSkips(s: string, b: string)
    requires AllSpace(b)
    ensures TrimRight(s + b) == TrimRight(s)
  {
    if b == "" {
      assert s + b == s;
    } else {
      assert (s + b)[..|s + b| - 1] == s + b[..|b| - 1];
      RightSkips(s, b[..|b| - 1]);
    }
  }

  lemma {:induction false} LeftSplits(s: string) returns (a: string)
    ensures AllSpace(a) && s == a + TrimLeft(s)
  {
    if s != "" && IsSpace(s[0]) {
      var rest := LeftSplits(s[1..]);
      a := [s[0]] + rest;
    } else {
      a := "";
    }
  }

  lemma {:induction false} RightSplits(s: string) returns (b: string)
    ensures AllSpace(b) && s == TrimRight(s) + b
  {
    if s != "" && IsSpace(s[|s| - 1]) {
      var rest := RightSplits(s[..|s| - 1]);
      b := rest + [s[|s| - 1]];
    } else {
      b := "";
    }
  }

  /** Trimming gives the one core of the text. */
  lemma {:induction false} TrimIsCore(s: string, core: string)
    ensures Padded(s, core) <==> core == Trim(s)
  {
    TrimTrims(s);
    var a := LeftSplits(s);
    var b := RightSplits(TrimLeft(s));
    assert Padded(s, Trim(s));
    if Padded(s, core) {
      var c, d :| AllSpace(c) && AllSpace(d) && s == c + (core + d);
      LeftSkips(c, core + d);
      if core == "" {
        assert core + d == d && d == d + "";
        LeftSkips(d, "");
      } else {
        RightSkips(core, d);
      }
    }
  }

  /** The second text is the first in lower case. */
  ghost predicate IsLower(s: string, r: string) {
    |r| == |s| && forall i :: 0 <= i < |s| ==>
      (if 'A' <= s[i] <= 'Z' then r[i] as int == s[i] as int + 32 else r[i] == s[i])
  }

  lemma {:induction false} LowerIs(s: string, r: string)
    ensures IsLower(s, r) <==> r == Lower(s)
  {
    forall i: nat | i < |s| ensures Lower(s)[i] == if 'A' <= s[i] <= 'Z' then (s[i] as int + 32) as char else s[i] {
      LowerAt(s, i);
    }
    if IsLower(s, r) {
      forall i: nat | i < |s| ensures r[i] == Lower(s)[i] {}
    }
  }
}

/** Looking for a company's web domain in the text of a job posting. */
module DomainMention {
  import opened Options

  /** The byte belongs to a host name or word; bytes above 127 are read as Latin-1. */
  predicate IsDomainChar(c: char) {
    || c == '-' || c == '_' || '0' <= c <= '9' || 'a' <= c <= 'z' || 'A' <= c <= 'Z'
    || c == '\U{AA}' || c == '\U{B5}' || c == '\U{BA}'
    || ('\U{C0}' <= c <= '\U{FF}' && c != '\U{D7}' && c != '\U{F7}')
  }

  predicate At(t: string, d: string, i: nat) {
    i + |d| <= |t| && t[i..i + |d|] == d
  }

  /** The domain stands at `i` as a word of its own: "ramp.com" in "visit ramp.com/jobs",
      not in "trampoline.company". */
  predicate StandsAt(t: string, d: string, i: nat) {
    && At(t, d, i)
    && (i == 0 || !IsDomainChar(t[i - 1]))
    && (i + |d| == |t| || !IsDomainChar(t[i + |d|]))
  }

  ghost predicate Stands(t: string, d: string) {
    exists i: nat :: StandsAt(t, d, i)
  }

  /** The first occurrence from `from` on. */
  function Find(t: string, d: string, from: nat): (r: Option<nat>)
    ensures r.Some? ==> from <= r.value && At(t, d, r.value)
    decreases |t| - from
  {
    if from + |d| > |t| then None
    else if At(t, d, from) then Some(from)
    else if from == |t| then None
    else Find(t, d, from + 1)
  }

  lemma {:induction false} FindIsFirst(t: string, d: string, from: nat, j: nat)
    requires from <= j && At(t, d, j)
    ensures Find(t, d, from).Some? && Find(t, d, from).value <= j
    decreases |t| - from
  {
    if !At(t, d, from) { FindIsFirst(t, d, from + 1, j); }
  }

  /** What the search loop answers from `from` on: it continues behind an occurrence
      that does not stand on its own. */
  predicate Search(t: string, d: string, from: nat)
    requires d != ""
    decreases |t| - from
  {
    match Find(t, d, from)
    case None => false
    case Some(i) => StandsAt(t, d, i) || Search(t, d, i + |d|)
  }

  /** `text` is the lower-cased posting. */
  method HasDomain(text: string, domain: string) returns (found: bool)
    ensures found <==> domain != "" && Search(text, domain, 0)
  {
    if domain == "" { return false; }
    var from := 0;
    while from < |text|
      invariant from <= |text|
      invariant Search(text, domain, 0) <==> Search(text, domain, from)
    {
      var hit := Find(text, domain, from);
      if hit.None? { return false; }
      var start, end := hit.value, hit.value + |domain|;
      var before := start == 0 || !IsDomainChar(text[start - 1]);
      var after := end == |text| || !IsDomainChar(text[end]);
      assert StandsAt(text, domain, start) <==> before && after;
      if before && after { return true; }
      from := end;
    }
    assert Find(text, domain, from) == None;
    return false;
  }

  /** What the search finds is there. */
  lemma {:induction false} SearchIsSound(t: string, d: string, from: nat)
    requires d != "" && Search(t, d, from)
    ensures Stands(t, d)
    decreases |t| - from
  {
    var i := Find(t, d, from).value;
    if !StandsAt(t, d, i) { SearchIsSound(t, d, i + |d|); }
  }

  // ----- When the search finds everything that is there ---------------------------------

  /** The domain overlaps itself, shifted by `s`, right behind a character that ends a
      word: "a.a" shifted by two. */
  predicate OverlapsBy(d: string, s: nat) {
    0 < s < |d| && d[s..] == d[..|d| - s] && !IsDomainChar(d[s - 1])
  }

  ghost predicate SelfOverlapping(d: string) {
    exists s: nat :: OverlapsBy(d, s)
  }

  lemma {:induction false} SearchIsComplete(t: string, d: string, from: nat, j: nat)
    requires d != "" && !SelfOverlapping(d) && from <= j && StandsAt(t, d, j)
    ensures Search(t, d, from)
    decreases |t| - from
  {
    FindIsFirst(t, d, from, j);
    var i := Find(t, d, from).value;
    if !StandsAt(t, d, i) {
      if j < i + |d| {
        var s := j - i;
        assert t[i..i + |d|][s..] == t[j..i + |d|] == t[j..j + |d|][..|d| - s];
        assert t[j - 1] == t[i..i + |d|][s - 1];
        assert OverlapsBy(d, s);
      }
      SearchIsComplete(t, d, i + |d|, j);
    }
  }

  /** A text in which a self-overlapping domain stands on its own but is missed. */
  lemma {:induction false} SearchMisses(d: string, s: nat) returns (t: string)
    requires OverlapsBy(d, s)
    ensures Stands(t, d) && !Search(t, d, 0)
  {
    var x := if d[0] == 'x' then 'y' else 'x';
    t := [x] + d[..s] + d;
    assert d[..s] + d[s..] == d;
    assert t[1..1 + |d|] == d[..s] + d[..|d| - s] == d;
    assert t[1 + s..1 + s + |d|] == d;
    assert t[s] == d[s - 1];
    assert StandsAt(t, d, 1 + s);
    assert t[0..0 + |d|][0] == x != d[0];
    assert !At(t, d, 0) && At(t, d, 1);
    assert Find(t, d, 0) == Some(1) && !StandsAt(t, d, 1);
    assert Find(t, d, 1 + |d|) == None;
  }

  /** The search agrees with the definition on every text exactly for the domains that do
      not overlap themselves behind a word end. */
  lemma {:induction false} ExactIffNotSelfOverlapping(d: string)
    requires d != ""
    ensures (forall t :: Search(t, d, 0) <==> Stands(t, d)) <==> !SelfOverlapping(d)
  {
    if SelfOverlapping(d) {
      var s: nat :| OverlapsBy(d, s);
      var t := SearchMisses(d, s);
    } else {
      forall t ensures Search(t, d, 0) <==> Stands(t, d) {
        if Search(t, d, 0) { SearchIsSound(t, d, 0); }
        if Stands(t, d) {
          var j: nat :| StandsAt(t, d, j);
          SearchIsComplete(t, d, 0, j);
        }
      }
    }
  }

  /** A concrete miss: "co.co" is the last word of "xco.co.co", and is not seen. */
  lemma {:induction false} MissedExample()
    ensures StandsAt("xco.co.co", "co.co", 4) && !Search("xco.co.co", "co.co", 0)
  {}
}

/** The bytes hashed to tell whether a job's content changed. */
module ContentHash {

  const NUL: char := '\0'

  predicate NulFree(s: string) { NUL !in s }

  /** The fields that count as content; the last two are blank when the source does not say. */
  datatype Content = Content(
    title: string, description: string, applicationUrl: string, canonicalUrl: string, location: string,
    remoteType: string, employmentType: string) {

    predicate Clean() {
      && NulFree(title) && NulFree(description) && NulFree(applicationUrl) && NulFree(canonicalUrl) && NulFree(location)
      && NulFree(remoteType) && NulFree(employmentType)
    }

    function Always(): seq<string> { [title, description, applicationUrl, canonicalUrl, location] }

    /** What the source does say about remote work and employment. */
    function Said(): seq<string> {
      (if remoteType != "" then [remoteType] else []) + (if employmentType != "" then [employmentType] else [])
    }
  }

  function Terminated(fields: seq<string>): string {
    if fields == [] then "" else fields[0] + [NUL] + Terminated(fields[1..])
  }

  function Encoding(c: Content): string { Terminated(c.Always() + c.Said()) }

  method Write(c: Content) returns (bytes: string)
    ensures bytes == Encoding(c)
  {
    bytes := "";
    var fields := c.Always();
    for i := 0 to |fields|
      invariant bytes == Terminated(fields[..i])
    {
      TerminatedSnoc(fields[..i], fields[i]);
      assert fields[..i + 1] == fields[..i] + [fields[i]];
      bytes := bytes + fields[i] + [NUL];
    }
    assert fields[..|fields|] == fields;
    assert fields + [] == fields;
    var optional := [c.remoteType, c.employmentType];
    ghost var said: seq<string> := [];
    for i := 0 to |optional|
      invariant bytes == Terminated(fields + said)
      invariant i < 2 ==> said == if i == 0 || c.remoteType == "" then [] else [c.remoteType]
      invariant i == 2 ==> said == c.Said()
    {
      if optional[i] != "" {
        TerminatedSnoc(fields + said, optional[i]);
        assert fields + said + [optional[i]] == fields + (said + [optional[i]]);
        bytes := bytes + optional[i] + [NUL];
        said := said + [optional[i]];
      }
    }
  }

  lemma {:induction false} TerminatedSnoc(fields: seq<string>, last: string)
    ensures Terminated(fields + [last]) == Terminated(fields) + last + [NUL]
  {
    if fields == [] {
      assert fields + [last] == [last];
    } else {
      TerminatedSnoc(fields[1..], last);
      assert (fields + [last])[1..] == fields[1..] + [last];
    }
  }

  /** The first field ends at the first NUL. */
  lemma {:induction false} FirstField(a: string, b: string, resta: string, restb: string)
    requires NulFree(a) && NulFree(b) && a + [NUL] + resta == b + [NUL] + restb
    ensures a == b && resta == restb
  {
    var s, t := a + [NUL] + resta, b + [NUL] + restb;
    assert s[|a|] == NUL && t[|b|] == NUL;
    assert forall i :: 0 <= i < |a| ==> s[i] == a[i];
    assert forall i :: 0 <= i < |b| ==> t[i] == b[i];
    assert |a| == |b|;
    assert a == s[..|a|] && b == t[..|b|];
    assert resta == s[|a| + 1..] && restb == t[|b| + 1..];
  }

  lemma {:induction false} TerminatedInjective(a: seq<string>, b: seq<string>)
    requires forall i :: 0 <= i < |a| ==> NulFree(a[i])
    requires forall i :: 0 <= i < |b| ==> NulFree(b[i])
    requires Terminated(a) == Terminated(b)
    ensures a == b
  {
    if a != [] && b != [] {
      FirstField(a[0], b[0], Terminated(a[1..]), Terminated(b[1..]));
      TerminatedInjective(a[1..], b[1..]);
      assert a == [a[0]] + a[1..] && b == [b[0]] + b[1..];
    }
  }

  /** Two contents without NUL are encoded alike exactly if their five fields agree and the
      sources say the same things about remote work and employment, read as one list. */
  lemma {:induction false} EqualIff(a: Content, b: Content)
    requires a.Clean() && b.Clean()
    ensures Encoding(a) == Encoding(b) <==> a.Always() == b.Always() && a.Said() == b.Said()
  {
    if Encoding(a) == Encoding(b) {
      TerminatedInjective(a.Always() + a.Said(), b.Always() + b.Said());
      assert a.Always() == (a.Always() + a.Said())[..5] && b.Always() == (b.Always() + b.Said())[..5];
      assert a.Said() == (a.Always() + a.Said())[5..] && b.Said() == (b.Always() + b.Said())[5..];
    }
  }

  const REMOTE_TYPES := {"remote", "hybrid", "onsite"}
  const EMPLOYMENT_TYPES := {"full_time", "part_time", "contract", "internship"}

  /** The source keeps to the two vocabularies; a blank says nothing. */
  predicate InVocabulary(c: Content) {
    && (c.remoteType == "" || c.remoteType in REMOTE_TYPES)
    && (c.employmentType == "" || c.employmentType in EMPLOYMENT_TYPES)
  }

  /** The vocabularies share no word, so within them the encoding is injective. */
  lemma {:induction false} Injective(a: Content, b: Content)
    requires a.Clean() && b.Clean() && InVocabulary(a) && InVocabulary(b)
    ensures Encoding(a) == Encoding(b) <==> a == b
  {
    if Encoding(a) == Encoding(b) {
      EqualIff(a, b);
      assert a.Always()[0] == b.Always()[0] && a.Always()[1] == b.Always()[1] && a.Always()[2] == b.Always()[2]
        && a.Always()[3] == b.Always()[3] && a.Always()[4] == b.Always()[4];
      SaidDecides(a, b);
    }
  }

  lemma {:induction false} SaidDecides(a: Content, b: Content)
    requires a.Said() == b.Said()
    requires a.remoteType == b.employmentType ==> a.remoteType == ""
    requires b.remoteType == a.employmentType ==> b.remoteType == ""
    ensures a.remoteType == b.remoteType && a.employmentType == b.employmentType
  {
    var s, t := a.Said(), b.Said();
    if a.remoteType != "" { assert s[0] == a.remoteType; }
    if b.remoteType != "" { assert t[0] == b.remoteType; }
    if a.employmentType != "" { assert s[|s| - 1] == a.employmentType; }
    if b.employmentType != "" { assert t[|t| - 1] == b.employmentType; }
  }

  /** Without the vocabularies a word could move from one type to the other unnoticed. */
  lemma {:induction false} SharedWordCollides(c: Content, word: string)
    requires word != ""
    ensures var a, b := c.(remoteType := word, employmentType := ""), c.(remoteType := "", employmentType := word);
      a != b && Encoding(a) == Encoding(b)
  {
    var a, b := c.(remoteType := word, employmentType := ""), c.(remoteType := "", employmentType := word);
    assert a.Said() == [word] == b.Said() && a.Always() == b.Always();
  }
}

/** The canonical percent-encoding that robots.txt patterns and URL paths are put
    into before they are compared (RFC 3986, sections 6.2.2.1 and 6.2.2.2). */
module PercentEncoding {
  import opened Options

  predicate IsHex(c: char) {
    '0' <= c <= '9' || 'a' <= c <= 'f' || 'A' <= c <= 'F'
  }

  function Unhex(c: char): (v: nat)
    requires IsHex(c)
    ensures v < 16
  {
    if '0' <= c <= '9' then c as int - '0' as int
    else if 'a' <= c <= 'f' then c as int - 'a' as int + 10
    else c as int - 'A' as int + 10
  }

  predicate IsUnreserved(c: char) {
    || 'a' <= c <= 'z' || 'A' <= c <= 'Z' || '0' <= c <= '9'
    || c == '-' || c == '.' || c == '_' || c == '~'
  }

  /** The octet written as two hex digits. */
  function Octet(high: char, low: char): char
    requires IsHex(high) && IsHex(low)
  {
    (16 * Unhex(high) + Unhex(low)) as char
  }

  function Upper(c: char): char {
    if 'a' <= c <= 'z' then (c as int - 32) as char else c
  }

  /** A percent sign followed by two hex digits stands at `i`. */
  predicate EscapeAt(s: string, i: nat) {
    i + 2 < |s| && s[i] == '%' && IsHex(s[i + 1]) && IsHex(s[i + 2])
  }

  /** The canonical spelling of one escape. */
  function Canon(high: char, low: char): string
    requires IsHex(high) && IsHex(low)
  {
    if IsUnreserved(Octet(high, low)) then [Octet(high, low)] else ['%', Upper(high), Upper(low)]
  }

  function Normal(s: string): string {
    if s == "" then ""
    else if EscapeAt(s, 0) then Canon(s[1], s[2]) + Normal(s[3..])
    else [s[0]] + Normal(s[1..])
  }

  method NormalizePercent(s: string) returns (r: string)
    ensures r == Normal(s)
  {
    if '%' !in s {
      NoEscapes(s);
      return s;
    }
    r := "";
    var i := 0;
    while i < |s|
      invariant i <= |s|
      invariant Normal(s) == r + Normal(s[i..])
    {
      ghost var before := r;
      if EscapeAt(s, i) {
        var v := Octet(s[i + 1], s[i + 2]);
        if IsUnreserved(v) {
          r := r + [v];
        } else {
          r := r + ['%', Upper(s[i + 1]), Upper(s[i + 2])];
        }
        Reassociate(before, Canon(s[i + 1], s[i + 2]), Normal(s[i + 3..]));
        i := i + 3;
      } else {
        r := r + [s[i]];
        Reassociate(before, [s[i]], Normal(s[i + 1..]));
        i := i + 1;
      }
    }
  }

  lemma {:induction false} Reassociate(a: string, b: string, c: string)
    ensures a + (b + c) == (a + b) + c
  {}

  lemma {:induction false} NoEscapes(s: string)
    requires '%' !in s
    ensures Normal(s) == s
  {
    if s != "" { NoEscapes(s[1..]); }
  }

  // ----- Idempotence ---------------------------------------------------------

  /** The hex digit that the text starts with, plain or escaped, and what follows it. */
  function LeadingDigit(s: string): Option<(char, string)> {
    if EscapeAt(s, 0) then
      var c := Octet(s[1], s[2]);
      if IsHex(c) then Some((c, s[3..])) else None
    else if s != "" && IsHex(s[0]) then Some((s[0], s[1..]))
    else None
  }

  /** The two digits that would turn a percent sign just before `s` into an escape
      once their own escapes are decoded. */
  function LeadingPair(s: string): Option<(char, char)> {
    match LeadingDigit(s)
    case None => None
    case Some((high, rest)) =>
      match LeadingDigit(rest)
      case None => None
      case Some((low, _)) => Some((high, low))
  }

  predicate CanonicalPair(high: char, low: char) {
    IsHex(high) && IsHex(low) && Canon(high, low) == ['%', high, low]
  }

  /** No stray percent sign is followed by digits that decode into an escape which is
      itself not canonical. */
  predicate Settled(s: string) {
    if s == "" then true
    else if EscapeAt(s, 0) then Settled(s[3..])
    else
      && (s[0] == '%' && LeadingPair(s[1..]).Some? ==>
            var (high, low) := LeadingPair(s[1..]).value;
            CanonicalPair(high, low))
      && Settled(s[1..])
  }

  lemma {:induction false} DigitYields(s: string)
    ensures match LeadingDigit(s)
            case None => Normal(s) == "" || !IsHex(Normal(s)[0])
            case Some((c, rest)) => IsHex(c) && |rest| < |s| && Normal(s) == [c] + Normal(rest)
  {}

  /** Normalizing again leaves a canonical escape alone and reads on after it. */
  lemma {:induction false} CanonIsStable(high: char, low: char, t: string)
    requires IsHex(high) && IsHex(low)
    ensures Normal(Canon(high, low) + t) == Canon(high, low) + Normal(t)
  {
    var e := Canon(high, low);
    if IsUnreserved(Octet(high, low)) {
      assert (e + t)[1..] == t;
    } else {
      assert EscapeAt(e + t, 0) && (e + t)[3..] == t;
    }
  }

  lemma {:induction false} StrayPercent(s: string) returns (rest: string)
    requires s != "" && s[0] == '%' && !EscapeAt(s, 0)
    ensures match LeadingPair(s[1..])
            case None => Normal(Normal(s)) == ['%'] + Normal(Normal(s[1..]))
            case Some((high, low)) =>
              && IsHex(high) && IsHex(low)
              && Normal(s) == ['%', high, low] + Normal(rest)
              && Normal(Normal(s)) == Canon(high, low) + Normal(Normal(rest))
              && Normal(s[1..]) == [high, low] + Normal(rest)
              && Normal(Normal(s[1..])) == [high, low] + Normal(Normal(rest))
  {
    rest := PairYields(s[1..]);
    match LeadingPair(s[1..])
    case None => LonePercent(Normal(s[1..]));
    case Some((high, low)) =>
      AssembledEscape(high, low, Normal(rest));
      Reassociate(['%'], [high, low], Normal(rest));
      assert ['%'] + [high, low] == ['%', high, low];
  }

  lemma {:induction false} PairYields(t: string) returns (rest: string)
    ensures match LeadingPair(t)
            case None => |Normal(t)| < 2 || !IsHex(Normal(t)[0]) || !IsHex(Normal(t)[1])
            case Some((high, low)) => IsHex(high) && IsHex(low) && Normal(t) == [high, low] + Normal(rest)
  {
    rest := "";
    DigitYields(t);
    if LeadingDigit(t).Some? {
      var (high, r1) := LeadingDigit(t).value;
      DigitYields(r1);
      assert Normal(t)[1..] == Normal(r1);
      if LeadingDigit(r1).Some? {
        rest := LeadingDigit(r1).value.1;
        Reassociate([high], [LeadingDigit(r1).value.0], Normal(rest));
      }
    }
  }

  /** A percent sign without two digits after it stays as it is. */
  lemma {:induction false} LonePercent(n: string)
    requires |n| < 2 || !IsHex(n[0]) || !IsHex(n[1])
    ensures Normal(['%'] + n) == ['%'] + Normal(n)
  {}

  /** A percent sign with two digits after it has become an escape. */
  lemma {:induction false} AssembledEscape(high: char, low: char, n: string)
    requires IsHex(high) && IsHex(low)
    ensures Normal(['%', high, low] + n) == Canon(high, low) + Normal(n)
    ensures Normal([high, low] + n) == [high, low] + Normal(n)
  {}

  /** Normalizing twice is normalizing once exactly for the settled strings. */
  lemma {:induction false} IdempotentIffSettled(s: string)
    ensures Normal(Normal(s)) == Normal(s) <==> Settled(s)
  {
    if s == "" {
    } else if EscapeAt(s, 0) {
      IdempotentIffSettled(s[3..]);
      CanonIsStable(s[1], s[2], Normal(s[3..]));
    } else if s[0] != '%' {
      IdempotentIffSettled(s[1..]);
    } else {
      IdempotentIffSettled(s[1..]);
      var rest := StrayPercent(s);
      if LeadingPair(s[1..]).Some? {
        var (high, low) := LeadingPair(s[1..]).value;
        TailDecides(high, low, Normal(rest), Normal(Normal(rest)));
      }
    }
  }

  lemma {:induction false} TailDecides(high: char, low: char, once: string, twice: string)
    requires IsHex(high) && IsHex(low)
    ensures Canon(high, low) + twice == ['%', high, low] + once <==> CanonicalPair(high, low) && twice == once
    ensures [high, low] + twice == [high, low] + once <==> twice == once
  {
    var a, b := Canon(high, low) + twice, ['%', high, low] + once;
    if a == b {
      assert a[0] == b[0] && a[1] == b[1] && a[2] == b[2];
      assert a[3..] == twice && b[3..] == once;
    }
    if [high, low] + twice == [high, low] + once {
      assert ([high, low] + twice)[2..] == twice && ([high, low] + once)[2..] == once;
    }
  }

  /** A second pass can decode what the first one assembled. */
  lemma {:induction false} NotIdempotentWithStrayPercent()
    ensures Normal("%%34%31") == "%41" && Normal("%41") == "A"
    ensures !Settled("%%34%31")
  {
    assert Octet('3', '4') == '4' && Octet('3', '1') == '1' && Octet('4', '1') == 'A';
    var s := "%%34%31";
    assert !EscapeAt(s, 0) && s[1..] == "%34%31" && s[1..][3..] == "%31" && "%31"[3..] == "";
    assert Normal("%31") == "1";
    assert Normal("%34%31") == "41";
    assert Normal(s) == "%41";
    assert "%41"[3..] == "";
    assert Normal("%41") == "A";
    IdempotentIffSettled(s);
  }

  // ----- Strings whose every percent sign starts an escape --------------------

  predicate WellFormed(s: string) {
    forall i :: 0 <= i < |s| && s[i] == '%' ==> EscapeAt(s, i)
  }

  lemma {:induction false} WellFormedConcat(a: string, b: string)
    requires WellFormed(a) && WellFormed(b)
    ensures WellFormed(a + b)
  {}

  /** On well-formed strings normalizing is idempotent and keeps every escape valid. */
  lemma {:induction false} WellFormedNormal(s: string)
    requires WellFormed(s)
    ensures WellFormed(Normal(s)) && Settled(s) && Normal(Normal(s)) == Normal(s)
  {
    if s != "" {
      var n := if EscapeAt(s, 0) then 3 else 1;
      WellFormedNormal(s[n..]);
      if n == 3 {
        WellFormedConcat(Canon(s[1], s[2]), Normal(s[3..]));
      } else {
        assert s[0] != '%';
        WellFormedConcat([s[0]], Normal(s[1..]));
      }
    }
    IdempotentIffSettled(s);
  }

  // ----- Equality of normal forms is RFC 3986 equivalence ----------------------

  /** Two spellings of one octet: escapes that differ in the case of their digits
      (section 6.2.2.1), or an escaped unreserved character and the character itself
      (section 6.2.2.2). */
  predicate SameOctet(e: string, f: string) {
    && |e| == 3 && EscapeAt(e, 0)
    && if |f| == 3 && EscapeAt(f, 0) then Octet(e[1], e[2]) == Octet(f[1], f[2])
       else IsUnreserved(Octet(e[1], e[2])) && f == [Octet(e[1], e[2])]
  }

  /** `t` is `s` with one octet spelled differently. */
  ghost predicate Respelled(s: string, t: string) {
    exists a, e, f, b :: RespelledAt(s, t, a, e, f, b)
  }

  ghost predicate RespelledAt(s: string, t: string, a: string, e: string, f: string, b: string) {
    s == a + (e + b) && t == a + (f + b) && (SameOctet(e, f) || SameOctet(f, e))
  }

  /** A chain of respellings through well-formed strings. */
  ghost predicate Chain(c: seq<string>, s: string, t: string) {
    && c != [] && c[0] == s && c[|c| - 1] == t
    && (forall i :: 0 <= i < |c| ==> WellFormed(c[i]))
    && (forall i :: 0 <= i < |c| - 1 ==> Respelled(c[i], c[i + 1]))
  }

  ghost predicate Equivalent(s: string, t: string) {
    exists c :: Chain(c, s, t)
  }

  lemma {:induction false} NormalConcat(a: string, b: string)
    requires WellFormed(a)
    ensures Normal(a + b) == Normal(a) + Normal(b)
  {
    if a == "" {
      assert a + b == b;
    } else {
      var n := if EscapeAt(a, 0) then 3 else 1;
      NormalConcat(a[n..], b);
      assert (a + b)[n..] == a[n..] + b;
      assert EscapeAt(a + b, 0) <==> EscapeAt(a, 0) by {
        if a[0] == '%' { assert EscapeAt(a, 0); }
      }
      Reassociate(if n == 3 then Canon(a[1], a[2]) else [a[0]], Normal(a[n..]), Normal(b));
    }
  }

  lemma {:induction false} SameOctetNormal(e: string, f: string, b: string)
    requires SameOctet(e, f)
    ensures Normal(e + b) == Normal(f + b)
  {
    assert EscapeAt(e + b, 0) && (e + b)[3..] == b;
    if |f| == 3 && EscapeAt(f, 0) {
      assert EscapeAt(f + b, 0) && (f + b)[3..] == b;
      SameOctetSameCanon(e[1], e[2], f[1], f[2]);
    } else {
      assert (f + b)[1..] == b;
    }
  }

  lemma {:induction false} SameOctetSameCanon(h1: char, l1: char, h2: char, l2: char)
    requires IsHex(h1) && IsHex(l1) && IsHex(h2) && IsHex(l2) && Octet(h1, l1) == Octet(h2, l2)
    ensures Canon(h1, l1) == Canon(h2, l2)
  {
    assert 16 * Unhex(h1) + Unhex(l1) == 16 * Unhex(h2) + Unhex(l2);
    assert Unhex(h1) == Unhex(h2) && Unhex(l1) == Unhex(l2);
    SameDigit(h1, h2);
    SameDigit(l1, l2);
  }

  lemma {:induction false} SameDigit(c: char, d: char)
    requires IsHex(c) && IsHex(d) && Unhex(c) == Unhex(d)
    ensures Upper(c) == Upper(d)
  {}

  /** Both strings being well-formed, the part before a respelled octet is too. */
  lemma {:induction false} PrefixWellFormed(a: string, e: string, f: string, b: string)
    requires SameOctet(e, f) && WellFormed(a + (e + b))
    ensures WellFormed(a)
  {
    var s := a + (e + b);
    assert s[|a|] == '%';
    forall i | 0 <= i < |a| && a[i] == '%' ensures EscapeAt(a, i) {
      assert s[i] == '%' && EscapeAt(s, i);
      assert s[i + 1] != '%' && s[i + 2] != '%';
      assert |a| != i + 1 && |a| != i + 2;
      assert a[i + 1] == s[i + 1] && a[i + 2] == s[i + 2];
    }
  }

  lemma {:induction false} RespelledSameNormal(s: string, t: string)
    requires Respelled(s, t) && WellFormed(s) && WellFormed(t)
    ensures Normal(s) == Normal(t)
  {
    var a, e, f, b :| RespelledAt(s, t, a, e, f, b);
    if SameOctet(e, f) {
      PrefixWellFormed(a, e, f, b);
      SameOctetNormal(e, f, b);
    } else {
      PrefixWellFormed(a, f, e, b);
      SameOctetNormal(f, e, b);
    }
    NormalConcat(a, e + b);
    NormalConcat(a, f + b);
  }

  lemma {:induction false} ChainSameNormal(c: seq<string>, s: string, t: string)
    requires Chain(c, s, t)
    ensures Normal(s) == Normal(t)
    decreases |c|
  {
    if |c| > 1 {
      RespelledSameNormal(c[0], c[1]);
      assert forall i :: 0 <= i < |c| - 1 ==> c[1..][i] == c[i + 1];
      assert Chain(c[1..], c[1], t);
      ChainSameNormal(c[1..], c[1], t);
    }
  }

  lemma {:induction false} RespelledBehind(p: string, s: string, t: string)
    requires Respelled(s, t)
    ensures Respelled(p + s, p + t)
  {
    var a, e, f, b :| RespelledAt(s, t, a, e, f, b);
    Reassociate(p, a, e + b);
    Reassociate(p, a, f + b);
    assert RespelledAt(p + s, p + t, p + a, e, f, b);
  }

  lemma {:induction false} ChainBehind(p: string, c: seq<string>, s: string, t: string)
    requires WellFormed(p) && Chain(c, s, t)
    ensures Equivalent(p + s, p + t)
  {
    var d := seq(|c|, i requires 0 <= i < |c| => p + c[i]);
    forall i | 0 <= i < |d| ensures WellFormed(d[i]) { WellFormedConcat(p, c[i]); }
    forall i | 0 <= i < |d| - 1 ensures Respelled(d[i], d[i + 1]) { RespelledBehind(p, c[i], c[i + 1]); }
    assert Chain(d, p + s, p + t);
  }

  lemma {:induction false} EquivalentTransitive(s: string, t: string, u: string)
    requires Equivalent(s, t) && Equivalent(t, u)
    ensures Equivalent(s, u)
  {
    var c, d :| Chain(c, s, t) && Chain(d, t, u);
    var e := c + d[1..];
    forall i | 0 <= i < |e| - 1 ensures Respelled(e[i], e[i + 1]) {
      if i >= |c| - 1 { assert e[i] == d[i - |c| + 1] && e[i + 1] == d[i - |c| + 2]; }
    }
    assert Chain(e, s, u);
  }

  lemma {:induction false} RespelledSymmetric(s: string, t: string)
    requires Respelled(s, t)
    ensures Respelled(t, s)
  {
    var a, e, f, b :| RespelledAt(s, t, a, e, f, b);
    assert RespelledAt(t, s, a, f, e, b);
  }

  lemma {:induction false} EquivalentSymmetric(s: string, t: string)
    requires Equivalent(s, t)
    ensures Equivalent(t, s)
  {
    var c :| Chain(c, s, t);
    var d := seq(|c|, i requires 0 <= i < |c| => c[|c| - 1 - i]);
    forall i | 0 <= i < |d| - 1 ensures Respelled(d[i], d[i + 1]) {
      var k := |c| - 2 - i;
      assert Respelled(c[k], c[k + 1]);
      RespelledSymmetric(c[k], c[k + 1]);
    }
    assert Chain(d, t, s);
  }

  lemma {:induction false} RespellFirst(s: string)
    requires WellFormed(s) && EscapeAt(s, 0)
    ensures Equivalent(s, Canon(s[1], s[2]) + s[3..])
  {
    var e, f, rest := s[..3], Canon(s[1], s[2]), s[3..];
    WellFormedConcat(f, rest);
    assert SameOctet(e, f);
    assert s == "" + (e + rest) && f + rest == "" + (f + rest);
    assert RespelledAt(s, f + rest, "", e, f, rest);
    assert Chain([s, f + rest], s, f + rest);
  }

  /** A well-formed string can be respelled, octet by octet, into its normal form. */
  lemma {:induction false} EquivalentToNormal(s: string)
    requires WellFormed(s)
    ensures Equivalent(s, Normal(s))
  {
    if s == "" {
      assert Chain([""], s, Normal(s));
    } else {
      var n := if EscapeAt(s, 0) then 3 else 1;
      var rest := s[n..];
      EquivalentToNormal(rest);
      var c :| Chain(c, rest, Normal(rest));
      if n == 1 {
        assert s == [s[0]] + rest;
        ChainBehind([s[0]], c, rest, Normal(rest));
      } else {
        var f := Canon(s[1], s[2]);
        ChainBehind(f, c, rest, Normal(rest));
        RespellFirst(s);
        EquivalentTransitive(s, f + rest, f + Normal(rest));
      }
    }
  }

  /** Two well-formed strings have the same normal form exactly when they are
      equivalent under sections 6.2.2.1 and 6.2.2.2 of RFC 3986. */
  lemma {:induction false} EqualIffEquivalent(s: string, t: string)
    requires WellFormed(s) && WellFormed(t)
    ensures Normal(s) == Normal(t) <==> Equivalent(s, t)
  {
    if Equivalent(s, t) {
      var c :| Chain(c, s, t);
      ChainSameNormal(c, s, t);
    }
    if Normal(s) == Normal(t) {
      EquivalentToNormal(s);
      EquivalentToNormal(t);
      EquivalentSymmetric(t, Normal(t));
      EquivalentTransitive(s, Normal(s), t);
    }
  }
}

/** One line of a robots.txt (RFC 9309, section 2.2): how it is read, and its grammar. */
module RobotsGrammar {
  import opened Text
  import PercentEncoding

  datatype Rule = Rule(allow: bool, pattern: string)

  /** What a line means to the parser. `Blank` is a line without a colon: comments and
      empty lines do not end a run of agent lines; `Other` lines do. */
  datatype Event = Blank | Agent(name: string) | Path(rule: Rule) | Other

  // ----- Reading a line ----------------------------------------------------------------

  /** The position of the first `c`, or the length of the text. */
  function Index(s: string, c: char): (k: nat)
    ensures k <= |s| && (k < |s| ==> s[k] == c) && c !in s[..k]
  {
    if s == "" || s[0] == c then 0 else 1 + Index(s[1..], c)
  }

  /** The UTF-8 byte order mark. */
  const BOM: string := ['\U{EF}', '\U{BB}', '\U{BF}']

  function Unmarked(raw: string, first: bool): string { if first && BOM <= raw then raw[|BOM|..] else raw }

  function ReadLine(raw: string, first: bool): Event {
    var text := Unmarked(raw, first);
    var line := text[..Index(text, '#')];
    var colon := Index(line, ':');
    if colon == |line| then Blank
    else ReadField(line[..colon], line[colon + 1..])
  }

  function ReadField(field: string, text: string): Event {
    var key, value := Lower(Trim(field)), Trim(text);
    if key == "user-agent" then Agent(Lower(value))
    else if (key == "allow" || key == "disallow") && value != "" then
      Path(Rule(key == "allow", PercentEncoding.Normal(value)))
    else Other
  }

  // ----- The grammar ---------------------------------------------------------------------

  /** The line without its comment, and, if it is the first, without a byte order mark. */
  ghost predicate Content(raw: string, first: bool, text: string) {
    exists comment :: IsUnmarked(raw, first, text + comment) && IsComment(comment) && '#' !in text
  }

  ghost predicate IsUnmarked(raw: string, first: bool, rest: string) {
    if first && |raw| >= 3 && raw[0] == '\U{EF}' && raw[1] == '\U{BB}' && raw[2] == '\U{BF}' then rest == raw[3..]
    else rest == raw
  }

  ghost predicate IsComment(s: string) { s == "" || s[0] == '#' }

  /** The text is a key and a value with the first colon between them. */
  ghost predicate IsField(text: string, key: string, value: string) {
    text == key + ([':'] + value) && ':' !in key
  }

  /** The key is this word, in any case and with white space around it. */
  ghost predicate Says(key: string, word: string) { exists core :: Padded(key, core) && IsLower(core, word) }

  /** What a key and a trimmed value stand for. */
  ghost predicate FieldMeans(key: string, value: string, e: Event) {
    if Says(key, "user-agent") then e.Agent? && IsLower(value, e.name)
    else if Says(key, "allow") && value != "" then e == Path(Rule(true, PercentEncoding.Normal(value)))
    else if Says(key, "disallow") && value != "" then e == Path(Rule(false, PercentEncoding.Normal(value)))
    else e == Other
  }

  ghost predicate FieldSays(key: string, value: string, e: Event) {
    exists core :: Padded(value, core) && FieldMeans(key, core, e)
  }

  /** What a line stands for. */
  ghost predicate Means(raw: string, first: bool, e: Event) {
    exists text :: Content(raw, first, text) && TextMeans(text, e)
  }

  ghost predicate TextMeans(text: string, e: Event) {
    if ':' !in text then e == Blank
    else exists key, value :: IsField(text, key, value) && FieldSays(key, value, e)
  }

  // ----- Reading agrees with the grammar ---------------------------------------------------

  lemma {:induction false} IndexIs(s: string, c: char, a: string, b: string)
    requires s == a + b && c !in a && (b == "" || b[0] == c)
    ensures Index(s, c) == |a|
  {
    if a == "" {
      assert s == b;
    } else {
      assert s[1..] == a[1..] + b;
      IndexIs(s[1..], c, a[1..], b);
    }
  }

  /** Every line has exactly one content. */
  lemma {:induction false} ContentIs(raw: string, first: bool, text: string)
    ensures Content(raw, first, text) <==> text == Unmarked(raw, first)[..Index(Unmarked(raw, first), '#')]
  {
    var rest := Unmarked(raw, first);
    forall other ensures IsUnmarked(raw, first, other) <==> other == rest { UnmarkedIs(raw, first, other); }
    if Content(raw, first, text) {
      var comment :| IsUnmarked(raw, first, text + comment) && IsComment(comment) && '#' !in text;
      IndexIs(rest, '#', text, comment);
    }
    var k := Index(rest, '#');
    assert rest == rest[..k] + rest[k..];
    if text == rest[..k] { assert IsUnmarked(raw, first, text + rest[k..]) && IsComment(rest[k..]); }
  }

  lemma {:induction false} UnmarkedIs(raw: string, first: bool, rest: string)
    ensures IsUnmarked(raw, first, rest) <==> rest == Unmarked(raw, first)
  {
    assert BOM <= raw <==>
      |raw| >= 3 && raw[0] == '\U{EF}' && raw[1] == '\U{BB}' && raw[2] == '\U{BF}';
  }

  /** A text with a colon is one field. */
  lemma {:induction false} FieldIs(text: string, key: string, value: string)
    requires ':' in text
    ensures Index(text, ':') < |text|
    ensures IsField(text, key, value) <==> key == text[..Index(text, ':')] && value == text[Index(text, ':') + 1..]
  {
    var k := Index(text, ':');
    assert text[..|text|] == text;
    assert text == text[..k] + ([':'] + text[k + 1..]);
    if IsField(text, key, value) {
      IndexIs(text, ':', key, [':'] + value);
      assert text[|key|..] == [':'] + value;
    }
  }

  lemma {:induction false} SaysIff(key: string, word: string)
    ensures Says(key, word) <==> Lower(Trim(key)) == word
  {
    forall core ensures Padded(key, core) && IsLower(core, word) <==> core == Trim(key) && word == Lower(core) {
      TrimIsCore(key, core);
      LowerIs(core, word);
    }
    if Lower(Trim(key)) == word { assert Padded(key, Trim(key)) && IsLower(Trim(key), word); }
  }

  lemma {:induction false} FieldMeansIff(key: string, value: string, e: Event)
    ensures FieldMeans(key, Trim(value), e) <==> e == ReadField(key, value)
  {
    SaysIff(key, "user-agent");
    SaysIff(key, "allow");
    SaysIff(key, "disallow");
    if e.Agent? { LowerIs(Trim(value), e.name); }
  }

  lemma {:induction false} FieldSaysIff(key: string, value: string, e: Event)
    ensures FieldSays(key, value, e) <==> e == ReadField(key, value)
  {
    forall core ensures Padded(value, core) <==> core == Trim(value) { TrimIsCore(value, core); }
    FieldMeansIff(key, value, e);
  }

  lemma {:induction false} TextMeansIff(text: string, e: Event)
    requires ':' in text
    ensures Index(text, ':') < |text|
    ensures TextMeans(text, e) <==> e == ReadField(text[..Index(text, ':')], text[Index(text, ':') + 1..])
  {
    FieldIs(text, "", "");
    var field, value := text[..Index(text, ':')], text[Index(text, ':') + 1..];
    forall a, b ensures IsField(text, a, b) <==> a == field && b == value { FieldIs(text, a, b); }
    FieldSaysIff(field, value, e);
  }

  lemma {:induction false} NoColon(text: string)
    requires ':' !in text
    ensures Index(text, ':') == |text|
  {
    IndexIs(text, ':', text, "");
  }

  /** Every line stands for exactly one thing, and that is how it is read. */
  lemma {:induction false} MeansIff(raw: string, first: bool, e: Event)
    ensures Means(raw, first, e) <==> e == ReadLine(raw, first)
  {
    var text := Unmarked(raw, first)[..Index(Unmarked(raw, first), '#')];
    forall other ensures Content(raw, first, other) <==> other == text { ContentIs(raw, first, other); }
    assert Means(raw, first, e) <==> TextMeans(text, e);
    if ':' in text { TextMeansIff(text, e); } else { NoColon(text); }
  }
}

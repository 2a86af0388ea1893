/** Cutting a robots.txt body into lines while it is still arriving: lines end with
    LF, CR LF or a lone CR (RFC 9309, section 2.2). */
module RobotsLines {
  import opened Options

  predicate IsBreak(c: char) { c == '\n' || c == '\r' }

  /** The first line break, or the length of the text. */
  function FirstBreak(s: string): (k: nat)
    ensures k <= |s| && (k < |s| ==> IsBreak(s[k])) && forall i :: 0 <= i < k ==> !IsBreak(s[i])
  {
    if s == "" || IsBreak(s[0]) then 0 else 1 + FirstBreak(s[1..])
  }

  /** How many bytes the line break at `k` takes. */
  function BreakLength(s: string, k: nat): nat
    requires k < |s| && IsBreak(s[k])
  {
    if s[k] == '\r' && k + 1 < |s| && s[k + 1] == '\n' then 2 else 1
  }

  /** The first line and how many bytes it uses up; nothing while a longer text could
      still change the answer. */
  function NextLine(s: string, atEOF: bool): Option<(nat, string)> {
    var k := FirstBreak(s);
    if k == |s| then if atEOF && s != "" then Some((|s|, s)) else None
    else if s[k] == '\r' && k + 1 == |s| && !atEOF then None
    else Some((k + BreakLength(s, k), s[..k]))
  }

  /** One call of the split function. */
  method ScanLine(data: string, atEOF: bool) returns (advance: nat, token: Option<string>)
    ensures match NextLine(data, atEOF)
            case None => advance == 0 && token == None
            case Some((n, line)) => advance == n && token == Some(line)
  {
    for i := 0 to |data|
      invariant forall j :: 0 <= j < i ==> !IsBreak(data[j])
    {
      if IsBreak(data[i]) { BreakIsFirst(data, i); }
      if data[i] == '\n' { return i + 1, Some(data[..i]); }
      if data[i] == '\r' {
        if i + 1 < |data| {
          if data[i + 1] == '\n' { return i + 2, Some(data[..i]); }
          return i + 1, Some(data[..i]);
        }
        if atEOF { return i + 1, Some(data[..i]); }
        return 0, None;
      }
    }
    BreakIsFirst(data, |data|);
    if atEOF && |data| > 0 { return |data|, Some(data); }
    return 0, None;
  }

  lemma {:induction false} BreakIsFirst(s: string, k: nat)
    requires k <= |s| && (k < |s| ==> IsBreak(s[k])) && forall i :: 0 <= i < k ==> !IsBreak(s[i])
    ensures FirstBreak(s) == k
  {}

  /** A line found in partial data is the line found in any extension of it. */
  lemma {:induction false} LineIsFinal(s: string, more: string, atEOF: bool)
    requires NextLine(s, false).Some?
    ensures NextLine(s + more, atEOF) == NextLine(s, false)
  {
    var k := FirstBreak(s);
    BreakIsFirst(s + more, k);
    assert (s + more)[..k] == s[..k];
  }

  // ----- What the lines of a whole body are --------------------------------------

  function Lines(s: string): seq<string>
    decreases |s|
  {
    match NextLine(s, true)
    case None => []
    case Some((n, line)) => [line] + Lines(s[n..])
  }

  ghost function Concat(chunks: seq<string>): string {
    if chunks == [] then "" else chunks[0] + Concat(chunks[1..])
  }

  /** Reading in pieces yields the lines of the whole, however the body is chunked. */
  method ReadLines(chunks: seq<string>) returns (lines: seq<string>)
    ensures lines == Lines(Concat(chunks))
  {
    lines := [];
    var buffer, c, eof := "", 0, false;
    ghost var body := Concat(chunks);
    assert chunks[0..] == chunks && buffer + body == body && lines + Lines(body) == Lines(body);
    while true
      invariant c <= |chunks| && (eof ==> c == |chunks|)
      invariant lines + Lines(buffer + Concat(chunks[c..])) == Lines(body)
      decreases !eof, |chunks| - c, |buffer|
    {
      if buffer != "" || eof {
        var advance, token := ScanLine(buffer, eof);
        if token.Some? {
          TakeLine(buffer, Concat(chunks[c..]), eof);
          Reassociate(lines, [token.value], Lines(buffer[advance..] + Concat(chunks[c..])));
          lines := lines + [token.value];
          buffer := buffer[advance..];
          continue;
        }
      }
      if eof { break; }
      if c < |chunks| {
        assert chunks[c..][1..] == chunks[c + 1..];
        Reassociate(buffer, chunks[c], Concat(chunks[c + 1..]));
        buffer := buffer + chunks[c];
        c := c + 1;
      } else {
        eof := true;
      }
    }
    assert buffer + Concat(chunks[c..]) == buffer;
    assert Lines(buffer) == [];
  }

  lemma Reassociate<T>(a: seq<T>, b: seq<T>, c: seq<T>)
    ensures a + (b + c) == (a + b) + c
  {}

  /** Taking the first line of the buffer is taking the first line of what is left. */
  lemma {:induction false} TakeLine(buffer: string, ahead: string, eof: bool)
    requires NextLine(buffer, eof).Some? && (eof ==> ahead == "")
    ensures var (n, line) := NextLine(buffer, eof).value;
            0 < n <= |buffer| && Lines(buffer + ahead) == [line] + Lines(buffer[n..] + ahead)
  {
    if eof {
      assert buffer + ahead == buffer;
      var (n, line) := NextLine(buffer, eof).value;
      assert buffer[n..] + ahead == buffer[n..];
    } else {
      LineIsFinal(buffer, ahead, true);
      var (n, line) := NextLine(buffer, eof).value;
      assert (buffer + ahead)[n..] == buffer[n..] + ahead;
    }
  }

  // ----- A second description of the lines -----------------------------------------

  /** The text starts with this line and this line end: no break inside the line, and
      a lone CR is not followed by LF. Only a last, non-empty line may lack an end. */
  ghost predicate StartsWith(line: string, end: string, s: string) {
    && |line| + |end| <= |s| && line + end == s[..|line| + |end|]
    && (forall i :: 0 <= i < |line| ==> !IsBreak(line[i]))
    && (|| end == "\n" || end == "\r\n"
        || (end == "\r" && (|line| + 1 == |s| || s[|line| + 1] != '\n'))
        || (end == "" && line == s && s != ""))
  }

  ghost predicate Delimits(lines: seq<string>, ends: seq<string>, s: string)
    decreases |lines|
  {
    |lines| == |ends| &&
    if lines == [] then s == ""
    else
      && StartsWith(lines[0], ends[0], s)
      && Delimits(lines[1..], ends[1..], s[|lines[0]| + |ends[0]|..])
  }

  ghost function LineEnds(s: string): seq<string>
    decreases |s|
  {
    match NextLine(s, true)
    case None => []
    case Some((n, line)) => [s[|line|..n]] + LineEnds(s[n..])
  }

  lemma {:induction false} NextStarts(s: string)
    requires s != ""
    ensures NextLine(s, true).Some?
    ensures var (n, line) := NextLine(s, true).value;
            |line| <= n <= |s| && n > 0 && StartsWith(line, s[|line|..n], s)
  {}

  lemma {:induction false} StartIsNext(line: string, end: string, s: string)
    requires StartsWith(line, end, s)
    ensures NextLine(s, true) == Some((|line| + |end|, line))
  {
    var k := |line|;
    var both := s[..k + |end|];
    forall i | 0 <= i < k ensures !IsBreak(s[i]) { assert s[i] == both[i]; }
    if end != "" { assert s[k] == both[k] == end[0]; }
    if |end| == 2 { assert s[k + 1] == both[k + 1] == end[1]; }
    assert s[..k] == both[..k] == line;
    BreakIsFirst(s, k);
  }

  /** The lines and their ends give back the body byte for byte. */
  lemma {:induction false} LinesDelimit(s: string)
    ensures Delimits(Lines(s), LineEnds(s), s)
    decreases |s|
  {
    if s != "" {
      NextStarts(s);
      var (n, line) := NextLine(s, true).value;
      LinesDelimit(s[n..]);
      assert Lines(s)[1..] == Lines(s[n..]) && LineEnds(s)[1..] == LineEnds(s[n..]);
    }
  }

  /** No other cut into lines does. */
  lemma {:induction false} LinesUnique(lines: seq<string>, ends: seq<string>, s: string)
    requires Delimits(lines, ends, s)
    ensures lines == Lines(s)
    decreases |lines|
  {
    if lines != [] {
      var rest := s[|lines[0]| + |ends[0]|..];
      StartIsNext(lines[0], ends[0], s);
      LinesUnique(lines[1..], ends[1..], rest);
      assert Lines(s) == [lines[0]] + Lines(rest);
    }
  }
}

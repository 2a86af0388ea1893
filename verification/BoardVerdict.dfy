/** Deciding whether a job board found under a company's slug is the company's. */
module BoardVerdict {
  import DomainMention

  datatype Verdict = NoBoard | Empty | Foreign | NamedOther | Uncorroborated | Owned | Proven

  /** One probe: it could not be completed, or it gave a verdict. */
  datatype Probe = Errored | Answer(verdict: Verdict)

  /** A name to look up. `common` says it is an everyday word, `titled` that the employer's
      job titles are known, `domain` is "" when unknown. */
  datatype Entry = Entry(domain: string, common: bool, titled: bool)

  /** Guess never probes for an everyday word without a domain. */
  predicate NeedsDomain(e: Entry) { e.domain == "" && e.common }

  ghost predicate Says(texts: seq<string>, domain: string) {
    domain != "" && exists i :: 0 <= i < |texts| && DomainMention.Stands(texts[i], domain)
  }

  /** The search finds the domain in one of the texts. */
  ghost predicate Finds(texts: seq<string>, domain: string) {
    domain != "" && exists i :: 0 <= i < |texts| && DomainMention.Search(texts[i], domain, 0)
  }

  /** What is found is there; and unless the domain overlaps itself, what is there is found. */
  lemma {:induction false} FindsMeansSays(texts: seq<string>, domain: string)
    ensures Finds(texts, domain) ==> Says(texts, domain)
    ensures !DomainMention.SelfOverlapping(domain) ==> (Finds(texts, domain) <==> Says(texts, domain))
  {
    if domain != "" {
      forall i | 0 <= i < |texts| && DomainMention.Search(texts[i], domain, 0)
        ensures DomainMention.Stands(texts[i], domain)
      {
        DomainMention.SearchIsSound(texts[i], domain, 0);
      }
      DomainMention.ExactIffNotSelfOverlapping(domain);
    }
  }

  method DomainProof(e: Entry, texts: seq<string>) returns (proven: bool)
    ensures proven <==> Finds(texts, e.domain)
  {
    for i := 0 to |texts|
      invariant e.domain == "" || forall j :: 0 <= j < i ==> !DomainMention.Search(texts[j], e.domain, 0)
    {
      var hit := DomainMention.HasDomain(texts[i], e.domain);
      if hit { return true; }
    }
    return false;
  }

  // ----- Lever and Ashby -------------------------------------------------------------------

  /** What was read of a board: the texts of its first jobs, in how many of them the
      company is named, how many jobs are listed, and whether a listed title is one of
      the employer's. */
  datatype Sample = Sample(texts: seq<string>, naming: nat, listed: nat, sharesTitle: bool)

  /** The name is no everyday word, the board lists two jobs, and half of the texts or
      more name the company. */
  predicate NameProof(e: Entry, s: Sample) {
    s.texts != [] && !e.common && s.listed >= 2 && s.naming >= (|s.texts| + 1) / 2
  }

  /** When a sampled board gets which verdict. */
  ghost predicate SampleGives(e: Entry, s: Sample, v: Verdict) {
    var found := Finds(s.texts, e.domain);
    var named := |s.texts| > 0 && !e.common && s.listed > 1 && 2 * s.naming >= |s.texts|;
    && (v == Empty <==> s.listed == 0)
    && (v == Proven <==> s.listed > 0 && found)
    && (v == Foreign <==> s.listed > 0 && !found && !named)
    && (v == Owned <==> !found && named && (e.titled ==> s.sharesTitle))
    && (v == Uncorroborated <==> !found && named && e.titled && !s.sharesTitle)
  }

  method Classify(e: Entry, s: Sample) returns (v: Verdict)
    ensures SampleGives(e, s, v)
  {
    if s.listed == 0 { return Empty; }
    var proven := DomainProof(e, s.texts);
    if proven { return Proven; }
    if NameProof(e, s) {
      if e.titled && !s.sharesTitle { return Uncorroborated; }
      return Owned;
    }
    return Foreign;
  }

  // ----- Greenhouse ---------------------------------------------------------------------------

  /** One request: it failed, there was nothing there, or this came back. */
  datatype Reply<+T> = Broken | Missing | Body(value: T)

  /** A listed job; its text comes from a request of its own, as sent and as plain text. */
  datatype Listed = Listed(hasId: bool, detail: Reply<(string, string)>)

  /** When a probe of a sampled board gives which answer. */
  ghost predicate BoardGives(e: Entry, board: Reply<Sample>, p: Probe) {
    match board
    case Broken => p == Errored
    case Missing => p == Answer(NoBoard)
    case Body(s) => p.Answer? && SampleGives(e, s, p.verdict)
  }

  method ProbeSampled(e: Entry, board: Reply<Sample>) returns (p: Probe)
    ensures BoardGives(e, board, p)
  {
    match board
    case Broken => p := Errored;
    case Missing => p := Answer(NoBoard);
    case Body(s) =>
      var v := Classify(e, s);
      p := Answer(v);
  }

  datatype Greenhouse = Greenhouse(
    board: Reply<(bool, bool)>,       // its name is the company's; it shares a word with it
    jobs: Reply<(seq<Listed>, bool)>) // the list; one of its titles is the employer's

  const DOMAIN_JOBS: nat := 3

  function NotTheCompanys(e: Entry, sharesWord: bool): Verdict {
    if e.domain != "" || sharesWord then Foreign else NamedOther
  }

  /** A job in which the domain is found, and one whose request fails. */
  ghost predicate HitAt(e: Entry, jobs: seq<Listed>, i: nat) {
    && i < |jobs| && i < 3 && jobs[i].hasId && jobs[i].detail.Body?
    && Finds([jobs[i].detail.value.0, jobs[i].detail.value.1], e.domain)
  }

  ghost predicate BreaksAt(jobs: seq<Listed>, i: nat) {
    i < |jobs| && i < 3 && jobs[i].hasId && jobs[i].detail.Broken?
  }

  /** The first jobs are read for the domain until one says it or fails. */
  ghost predicate ReadingHits(e: Entry, jobs: seq<Listed>) {
    e.domain != "" && exists i :: HitAt(e, jobs, i) && forall h: nat :: h < i ==> !BreaksAt(jobs, h)
  }

  ghost predicate ReadingBreaks(e: Entry, jobs: seq<Listed>) {
    e.domain != "" && exists i :: BreaksAt(jobs, i) && forall h: nat :: h < i ==> !HitAt(e, jobs, h)
  }

  datatype Reading = Hit | Broke | Through

  method ReadForDomain(e: Entry, jobs: seq<Listed>) returns (r: Reading)
    requires e.domain != ""
    ensures r == Hit <==> ReadingHits(e, jobs)
    ensures r == Broke <==> ReadingBreaks(e, jobs)
  {
    var i := 0;
    while i < |jobs| && i < DOMAIN_JOBS
      invariant 0 <= i <= |jobs| && i <= DOMAIN_JOBS
      invariant forall h: nat :: h < i ==> !HitAt(e, jobs, h) && !BreaksAt(jobs, h)
    {
      if jobs[i].hasId {
        match jobs[i].detail
        case Broken =>
          assert BreaksAt(jobs, i);
          return Broke;
        case Missing =>
        case Body((raw, plain)) =>
          var hit := DomainProof(e, [raw, plain]);
          if hit {
            assert HitAt(e, jobs, i);
            return Hit;
          }
      }
      i := i + 1;
    }
    return Through;
  }

  /** The list was asked for: the board is the company's by name, or a domain may prove it. */
  predicate Asks(e: Entry, g: Greenhouse) { g.board.Body? && (g.board.value.0 || e.domain != "") }

  /** The list came back with jobs, and reading them neither failed nor found the domain. */
  ghost predicate Unproven(e: Entry, g: Greenhouse) {
    && Asks(e, g) && g.jobs.Body? && g.jobs.value.0 != []
    && !ReadingHits(e, g.jobs.value.0) && !ReadingBreaks(e, g.jobs.value.0)
  }

  ghost predicate JobsBreak(e: Entry, jobs: Reply<(seq<Listed>, bool)>) {
    jobs.Broken? || (jobs.Body? && ReadingBreaks(e, jobs.value.0))
  }

  /** When a probe of Greenhouse gives which answer. */
  ghost predicate GreenhouseGives(e: Entry, g: Greenhouse, p: Probe) {
    && (p == Errored <==> g.board.Broken? || (Asks(e, g) && JobsBreak(e, g.jobs)))
    && (p == Answer(NoBoard) <==> g.board.Missing? || (Asks(e, g) && g.jobs.Missing?))
    && (p == Answer(Proven) <==> Asks(e, g) && g.jobs.Body? && ReadingHits(e, g.jobs.value.0))
    && (p == Answer(Empty) <==> g.board.Body? && g.board.value.0 && g.jobs.Body? && g.jobs.value.0 == [])
    && (p == Answer(NamedOther) <==> g.board.Body? && !g.board.value.0 && !g.board.value.1 && e.domain == "")
    && (p == Answer(Owned) <==>
          Unproven(e, g) && g.board.value.0 && !e.common && (e.titled ==> g.jobs.value.1))
    && (p == Answer(Uncorroborated) <==>
          Unproven(e, g) && g.board.value.0 && !e.common && e.titled && !g.jobs.value.1)
  }

  method ProbeGreenhouse(e: Entry, g: Greenhouse) returns (p: Probe)
    ensures GreenhouseGives(e, g, p)
  {
    if g.board.Broken? { return Errored; }
    if g.board.Missing? { return Answer(NoBoard); }
    var (nameOK, sharesWord) := g.board.value;
    if !nameOK && e.domain == "" { return Answer(NotTheCompanys(e, sharesWord)); }
    if g.jobs.Broken? { return Errored; }
    if g.jobs.Missing? { return Answer(NoBoard); }
    var (jobs, sharesTitle) := g.jobs.value;
    if jobs == [] {
      if nameOK { return Answer(Empty); }
      return Answer(NotTheCompanys(e, sharesWord));
    }
    if e.domain != "" {
      var r := ReadForDomain(e, jobs);
      if r == Broke { return Errored; }
      if r == Hit { return Answer(Proven); }
    }
    if !nameOK { return Answer(NotTheCompanys(e, sharesWord)); }
    if e.common { return Answer(Foreign); }
    if e.titled && !sharesTitle { return Answer(Uncorroborated); }
    return Answer(Owned);
  }

  /** A board counts as proven only if one of its first jobs says the domain. */
  lemma {:induction false} ProvenSaysDomain(e: Entry, jobs: seq<Listed>) returns (i: nat)
    requires ReadingHits(e, jobs)
    ensures i < |jobs| && i < 3 && jobs[i].detail.Body?
    ensures Says([jobs[i].detail.value.0, jobs[i].detail.value.1], e.domain)
  {
    i :| HitAt(e, jobs, i) && forall h: nat :: h < i ==> !BreaksAt(jobs, h);
    FindsMeansSays([jobs[i].detail.value.0, jobs[i].detail.value.1], e.domain);
  }

  // ----- What a probe may answer -----------------------------------------------------------------

  /** Some board makes a probe give this answer for the entry. */
  ghost predicate Possible(e: Entry, p: Probe) {
    || (exists g :: GreenhouseGives(e, g, p))
    || (exists board :: BoardGives(e, board, p))
  }

  /** An everyday word is never owned by name, and nothing is proven without a domain. */
  lemma {:induction false} PossibleAnswers(e: Entry, p: Probe)
    requires Possible(e, p)
    ensures e.common ==> p != Answer(Owned)
    ensures p == Answer(Proven) ==> e.domain != ""
  {
    if g :| GreenhouseGives(e, g, p) {
      assert p == Answer(Owned) ==> !e.common;
    } else {
      var board :| BoardGives(e, board, p);
      if board.Body? { assert SampleGives(e, board.value, p.verdict); }
    }
  }
}

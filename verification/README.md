# Remote job aggregator: a verified model

The aggregator collects job postings from company boards, job boards and searches, keeps them
in three PostgreSQL tables, and decides for each if someone living in Ethiopia can be hired
for it. This project models the parts of it where the logic is: the life of a job in the tables,
the concurrent protocols, the robots.txt engine, the place scanner, duplicate detection, the
eligibility rules and the early-stopping pager. `dafny verify dfyconfig.toml` checks it.

How the source is rendered:

- Code that updates state is a method with loops or a class; its contract ties what it does
  to a declarative description, and lemmas prove what the description promises.
- A goroutine protocol is a machine whose steps may be taken in any order (`WorkerPool`,
  `BatchPool`, `BoardGuess`, `SearchBudget`); the theorems quantify over every run of it.
- A SQL statement is one atomic step on the tables (`Tables.Exec`). Unique indexes are maps,
  the composite foreign keys and CHECK constraints are conditions of the step. A store call
  may fail at any time without having run (`JobStore.Store`); theorems that need every call to
  go through say so with `faulted`.
- What a contract says is spelled out in the fields of the input and the result where the code
  works through helpers: one description for the loop to follow, and one to read.
  `Ingestion.RunResult` also holds the places of the jobs stored, for the contracts to speak of.
- What the code gets from outside (HTTP responses, decoded pages, clocks, what the regular
  expressions find, the lexicon and code tables, name and title keys, whether a location is in
  Ethiopia, which company an employer is) is a parameter, and arbitrary.

Results that correct or sharpen what the comments in the source say:

- `internal/ats/jobsearch/jobsearch.go:497-501` says the outcome of removing duplicates does not
  depend on the order of the results. It does not exactly under the condition of
  `Openings.OrderFree`; "Hawassa", "Hawassa, Ethiopia" and a posting without a place break it
  (`Openings.HawassaOrderMatters`).
- `internal/discovery/guess.go:389-408` misses a domain that overlaps itself behind a word end
  ("co.co" at the end of "xco.co.co"), and only such domains
  (`DomainMention.ExactIffNotSelfOverlapping`).
- `internal/robots/robots.go:255-275` is idempotent exactly on the strings of
  `PercentEncoding.Settled`; a stray "%" can make a second pass decode what the first one
  assembled (`PercentEncoding.NotIdempotentWithStrayPercent`).
- `internal/ingestion/ingestion.go:296` records ids as the source spells them, while the store
  keeps them trimmed. A stored job stays open after a full board exactly if its trimmed id is
  among the listed spellings and not among the ended ones (`Ingestion.StoredStaysOpenIff`).
- Two kinds of id fail a board's run although no store call fails, and, limits of the database
  aside, nothing else does (`Ingestion.Ingestible`, `Ingestion.Persist`). An id of white space
  alone is neither skipped nor refused but aborts the run. A job whose id holds a NUL is refused
  and skipped, but its id is still sent in the list that closes a full board, which is then
  refused as a whole (`Ingestion.NulIdFailsFullBoard`); so is the list of ended ids.
- A sample, a collector's groups and its sweep close a job only if it is reported as ended or was
  unseen for the window, also when something fails (`Ingestion.Persist`,
  `Collectors.OnlyTwoReasons`).
- An inactive target owns no open job as long as no store call fails. If the second statement
  of retiring a board fails, it does exactly if it had open jobs
  (`BoardRuns.HalfRetiredIsQuietIff`).
- The content hash tells the two type fields apart only because their vocabularies share no
  word (`ContentHash.SharedWordCollides`).
- With no worker a run returns, but its feeder waits for ever unless there was nothing to feed
  or the run was cancelled (`WorkerPool.FeederStopsIff`), which is why the constructors clamp.

## Model

| member | source | states |
|---|---|---|
| TableLaws.ExecKeepsValid | migrations/000001_init_schema.up.sql:88-141 | Every statement with trimmed keys, whatever else it is given, keeps the constraints: a job's company and source are its target's, it is open exactly when it has no closing time, its types are in the vocabularies, boards and company names are unique. |
| TableLaws.ReplayKeepsValid | internal/job/store.go:154-401 | So does every sequence of statements. |
| TableLaws.RowFate | internal/job/store.go:278-401 | No statement loses a row; an open row is closed only by a closing statement of its own target that picks it, changes hands only by a move of it, and changes otherwise only by an accepted upsert of it. |
| TableLaws.ClosedBySome | internal/job/store.go:278-349 | For a job open before a log and not after it, the log holds a closing statement that picked it, as the table stood then. |
| TableLaws.RowHoldsLastReports | internal/job/store.go:154-182 | After any statements a job is there exactly if a report of it was accepted; it holds the last non-blank remote and employment type (else unknown), the last given publish and expiry date, the last content (its location trimmed) with its hash, and the times of the first and last report. |
| TableLaws.ChangedIff | internal/job/store.go:164-235 | After any statements, an accepted upsert moves the time of the last change exactly when it reports a change: the job is new, was not open, or its content differs, in a field or in what is said of the types, from the content reported last; it always leaves the row open. |
| TableLaws.Commute | internal/ingestion/ingestion.go:127-135 | Statements of different targets that do not report the same job give the same tables in either order. |
| TableLaws.OutcomeUnaffected | internal/ingestion/ingestion.go:127-135 | Neither of two such statements changes the outcome the other reports. |
| TableLaws.InterleavingIsSequential | internal/ingestion/ingestion.go:185-226 | However the runs of different targets are interleaved, the tables end up as if the targets had been processed one after the other, in any order; and each target's statements report what they would report alone. |
| Interleaving.SequentialState | internal/ingestion/ingestion.go:191-220 | For any steps of several owners whose steps commute: the state of an interleaving is that of one owner's steps first and the others' after. |
| Interleaving.SequentialOutcomes | internal/ingestion/ingestion.go:191-220 | And each of that owner's steps has the outcome it has when they are taken alone. |
| Interleaving.InTurnState | internal/ingestion/ingestion.go:191-220 | The state of an interleaving is that of the owners' steps taken in turn, each owner's in one go, in any order of the owners. |
| ContentHash.Write | internal/job/store.go:116-133 | The bytes hashed are the five fields and the types that are said, each ended by NUL. |
| ContentHash.EqualIff | internal/job/store.go:116-133 | Contents without NUL give the same bytes exactly if their five fields agree and the types said agree as one list. |
| ContentHash.Injective | internal/job/store.go:116-133 | Within the two vocabularies the bytes determine the content. |
| ContentHash.SharedWordCollides | internal/job/store.go:122-131 | A word outside them could move from one type to the other unnoticed. |
| JobStore.Store.UpsertFromATS | internal/job/store.go:193-235 | Trims the keys and types, refuses a blank key before any statement, else runs the upsert once and reports its outcome, or fails without having run it. |
| JobStore.Store.Close | internal/job/store.go:278-349 | The three ways of closing: one statement with exactly that effect and count, none for an empty list of ended ids, an error for a window that is not positive, and a refusal that closes nothing for a list with a NUL in it. |
| JobStore.Store.MoveJob | internal/job/store.go:382-401 | Gives the job to the target, or fails and changes nothing. |
| JobStore.Store.Flag | internal/company/target.go:261-295 | Sets a flag of one target, and reports whether the target was there. |
| Ingestion.TidyKeeps | internal/ingestion/ingestion.go:282-302 | Only a publish date more than a day ahead is dropped, and a title keeps its first 300 characters; nothing else of a job changes. |
| Ingestion.Upsert | internal/ingestion/ingestion.go:309-321 | A job that fits the constraints is stored unless its row is another target's, and the row says what the job says (the location trimmed) and keeps what it is silent about; no other row changes. |
| Ingestion.StoreOne | internal/ingestion/ingestion.go:309-353 | With moving allowed, a row of another target changes hands and is then stored; a refused job is skipped with its row at most moved and saying what it said; the outcome tells whether the row is new, or was closed or says something else now; without a failed call the run is aborted exactly for a blank id. |
| Ingestion.AbortsIff | internal/job/store.go:237-261 | A job is skipped for its own sake (another target has it, a NUL, a forbidden value); exactly a target that is not there, or not the company's, aborts the run. |
| Ingestion.StoreListing | internal/ingestion/ingestion.go:268-355 | Going through a listing collects the ids listed and ended, counts every job once and the new rows exactly, stores every job that is due (an id, a title and a link, no NUL, no unheard-of type, no other target's row), leaves other targets' rows alone unless it moves them, opens nothing but what it stored, and leaves in every row what the jobs stored say. |
| Ingestion.ToldNext | internal/ingestion/ingestion.go:268-355 | Storing one more job keeps what is told of every row: a row's content and hash are those of the last job stored under its key (title cut to 300 characters, description and link as listed, no canonical URL, location trimmed); each type and date is the one said last, a publish date more than a day ahead saying nothing, else what the row had, else unknown. |
| Ingestion.IdsListed | internal/ingestion/ingestion.go:258-296 | The listed ids are those of the jobs not ended; the ended ones those of ended jobs that have an id. |
| Ingestion.CloseBoard | internal/ingestion/ingestion.go:356-380 | A row of the target stays open exactly if it was open, is not among the ended ids and the rule spares it: listed, for a full board; seen within the window, for a sample. The jobs closed are counted exactly, and none is counted if a call fails; then the success of this target, and no other, is recorded. Nothing else changes, also if a call fails; without a failed call it succeeds exactly if the ids it sends hold no NUL. |
| Ingestion.Persist | internal/ingestion/ingestion.go:258-383 | What one board's run does to every row (PersistedAt). What a row says is what the jobs stored say, as `ToldNext` has it, column by column. Always: an open job is closed only if it is listed as ended, a full board lacks it, or a sample's run finds it unseen for the window. Without an error: after a full board the target's open jobs are exactly those it had or stored that were listed and not ended; after a sample none unseen within the window is left; the jobs closed are counted and the success recorded. An abort closes nothing. Without a failed call it succeeds exactly if the listing is ingestible (no blank id, no NUL in an ended id, nor in a listed one of a full board), and then every job due is stored. |
| Ingestion.NulIdFailsFullBoard | internal/ingestion/ingestion.go:293-380 | A listed id with a NUL has its job refused and skipped, and then the list that closes a full board refused, whatever the tables hold. |
| Ingestion.StoredStaysOpenIff | internal/ingestion/ingestion.go:293-296 | A stored job is open after a full board exactly if its trimmed id is among the ids as listed and not among those listed as ended. |
| Ingestion.TrimmedIdsStayOpen | internal/ingestion/ingestion.go:293-296 | A trimmed id is; an id listed only with white space around it is not, so its job is stored and closed at once. |
| BoardRuns.RetireGoneBoard | internal/ingestion/ingestion.go:385-402 | Deactivates the target, and only then closes all its jobs; a failure leaves the rest undone; without one the target is inactive and owns no open job. |
| BoardRuns.HalfRetiredIsQuietIff | internal/ingestion/ingestion.go:388-397 | With only the first of the two statements done, no inactive target owns an open job exactly if this one had none. |
| BoardRuns.ProcessTarget | internal/ingestion/ingestion.go:228-256 | A failed fetch or a missing client leaves the tables unchanged, a board not found is retired, a listing is persisted; every statement run is one the fetch justifies; without a failed call inactive targets own no open job afterwards if they owned none before. |
| BoardRuns.ListActive | internal/company/target.go:232-259 | Lists every active target once, by id. |
| BoardRuns.Run | internal/ingestion/ingestion.go:185-226 | Every active target is processed, or the first ones handed out before a cancellation, one result each; all statements are justified by the fetches; without a failed call no inactive target owns an open job if none did. |
| BoardRuns.OnlyFourReasons | internal/ingestion/ingestion.go:228-256 | A job a run leaves closed was closed because a full listing lacked it, the source reported it ended, a sample had not shown it for too long, or its board was gone. |
| BoardRuns.DisjointListingsAreUnrelated | internal/ingestion/ingestion.go:127-135 | If no two boards list the same job, statements of different boards are independent. |
| BoardRuns.RunIsSequential | internal/ingestion/ingestion.go:185-226 | Then any interleaving of the boards' runs does what processing them one after the other does, in any order, with the same outcomes for each. |
| Registrar.FindTarget | internal/company/registrar.go:33-50 | Finds the target registered under the employer's name for the provider, exactly when there is one; creates nothing; without a failed call it errs exactly for a usable name with a NUL. |
| Registrar.EnsureTarget | internal/company/registrar.go:52-90 | Gives an active target whose board and company bear the employer's name, with the market asked for (else the one it had, else worldwide), marking the company when asked; changes no job and switches nothing off; without a failed call it does so exactly if the name is usable, holds no NUL, and no board of that name belongs to another company. |
| Collectors.GroupJobs | internal/ingestion/collectors.go:190-223 | Every job with an employer is in one group, that of its employer (or of the company that is known as), in whatever case; a group holds its jobs in order, under the name and flag of its first. |
| Collectors.FilterStored | internal/ingestion/collectors.go:248-259 | The group's jobs in order, without exactly the open ones whose opening was stored in the run before. |
| Collectors.FreshBy | internal/ingestion/collectors.go:248-397 | Looking openings up on record leaves out exactly the open jobs whose opening was written before: in this market, for this employer and title, and in the Ethiopian market at one place. |
| Collectors.DropOpenings | internal/ingestion/collectors.go:356-377 | The jobs in order, without exactly the open ones that duplicate an opening another source has. |
| Collectors.ElsewhereIff | internal/job/store.go:357-377 | An opening is looked up as another source's exactly if there is an open row of another provider, of the company, under a target of the market, with an equal title key and, in the Ethiopian market, at one place. |
| Collectors.CollectGroup | internal/ingestion/collectors.go:229-306 | Leaves out, in order, exactly what an earlier collector wrote and then what another source has an open row of (nothing, if that cannot be looked up; without a failed call it can), row by row; gives the group the target of its employer with the provider and in the market it is routed to, creating none for ended postings alone; ingests the rest as a sample, so closes only what is ended or was unseen for the window; and records what was stored if nothing failed, none of it recorded before. |
| Collectors.LeftOutRightly | internal/ingestion/collectors.go:286-294 | A job left out has an open row of another source; where those could be looked up, no open job kept has one. |
| Collectors.OwnRowIsKept | internal/job/store.go:357-359 | A job that only the provider's own rows match is kept. |
| Collectors.SweepAbsent | internal/ingestion/collectors.go:408-431 | Closes a job only if it was unseen for the window and its target is an active one of the collector's own that the run did not touch, and changes nothing else; if nothing failed, no open job of the collector's active targets was last seen before the window. |
| Collectors.RunCollector | internal/ingestion/collectors.go:153-315 | Handles every employer named and then sweeps, each step as its contract says; if nothing failed, every open job under the collector's own active targets was seen within the window before the start; a source that gave nothing, or has no window, changes nothing. |
| Collectors.RunCollectors | internal/ingestion/collectors.go:114-151 | One collector's run after the other; the recorded writes account for every job stored by a group that went through, in the market it was routed to; no two collectors recorded the same opening (market, employer, title and, in the Ethiopian market, place); every group knew of all that earlier collectors wrote; targets keep their boards and inactive ones own no open job if none did. |
| Collectors.OnlyTwoReasons | internal/ingestion/collectors.go:153-431 | A job open before a run of collectors and not after it was listed as ended by a group, or was unseen for the window when its group was done or its untouched own target swept, as the table stood then, whether or not something failed. |
| Collectors.GroupClosesRightly | internal/ingestion/collectors.go:229-306 | The same for one group. |
| WorkerPool.StepKeepsInv | internal/ingestion/ingestion.go:191-225 | Every step keeps each handed-out item with one worker or among the results, exactly once. |
| WorkerPool.StepUsesUp | internal/discovery/discovery.go:140-176 | Every step brings the run nearer its end. |
| WorkerPool.NeverStuck | internal/discovery/discovery.go:140-176 | With a worker, some step is possible until the run is over. |
| WorkerPool.EveryRun | internal/ingestion/ingestion.go:185-226 | Every interleaving: at most 3 steps an item plus workers plus 4, no send on the closed channel, no deadlock; on return exactly one result for each item of a prefix, and for all of them unless cancelled. |
| WorkerPool.FeederStopsIff | internal/discovery/discovery.go:105-128 | When nothing but a cancellation can happen the caller has returned, and the feeder has stopped exactly if there was a worker, nothing to feed or a cancellation. |
| BatchPool.StepKeepsInv | internal/eligibility/service.go:93-113 | No two workers ever have the same index, and a row is written once, by the worker that has it. |
| BatchPool.EveryRun | internal/eligibility/service.go:93-113 | Every interleaving is short and free of deadlock, and ends with the row of index i at place i. |
| SearchBudget.EveryRun | internal/ats/jobsearch/jobsearch.go:78-98 | Every interleaving: grants are those of an exact counter and never exceed the limit, a refusal means the limit was granted, and the counter is the grants plus the refusals not yet undone. |
| SearchBudget.TakeIsExact | internal/ats/jobsearch/jobsearch.go:88-96 | The step that decides a Take grants it exactly if fewer than the limit were decided, and granted, before. |
| SearchBudget.Budget.Take | internal/ats/jobsearch/jobsearch.go:88-96 | Taken alone: succeeds exactly below the limit, and a refusal leaves the counter as it was. |
| SearchBudget.Metered | internal/ats/jobsearch/jobsearch.go:198-227 | Sends none exactly when the budget is spent, two exactly after a transient failure with budget left and no cancellation, pays for each, and never overspends; and which results, error, cancellation or exhaustion it ends with, by what the requests brought. |
| BoardGuess.StepKeepsInv | internal/discovery/guess.go:562-590 | Every step of workers, feeder, abort and cancellation keeps each name with one worker, unreached, or with its probes in order. |
| BoardGuess.StepKeepsCount | internal/discovery/guess.go:643-654 | Every step keeps the failure counter, the abort flag and the cancellation in agreement with the failed probes. |
| BoardGuess.StepUsesUp | internal/discovery/guess.go:562-590 | Every step brings the run nearer its end. |
| BoardGuess.NeverStuck | internal/discovery/guess.go:562-590 | Some step is possible until the run is over. |
| BoardGuess.EveryRun | internal/discovery/guess.go:546-676 | Every interleaving is bounded and free of deadlock; at the end each name is refused for want of a domain, fully probed, or uncompleted, the last only after a cancellation; it was aborted exactly at the failure limit. |
| BoardGuess.BoardsAre | internal/discovery/guess.go:655-662 | A name's boards are exactly the slots whose probe said owned or proven. |
| BoardGuess.TallyMeans | internal/discovery/guess.go:643-671 | All boards are proven exactly if no probe said owned; failures and refusals are counted exactly if some probe gave one. |
| BoardGuess.MakeReport | internal/discovery/guess.go:589-617 | Every name is counted in exactly one outcome; which names are unreached, want a domain, are ambiguous or not found, and which boards are candidates (of a looked-up name with one board or only proven ones), is said in the fields of the outcomes. |
| BoardGuess.NamesAre | internal/discovery/guess.go:589-617 | A list of the report holds exactly the names of its outcome. |
| BoardGuess.CandidatesAre | internal/discovery/guess.go:598-616 | The candidates are exactly the boards of completed names that have one board or only proven ones. |
| BoardGuess.EveryCandidate | internal/discovery/guess.go:546-676 | From a finished run, in which every recorded answer is one its probe may give, to its candidates: all the name's probes were made, and an everyday word or a name with several boards contributes only boards proven by domain. |
| BoardVerdict.DomainProof | internal/discovery/guess.go:414-422 | Proven exactly if the search finds the domain in some text. |
| BoardVerdict.FindsMeansSays | internal/discovery/guess.go:387-422 | What it finds stands there as a word; for a domain that does not overlap itself, what stands there is found. |
| BoardVerdict.Classify | internal/discovery/guess.go:515-532 | The exact condition of each of the five verdicts on a sampled board. |
| BoardVerdict.ProbeSampled | internal/discovery/guess.go:830-929 | What a probe of Lever or Ashby answers: an error, no board, or the verdict on what was sampled. |
| BoardVerdict.ReadForDomain | internal/discovery/guess.go:777-811 | At most three jobs are read, until the first that says the domain or fails; which of the two came first decides. |
| BoardVerdict.ProbeGreenhouse | internal/discovery/guess.go:746-828 | The exact condition of an error and of each verdict. |
| BoardVerdict.PossibleAnswers | internal/discovery/guess.go:515-828 | Whatever the board, no probe answers that an everyday word owns it by name, nor that it is proven without a domain. |
| BoardVerdict.ProvenSaysDomain | internal/discovery/guess.go:777-811 | A proven board has a job among its first three that says the domain. |
| DomainMention.HasDomain | internal/discovery/guess.go:387-408 | The loop decides the recursive search, which continues behind each hit that is no word. |
| DomainMention.SearchIsSound | internal/discovery/guess.go:387-408 | What the search finds stands in the text on its own. |
| DomainMention.SearchMisses | internal/discovery/guess.go:394-406 | For every domain that overlaps itself behind a word end there is a text in which it stands and is missed. |
| DomainMention.ExactIffNotSelfOverlapping | internal/discovery/guess.go:387-408 | The search is exact on all texts exactly for the domains that do not. |
| DomainMention.MissedExample | internal/discovery/guess.go:387-408 | "co.co" is missed in "xco.co.co". |
| Glob.GlobMatch | internal/robots/robots.go:322-349 | Matches exactly if the string splits into pieces that fit the pattern; at most s * (p + 1) + p rounds for a pattern of length p and a string of length s. |
| Glob.FromIffSplits | internal/robots/robots.go:322-349 | The recursive reading of a pattern and the splitting agree. |
| Glob.StarSuffixIsPrefixMatch | internal/robots/robots.go:313-321 | Appending a star turns a whole match into a prefix match. |
| Glob.Matches | internal/robots/robots.go:313-321 | Whole match for a pattern ending in "$", prefix match otherwise (section 2.2.3 of RFC 9309). |
| PercentEncoding.NormalizePercent | internal/robots/robots.go:250-275 | The loop computes the canonical form. |
| PercentEncoding.IdempotentIffSettled | internal/robots/robots.go:250-275 | Normalizing twice is normalizing once exactly on the settled strings. |
| PercentEncoding.NotIdempotentWithStrayPercent | internal/robots/robots.go:250-275 | "%%34%31" becomes "%41" and then "A". |
| PercentEncoding.WellFormedNormal | internal/robots/robots.go:250-275 | If every "%" starts an escape, so it is afterwards, and normalizing is idempotent. |
| PercentEncoding.EqualIffEquivalent | internal/robots/robots.go:250-275 | Two such strings get the same form exactly when they are equivalent under sections 6.2.2.1 and 6.2.2.2 of RFC 3986. |
| RobotsLines.ScanLine | internal/robots/robots.go:223-248 | One call of the split function. |
| RobotsLines.LineIsFinal | internal/robots/robots.go:223-248 | A line found in partial data is found in any extension of it. |
| RobotsLines.ReadLines | internal/robots/robots.go:146-158 | The lines do not depend on how the body is chunked. |
| RobotsLines.LinesDelimit | internal/robots/robots.go:223-248 | The lines and their ends ("\n", "\r\n", lone "\r") give back the body. |
| RobotsLines.LinesUnique | internal/robots/robots.go:223-248 | No other cut of the body does. |
| RobotsGrammar.MeansIff | internal/robots/robots.go:160-209 | Every line has exactly one meaning under the grammar (an optional byte order mark on the first line, a key without a colon, a colon, a value, a comment behind "#"; a line without a colon is blank; "user-agent", "allow" and "disallow" in any case and with white space around), and that is how it is read. |
| RobotsRules.Parse | internal/robots/robots.go:142-221 | For the events the grammar gives the lines, the rules are those of the groups naming the crawler, merged, or of the "*" groups when no line names it; all is denied if a line is too long. |
| RobotsRules.InGroupIffGoverned | internal/robots/robots.go:175-209 | Reading line by line puts a rule in the group of the latest run of agent lines (section 2.2.1 of RFC 9309). |
| RobotsRules.GroupRulesAreRulesFor | internal/robots/robots.go:193-206 | The rules collected are those so governed, in order. |
| RobotsRules.Allows | internal/robots/robots.go:296-311 | Allowed exactly if no rule matches or a longest match allows (section 2.2.2 of RFC 9309). |
| RobotsRules.OrderDoesNotMatter | internal/robots/robots.go:296-311 | The answer depends only on which rules there are. |
| RobotsRules.Decide | internal/robots/robots.go:65-129 | Unknown for a failed fetch, 429 or 5xx; no rules for other statuses; everything denied for a body with NUL or an overlong line; else the rules of what the lines mean, on the canonical path. |
| RobotsRules.DenyAllDenies | internal/robots/robots.go:115-120 | The fail-closed rule denies every path. |
| RobotsRules.StarBodyDenies | internal/robots/robots.go:65-221 | A body whose only agent line means "*" and whose only path line denies a pattern denies exactly the paths the pattern matches, to every crawler. |
| RobotsRules.StarDisallow | internal/robots/robots.go:160-311 | So do the two lines "User-agent: *" and "Disallow: p", in any case and with white space around their parts. |
| RobotsRules.EquivalentPathsDecidedAlike | internal/robots/robots.go:87-96 | Equivalent spellings of a path get the same answer. |
| GeoScan.ScanLexicon | internal/filtering/geo/geo.go:212-243 | The first pass finds the leftmost longest phrases and marks their words. |
| GeoScan.LongestPhrase | internal/filtering/geo/geo.go:216-243 | The longest known phrase of at most five words at a place. |
| GeoScan.MunchIsMunch | internal/filtering/geo/geo.go:212-243 | They are disjoint, in order, each longest at its start, and none starts at a word left over. |
| GeoScan.MunchUnique | internal/filtering/geo/geo.go:212-243 | Nothing else is all that. |
| GeoScan.ExclusionEnds | internal/filtering/geo/geo.go:292-305 | Exactly the words behind an exclusion phrase. |
| GeoScan.ExclusionStart | internal/filtering/geo/geo.go:309-324 | The first word of an exclusion phrase, or -1. |
| GeoScan.AcceptsMonotone | internal/filtering/geo/geo.go:243-278 | A code accepted next to some covered words is accepted next to more. |
| GeoScan.AcceptsIff | internal/filtering/geo/geo.go:243-278 | The rule word by word: two capitals that are a country code and no ordinary word count behind an exclusion, behind "remote" or "hybrid", or next to a word that counts, with only "and" and "or" between; one that is also a state of the US only behind an exclusion, such a word, or a country. |
| GeoScan.OrderDoesNotMatter | internal/filtering/geo/geo.go:243-278 | Codes accepted in any order until none is left cover the same words. |
| GeoScan.Judge | internal/filtering/geo/geo.go:243-278 | The code branch decides the acceptance rule. |
| GeoScan.AddCodes | internal/filtering/geo/geo.go:243-278 | The sweeps end with the least set of words that holds the phrases and is closed under the rule. |
| GeoScan.Sweep | internal/filtering/geo/geo.go:243-278 | One sweep keeps to the rule, and if it adds nothing no code is left to add. |
| GeoScan.Scan | internal/filtering/geo/geo.go:212-281 | Disjoint mentions in order and in range: the phrases, and the codes of the least set; a word is covered exactly if it is in a phrase or its code is admitted, by the rule word by word, next to the words covered. |
| Classification.TzDistance | internal/filtering/description.go:394-409 | The loop folds the windows to the least distance. |
| Classification.NearestMeans | internal/filtering/description.go:394-409 | It is zero exactly inside a window, and too far exactly when more than four hours from every one. |
| Classification.LocationIncludes | internal/filtering/location.go:166-189 | Decides membership in everything (if worldwide or only exclusions) or the union of the places, without the union of the exclusions. |
| Classification.Split | internal/filtering/classify.go:256-313 | The loop reads each signal as restricting, permitting, asking for distant hours, or nothing. |
| Classification.AgainstIff | internal/filtering/classify.go:256-313 | When exactly a signal is read as ruling the target out, on which ground and how surely: an only-in or authorization signal if no place is around it, a not-in one if some is, a located time zone if every window is more than four hours away; hints are not heard against a location that leaves the target out. |
| Classification.InFavourIff | internal/filtering/classify.go:173-313 | When exactly as ruling it in, and how: a strong open statement, a strong only-in one with a place around the target, a located time zone with a window that holds the offset unless the location leaves the target out. |
| Classification.Decide | internal/filtering/classify.go:130-218 | The verdict is the decision the lemmas below are about, and the right one in the fields of the input: eligible and ineligible exactly as told below, with the ground, the confidence and the hours told below. |
| Classification.EligibleIff | internal/filtering/classify.go:130-498 | Eligible exactly if a place is in the target, or no signal rules it out and the market, a signal in its favour or the location permits (MayHire, in the fields of the input). |
| Classification.IneligibleIff | internal/filtering/classify.go:130-498 | Ineligible exactly if none is and no signal is in favour, and a signal rules the target out (not only hints against a location that covers it) or else the location does and nothing says otherwise; with the other this fixes the status of every input. |
| Classification.GroundOfVerdict | internal/filtering/classify.go:130-236 | The basis and confidence of every verdict: a local place, a contradiction, the first signal that rules out, the local market, the first in favour, the location. |
| Classification.HoursOfVerdict | internal/filtering/classify.go:155-181 | Distant hours are mentioned only with an eligible verdict that rests on more than a local place, and are those of the first signal that asks for some. |
| Classification.LocationGroundIff | internal/filtering/classify.go:354-498 | When exactly the location alone decides on each basis, and how surely. |
| Classification.LocationStatus | internal/filtering/classify.go:354-498 | When exactly it permits, and when it rules the target out. |
| Classification.VerdictsAreConsistent | internal/filtering/classify.go:13-31 | The basis determines the status, and a verdict either way is surer than an uncertain one. |
| Classification.OverriddenOnlyExplicitly | internal/filtering/classify.go:149-181 | A location leaving the target out is overridden only by a place in it or a strong statement, and never by a time zone. |
| EligibilityRun.Database.Pending | internal/eligibility/store.go:46-79 | The first jobs after an id that need a verdict, by id, none passed over. |
| EligibilityRun.Database.Save | internal/eligibility/store.go:81-128 | Replaces the verdicts of the rows whose jobs exist, and no other. |
| EligibilityRun.Classify | internal/eligibility/service.go:93-147 | One row a job in the batch's order; the counters are those of the jobs so far; a panic gives an uncertain verdict. |
| EligibilityRun.Run | internal/eligibility/service.go:65-91 | Verdicts are replaced for an initial part of the pending jobs, each once and by id, by what the rules say of the job now (uncertain, with the fallback, where they panic), under their version, target and the hash of the job; the others keep theirs. Without an error every open job has a current verdict, and the statistics count the verdicts of exactly the jobs taken; it ends without an error if nothing goes wrong in any round. |
| EligibilityRun.StatsAddUp | internal/eligibility/service.go:113-128 | Classified is the sum of the three statuses, and failures are among the uncertain. |
| EligibilityRun.NothingLeft | internal/eligibility/store.go:46-61 | After a run without an error nothing is pending for an unforced one. |
| Openings.DedupeOpenings | internal/ats/jobsearch/jobsearch.go:483-529 | Keeps length and order and every closed marker; an open job is kept as it is or becomes a closed one with its id and employer and nothing else. No two open jobs left have equal name and title keys at one place; each job closed has an open one of equal keys at its place, which comes first or names a city where it does not. Who survives is also said without the two passes. |
| Places.SamePlaceIff | internal/companymatch/place.go:49-66 | Two locations are one place exactly if they name the same city, or one names none and the other is in Ethiopia; in either order. |
| Openings.SurvivorsDiffer | internal/ats/jobsearch/jobsearch.go:483-490 | Two survivors of one employer and title are never the same place. |
| Openings.DroppedHasSurvivor | internal/ats/jobsearch/jobsearch.go:483-490 | Every dropped job is the same place as a survivor. |
| Openings.OrderDoesNotMatterIff | internal/ats/jobsearch/jobsearch.go:496-519 | What survives is the same for every order of the input exactly if, for each employer and title with a posting naming no city, some city is in Ethiopia in all its postings or no posting naming a city is. |
| Openings.AgreeingCitiesAreOrderFree | internal/ats/jobsearch/jobsearch.go:496-519 | Which is so when spellings of one city agree on being in Ethiopia. |
| Openings.HawassaOrderMatters | internal/ats/jobsearch/jobsearch.go:496-519 | And is not so for three postings of Hawassa. |
| Openings.HawassaKey | internal/companymatch/place.go:34-48 | Whose spellings name the same city. |
| Openings.NamedCity | internal/companymatch/place.go:34-48 | The part before the comma, squeezed and in lower case, names the city; Ethiopia names none, and the capital has three spellings. |
| JobListing.New | internal/ats/ethiojobs/ethiojobs.go:65-77 | The page limit is 100 unless asked for, and at most 200; the age is 20 days unless asked for. |
| JobListing.Collect | internal/ats/ethiojobs/ethiojobs.go:114-176 | Requests pages 1 to n and no more than the limit: every page before n lists jobs, none past the age limit, and page n does not, is the last one said, or is the limit. Nothing, part or all comes out by what page n brings; what comes out is what the first listing of each id gives: a closing marker past its deadline, else the job if it is readable and dated within the age limit. |
| JobListing.ReadPage | internal/ats/ethiojobs/ethiojobs.go:157-171 | One page adds its convertible jobs with new ids, and yields its oldest date. |
| JobListing.EarlyStopLosesNothing | internal/ats/ethiojobs/ethiojobs.go:114-176 | On a steady listing, newest first, the open jobs found are those of scanning every page, in the same order. |
| JobListing.ReadingOnExtends | internal/ats/ethiojobs/ethiojobs.go:114-176 | Whatever the dates, a shorter run finds the beginning of what a longer one finds. |
| JobListing.GatheredAreFresh | internal/ats/ethiojobs/ethiojobs.go:215-248 | No id comes twice, and every open job is readable, within the age limit and not past its deadline. |

## Left out

- Ingestion.Persist: a call that fails is taken not to have run; a statement that was committed while its answer was lost is not modelled. Nor are limits of the database itself, such as an id too long for the index on it. Which rows count as changed is told for one job (`Ingestion.StoreOne`) and only summed up for a listing; the program's clock is read once a run.
- BoardRuns.Run: the targets are processed one after the other; that the workers' interleaving makes no difference is `WorkerPool.EveryRun` with `BoardRuns.RunIsSequential`, for boards that list different jobs. A fetch or call cut off by a cancellation is a failed one.
- TableLaws.InterleavingIsSequential: does not cover moving jobs, which only collectors do, and those run one after the other.
- Collectors.RunCollector: the run log that limits how often a source is called, and a cancellation between employers, are not modelled.
- Collectors.RunCollectors: the collectors are given in order; looking them up by name is left out.
- JobStore.Store.UpsertFromATS: a value PostgreSQL refuses for other reasons than NUL or the CHECK constraints (invalid UTF-8, a date out of range, a value too long) is not modelled; the unique index on canonical_url is not either, ingestion leaves that column empty.
- TableLaws.ExecKeepsValid: the constraint that a job is not last seen before it was first seen depends on the database clock never going back and is not stated.
- TableLaws.ChangedIff: hashes are compared as the bytes hashed; SHA-256 is taken not to collide.
- EligibilityRun.Run: the jobs table does not change during a run; the explanation of a verdict is one opaque text.
- Classification.Decide: reasons, evidence texts, restrictions and place names are not part of the result; what the patterns find in the texts is given.
- GeoScan.Scan: the text of a mention is left out; splitting into words, folding, aliases and the tables are given.
- RobotsRules.Decide: the scanner's buffer limit is a flag that a line is too long; the per-host cache and URL parsing are left out.
- DomainMention.HasDomain: takes the text lower-cased; letters and digits are ASCII.
- BoardVerdict.ProbeSampled: reading and sampling the list is left out.
- BoardVerdict.Classify: how often the company is mentioned and whether a title is shared are given as numbers and flags.
- BoardGuess.EveryRun: a probe is one step with any answer; slugs are numbered, and names are already unique.
- SearchBudget.Metered: one goroutine's view of the budget between its own calls; the interleavings are `SearchBudget.EveryRun`.
- JobListing.Collect: job ids, titles and dates arrive decoded; a cancellation during the pause before a page counts as one of that page's request.
- Openings.DedupeOpenings: the name and title keys, the city of a location and whether it is in Ethiopia are arbitrary functions; the city key itself is `Places.CityKey`, for ASCII text.
- Text is ASCII throughout: Unicode case, white space, folding and normalization are left out.
- HTTP, JSON, HTML and XML handling, the per-board clients, the search client, configuration, logging, the command line, the public API (listing, filters, age limits) and the front end are left out.
- Discovery's own validation and writing of a candidate, the coverage report and the relevance rules are left out.

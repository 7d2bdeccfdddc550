# AnimeFeedFlux: a Dafny model of its core

AnimeFeedFlux generates items for news feeds with a language model, under a budget, and serves an admin
console over one authenticated WebSocket. This project models the parts where correctness is about whole
histories rather than single calls, and proves what they guarantee. `dafny verify dfyconfig.toml` checks all of it.

| Files | What they model |
|---|---|
| `Contract`, `Formats` | the publication contract an item must meet, and the rules for its presentation variants |
| `World`, `Pipeline`, `Runner` | the generation run: `Runner` holds the loops as the program has them, `Pipeline` the functions they compute, `World` the outside world |
| `History`, `Ledger`, `Published`, `Preview` | theorems over every run: accounting, conservation, provenance, vectors, retries, and the dry run |
| `Committed`, `Requests` | what every run stores about itself and its items, and what it asks the model |
| `Order`, `StoredTime`, `FeedClock` | timestamps as text, and a feed's timestamps over its whole life |
| `Decimal`, `Grounded` | the candidate block of a grounded prompt, and its excerpts |
| `Budget`, `Gate` | the spending check, and what the production gate makes of it when feeds overlap |
| `Tickets`, `Upgrade`, `Splice`, `Revalidate` | the WebSocket upgrade: login tickets, identity, the cookie splice, and the revocation race |
| `Base64`, `HashString`, `Password` | the stored password hash: printer, parser, checking, pepper and migration |

How the model is set up:

- The provider, the novelty gate, the formatter, the source fetcher, the store and the clock of a run are arbitrary
  functions of the whole history of that run, so they may answer the same question differently each time. A theorem
  about `RunAll` holds against all of them.
- Regular expressions, the HTML sanitizer, URL normalisation, lower-casing, UTF-8 validity, template rendering,
  calendar words, SHA-256, argon2id, HMAC, NFKC, rune counting of passwords and the breach list are parameters. Each
  theorem names the little it needs of them (an output length, no collision among the values at hand).
- Instants are nanoseconds since year 1, so that Go's zero time is 0. Strings are sequences of characters (runes).
  Money is `real`. The map from reject reason to count is a multiset.
- A day inside a content hash is printed in the location of the timestamp it is taken from: the clock's, or UTC for one read
  back from the store (`World.Zone`).
- Concurrency is interleaving: the gate, the ticket table and the revalidation loop are machines over their steps, and
  the theorems quantify over all sequences of steps. Steps the source makes under a lock are one
  step; the gate's unlocked read of the totals is the step from which a run counts as admitted.

## What the proofs show about the code

- **Links** are not byte-equal to a fetched URL, as README.md:72-73 has it. The code guarantees that their normal
  forms are equal, and stores the model's trimmed spelling (`Published.GroundedLinksAreCandidates`,
  `Published.OtherSpellingIsPublished`). Fetched URLs are outputs of
  Normalize (internal/sources/fetch.go:237-252); where it leaves its own output alone, a published link is byte-equal to a
  fetched one if and only if it is in normal form itself (`Published.GroundedLinkBytes`).
- **The answer-leak check** looks at the raw answer, and a comment in the source calls that conservative. It is so if and
  only if the sanitizer left the raw plain text inside the stored one (`Published.RawCheckProtectsIff`); the program's
  sanitizer drops the text of script and style elements, and then a card can give the stored answer away
  (`Published.RawCheckCanMissStoredAnswer`). `Published.TeasersKeepTheSecret` says of every committed item what its card and
  embed line can give away.
- **MAX(published_at)** is a maximum of text. Trailing zeros of a fraction are dropped, so it can miss the newest row
  inside one second. A feed's timestamps then increase if and only if no publishing run read its clock after the text
  maximum and not after the true newest row (`FeedClock.LifetimeByTextIff`, for pipeline runs
  `FeedClock.LifetimeOfRunsByTextIff`); a clock that moves forward never does (`FeedClock.LifetimeIncreasingByText`), one
  that steps back inside a second can (`FeedClock.BackwardClockBreaksOrder`). A newest row at Go's zero time is read as "no
  rows" (`FeedClock.AnchorPastNewest`).
- **Other writers** put rows into the same table: promoted samples, manual items and edits. Whatever rows they leave, a run
  that read the true newest lands past all of them (`FeedClock.RunLandsLast`), and the timestamps the pipeline gives
  increase as long as no edit brings the newest one down (`FeedClock.LifetimeOfStamps`).
- **`started_at >= midnight`**, compared as text, misses runs that started in the open first second of the day
  (`StoredTime.BoundaryAsText`, `StoredTime.RunCountExact`).
- **The spending caps** hold over any run if each call records no more than it projected (`Caps.CapsHold`). The
  production gate projects nothing, so there they are exceeded by up to one run for each run that may be in the air
  (`Gate.OvershootWithin`), which is one for each scheduled feed (`Gate.BoundedOvershoot`), and that much is reached
  (`Gate.OvershootIsReached`). The number of feeds is what counts, not the limit on concurrent runs, because the gate is
  asked before a run is queued and the queue holds every feed. Manual runs and previews never ask this gate but are in the
  totals it reads, so what they spend comes on top. The gate sets no warning threshold, so the monthly warning never fires
  there.
- **The monthly warning** comes exactly once if calls book their estimates (`Caps.WarnsExactlyOnce`); a call that books
  less than its estimate can bring it again (`Caps.EstimateGapWarnsAgain`), and `Caps.WarnsAgainIff` says when.
- **A peppered hash** can be checked only if the key length is 32, the length of the MAC that is stored
  (`Password.PepperedVerifies`).
- **The candidate block** is said to be the same for the same candidates (internal/generate/grounded.go:36-43). Its list
  is independent of the order of the fetch if and only if candidates with one instant and URL print the same or fall
  behind the cap (`CandidateBlock.OrderHiddenIff`); otherwise the sort, being stable, shows that order in the text. Two
  titles do it (`CandidateBlock.TiesShowFetchOrder`), and so does one article dated in two offsets: instants tie, but the
  date is printed in the offset it came with (`CandidateBlock.OffsetsShowFetchOrder`).

## Model

| member | source | states |
|---|---|---|
| `Contract.CheckLink` | internal/generate/contract.go:309-329 | a link passes exactly when it is not empty, normalises, and has the normal form of some candidate; otherwise which of the three failed |
| `Contract.CheckLinks` | internal/generate/contract.go:214-220 | true exactly when every href in the markup is absolute |
| `Contract.CheckEncoding` | internal/generate/contract.go:164-175 | one rejection per field that is not valid UTF-8 or holds a forbidden control character, in field order |
| `Contract.CheckText` | internal/generate/contract.go:164-206 | the encoding, title and summary rejections in order; none if and only if those rules all hold |
| `Contract.CheckMarkup` | internal/generate/contract.go:209-257 | adds to the rejections before it, and adds none if and only if the body, leak and link rules all hold |
| `Contract.CheckTags` | internal/generate/contract.go:260-268 | at most one rejection for too many tags and one for a tag that is not lower case |
| `Contract.Validate` | internal/generate/contract.go:140-299 | an accepted draft meets the whole contract and the item holds, field by field, the trimmed title, summary, link and source name, the sanitized body and answer, and the tags; a rejected one is reported with exactly the rules it breaks |
| `Contract.AcceptedIffPublishable` | internal/generate/contract.go:140-299 | a draft is accepted if and only if it meets the contract stated as one conjunction of rules |
| `Contract.TextFaultsExact` | internal/generate/contract.go:164-206 | no text rejection if and only if the text rules all hold |
| `Contract.ViolationsExact` | internal/generate/contract.go:140-299 | over eighteen places in a fixed order: each broken rule is reported once, at its place, and nothing else is |
| `Contract.AllowedCharacters` | internal/generate/contract.go:378-387 | the characters an item may hold are tab, line feed, carriage return and three ranges |
| `Basics.TrimSpaceMeans` | internal/generate/contract.go:140-299 | trimming takes white space off both ends and nothing else |
| `FormatRules.CheckControls` | internal/generate/formats.go:37-47 | true exactly when the text is valid UTF-8 without forbidden control characters |
| `FormatRules.CleanText` | internal/generate/formats.go:136-198 | a text variant is kept, trimmed, if and only if it is plain, clean, short enough, not the summary, and free of the stored answer; otherwise it is dropped |
| `FormatRules.CleanHTML` | internal/generate/formats.go:136-198 | an HTML variant is kept, trimmed and sanitized, if and only if its links are absolute and the result is clean and not the body; otherwise it is dropped |
| `FormatRules.ValidateFormats` | internal/generate/formats.go:136-198 | surface by surface, what is stored is the formatter's own variant for that surface if it meets that surface's rules, and nothing otherwise |
| `FormatRules.ByteLenAdds` | internal/generate/formats.go:136-198 | the length of a variant is in bytes, which add up over its characters |
| `Runner.AcquireContext` | internal/generate/runner.go:619-680 | the articles in the prompt and the URLs of the link check are the same capped fetch, one for one |
| `Runner.ValidateBatch` | internal/generate/runner.go:774-802 | the loop keeps exactly the accepted drafts, in order, and counts every reason of the others |
| `Runner.CallModel` | internal/generate/runner.go:730-802 | one model call with its exact estimates and verdicts, on every exit |
| `Runner.RunAttempt` | internal/generate/runner.go:730-865 | two model calls if and only if the first neither failed nor left anything valid and was not a quiet watch, otherwise one; it succeeds if and only if something is valid or the watch is quiet |
| `Runner.FilterNovel` | internal/generate/runner.go:898-960 | the novel items in order; with a vector gate one vector per kept item; a broken check rejects |
| `Runner.StampItems` | internal/generate/runner.go:986-1009 | item i is stamped i seconds after the anchor: the clock if it is past the newest row or there is none, else one second past that row |
| `Runner.FormatItems` | internal/generate/formats.go:89-121 | one call per item; a failed call leaves the item as it was; tokens are summed over all calls |
| `Runner.ZipEmbeddings` | internal/generate/runner.go:969-978 | key i with vector i, or nothing when the numbers differ |
| `Runner.AttemptLoop` | internal/generate/runner.go:446-487 | the retry loop is the iterated attempt, stopped at the first that settles the run |
| `Runner.Publish` | internal/generate/runner.go:489-530 | cap, stamp, format and commit, with items and vectors cut alike |
| `Runner.Run` | internal/generate/runner.go:331-530 | the whole run computes `RunAll`; an aggregate feed is refused before anything happens |
| `Runner.Sample` | internal/generate/runner.go:546-610 | the whole dry run computes `SampleAll` |
| `Ledger.RunLedger` | internal/generate/runner.go:348-530 | against any outside world: one commit, and it is the last act; tokens, cost and reasons are the exact sums over every call and check in the history; completed if and only if items were published; other rows carry no items or embeddings |
| `Ledger.Conservation` | internal/generate/runner.go:454-510 | every draft the model returned is committed, cut by the cap, rejected by validation or rejected by novelty, and the reason counts cover the rejected ones |
| `Ledger.ReasonsCoverRejects` | internal/generate/runner.go:774-802 | over any history, rejected candidates are at most the counted reasons |
| `Ledger.CallsBounded` | internal/generate/runner.go:431-487 | at most two model calls per allowed attempt, and at most one format call per published item |
| `Published.SkippedRunUsedItsRetries` | internal/generate/runner.go:431-487 | no generative run gives up early: if it is skipped, and not because a watch was told there is nothing, it made a model call for the first attempt and one for each retry of its recipe |
| `Ledger.ValidRecipeCallBudget` | internal/feedspec/validate.go:115-133 | a recipe in the accepted ranges makes at most 22 model calls and 50 format calls a run |
| `Published.EveryItemLawful` | internal/generate/runner.go:331-530 | every committed item comes from a draft the model returned in this run: title, summary, link and source name trimmed, body and answer sanitized, tags as given; that draft met every rule for the candidates shown; the variants meet theirs |
| `Published.GroundedLinksAreCandidates` | internal/generate/runner.go:649-673 | every link a grounded run commits has the normal form of a candidate in the capped set it showed |
| `Published.OtherSpellingIsPublished` | internal/generate/contract.go:309-329 | a draft whose link is accepted and stored in a spelling that is no candidate's |
| `Published.ByteEqualIffNormal` | internal/generate/contract.go:309-329 | with candidates in normal form, an accepted link is byte-equal to one if and only if it is in normal form |
| `Published.GroundedLinkBytes` | internal/generate/runner.go:649-673 | the same of every link a grounded run commits |
| `Published.RawCheckProtectsIff` | internal/generate/contract.go:242-247 | the check on the raw answer protects the stored one, for every summary, if and only if the raw plain text is still in the stored one |
| `Published.TeasersKeepTheSecret` | internal/model/model.go:98-132 | the card and the embed line of a committed item give the stored answer away if and only if the variant is missing and the summary does, which happens only when the draft's own answer lost text in storage |
| `Published.RawCheckCanMissStoredAnswer` | internal/generate/contract.go:242-247 | a draft that passes while its summary, as card and as embed line, contains the stored answer |
| `Published.VectorsStayPaired` | internal/generate/runner.go:898-978 | a completed run with a vector gate commits one embedding per item: item i's key with the vector returned for item i's own text, through retries, cap, stamping and formatting |
| `Published.RunStamps` | internal/generate/runner.go:512-517 | a completed run's items are one second apart from the anchor of the newest row and the clock as its own history shows them read |
| `Committed.RunDressesItems` | internal/generate/runner.go:986-1009 | every item a completed run commits has, in order, a key minted in this run for its own timestamp, the feed's id, the hash of its own title and day, and the variants the formatter returned for that very item |
| `Committed.RunRow` | internal/generate/runner.go:348-530 | every run's row starts at the first and ends at the last clock reading, carries the stable token of its failure, and if skipped says whether nothing was noteworthy or novelty was exhausted; what the caller gets back agrees with it and with the commit |
| `Committed.QuietDayAsksNothing` | internal/generate/runner.go:419-432 | a grounded watch that was shown no candidates makes no model call and publishes nothing |
| `Requests.EveryRequestExplained` | internal/generate/runner.go:619-865 | every request of a run carries the recipe's settings, the watch note exactly in watch mode, and a prompt rendered from the run's first clock reading and the titles or capped candidates it read; it ends in the repair note, for exactly the reasons of the answer it follows, if and only if it directly follows an answer |
| `World.TokensMeans` | internal/generate/runner.go:1054-1060 | tokens are the number of groups of four characters, the last possibly short |
| `World.CostMeans` | internal/generate/runner.go:1064-1067 | a million times the cost is input tokens by the input price plus output tokens by the output price |
| `Published.WatchNeverBadgers` | internal/generate/runner.go:824-864 | in watch mode no model call of the run follows an empty answer |
| `Preview.SamplePreviewsRun` | internal/generate/runner.go:546-610 | for every world that ignores request identifiers, but may remember what it has seen: a non-empty sample is what the run publishes, with the same reasons, tokens and cost; an error of the sample is the failure of the run |
| `Preview.PreviewAnyMemory` | internal/generate/runner.go:546-610 | the same with or without memory in the collaborators |
| `Preview.EmptySampleSkips` | internal/generate/runner.go:446-487 | against a world without memory an empty sample means a skipped run that spends a whole number of samples, at most one per allowed attempt |
| `Preview.SampleDecidesStatus` | internal/generate/runner.go:546-610 | against a world without memory the sample's outcome decides the run's status, all three ways |
| `Preview.SampleNeverWrites` | internal/generate/runner.go:546-610 | a sample only reads and asks: it never commits, mints a key or reads the newest item |
| `StoredTime.TextOrder` | cmd/animefeedflux/wire.go:392-392 | text order is time order if and only if the seconds differ or the earlier fraction is not a proper prefix of the later |
| `StoredTime.EqualWidthOrder` | cmd/animefeedflux/server.go:110-116 | with fractions of equal width text order is time order |
| `StoredTime.TextReadsBack` | cmd/animefeedflux/server.go:110-116 | an independent reading of the stored text, by position, gives back the instant it was written for |
| `StoredTime.DaysBeforeClosed` | cmd/animefeedflux/server.go:110-116 | the years in it are Gregorian: days before a year in closed form |
| `StoredTime.MonthTable` | cmd/animefeedflux/server.go:110-116 | and so are the months, by the almanac's table |
| `StoredTime.BoundaryAsText` | cmd/animefeedflux/wire.go:394-408 | text comparison with a whole second keeps exactly that second's start and everything from one second later |
| `StoredTime.RunCountExact` | cmd/animefeedflux/wire.go:399-408 | the count since midnight never exceeds the true one, and equals it if and only if no run started inside the first second |
| `FeedClock.DistinctSeconds` | internal/generate/runner.go:986-1009 | items of one run fall in consecutive whole seconds |
| `FeedClock.AnchorPastNewest` | internal/generate/runner.go:986-1009 | the anchor is past the newest row if and only if that row is not at the zero time or the clock is past it |
| `FeedClock.LifetimeIncreasing` | internal/generate/runner.go:986-1009 | over any history of runs and soft deletes, with clock readings in any order, all timestamps of a feed are distinct and increase in commit order |
| `FeedClock.RunIsPublishStep` | internal/generate/runner.go:512-517 | what a run stores is such a step from its own two readings, whatever rows were there |
| `FeedClock.LifetimeOfRuns` | internal/generate/runner.go:512-517 | over any history of pipeline runs against arbitrary worlds and soft deletes, stored timestamps increase in commit order, if every run read the true newest row |
| `FeedClock.RunLandsLast` | internal/generate/runner.go:512-517 | over rows of any origin and order, a run that read the true newest stamps all its items past every row |
| `FeedClock.RunLandsLastByTextIff` | cmd/animefeedflux/wire.go:477-488 | one that read the text maximum does so if and only if its clock was not between that and the true newest row |
| `FeedClock.LifetimeOfStamps` | internal/store/samples.go:381-397 | over any history of runs, rows placed by others, deletes, and edits that do not bring the newest timestamp down, the timestamps the pipeline gives increase in commit order |
| `FeedClock.LifetimeOfRunsByTextIff` | cmd/animefeedflux/wire.go:477-488 | when every run read the text maximum, the rows are in order if and only if no reading fell in such a gap |
| `FeedClock.LifetimeOfRunsByText` | cmd/animefeedflux/wire.go:477-488 | so they are when the clocks move forward |
| `FeedClock.TextAnchorExact` | cmd/animefeedflux/wire.go:477-488 | with the newest row found by text among rows in any order, the first stamp is past every row if and only if the clock is not between the text maximum and the true newest row |
| `FeedClock.LifetimeByTextIff` | cmd/animefeedflux/wire.go:477-488 | with the newest row found by text and clocks in any order, the feed's timestamps increase if and only if no publishing run's reading fell between the text maximum and the true newest row |
| `FeedClock.LifetimeIncreasingByText` | cmd/animefeedflux/wire.go:477-488 | no reading of a forward clock does, so there the order is kept |
| `FeedClock.BackwardClockBreaksOrder` | cmd/animefeedflux/wire.go:477-488 | in every second, two runs in order and a third, read between them, after which the order is broken |
| `CandidateBlock.StableSortSorts` | internal/generate/grounded.go:48-60 | the sort gives a sorted permutation, in which candidates of one key keep the order they came in |
| `CandidateBlock.TopIsNewest` | internal/generate/grounded.go:48-81 | the block lists the newest candidates up to the cap, newest first and by URL within an instant, and nothing left out is newer than anything listed |
| `CandidateBlock.BuildCandidateBlock` | internal/generate/grounded.go:48-81 | the loop renders the block of the sorted and cut candidates, each date as printed in its own offset |
| `CandidateBlock.OneCandidateText` | internal/generate/grounded.go:66-80 | the text of a candidate, spelled out |
| `CandidateBlock.KeysDecide` | internal/generate/grounded.go:48-60 | a sorted list is decided by the order inside each key |
| `CandidateBlock.SameListIff` | internal/generate/grounded.go:48-60 | two fetches list the same entries if and only if, key by key, they bring the same entries in the same order |
| `CandidateBlock.OrderHiddenIff` | internal/generate/grounded.go:36-64 | under any cap or none, every permutation of a fetch lists the same entries if and only if candidates of one key print equally or fall behind the cap |
| `CandidateBlock.BlockIsCanonical` | internal/generate/grounded.go:48-81 | under that condition any permutation of the candidates renders the same text |
| `CandidateBlock.TiesShowFetchOrder` | internal/generate/grounded.go:48-81 | two candidates with one key and different titles whose two orders render different text |
| `CandidateBlock.OffsetsShowFetchOrder` | internal/generate/grounded.go:55-75 | one article dated in two offsets of one instant, whose two orders render different text |
| `CandidateBlock.FirstOfKey` | internal/generate/grounded.go:48-64 | the first candidate of a key stands right after those that come before the key |
| `Excerpt.ExcerptOf` | internal/generate/grounded.go:182-216 | a prefix of the words left when markup is stripped, the most that fit or the first alone, and an ellipsis exactly when words were dropped; both scans stay in bounds; `WordsSplit` and `WordsOfJoin` fix what the words are |
| `Excerpt.WordsSplit` | internal/generate/grounded.go:183-183 | cutting a text at any white space cuts its list of words there |
| `Excerpt.WordsOfJoin` | internal/generate/grounded.go:183-183 | any list of words, joined by spaces, is found again |
| `Excerpt.KeepsUnique` | internal/generate/grounded.go:182-216 | that description fits exactly one number of words |
| `Caps.CapsHold` | internal/budget/budget.go:168-196 | over any run of calls that record no more than they project, with any number of feeds and days in any order, no cap that is set is ever exceeded |
| `Caps.AllowedIffCapsStillHold` | internal/budget/budget.go:168-183 | with a forward clock, a call that books its projection is allowed if and only if every cap still holds with it booked |
| `Budget.RefusalNamesFirst` | internal/budget/budget.go:168-183 | a call is refused if and only if it would go over a cap that is set, and the refusal names the first of them in the order feed runs, feed tokens, global tokens, global dollars, monthly dollars |
| `Caps.WarnsExactlyOnce` | internal/budget/budget.go:185-196 | if calls book their estimates, a month warns once if its spend reaches the threshold and never otherwise |
| `Caps.CallCrosses` | internal/budget/budget.go:185-196 | a call warns exactly when it carries its own month over the threshold |
| `Caps.WarnsAgainIff` | internal/budget/budget.go:83-98 | after a warning, an allowed call of the month warns again if and only if the booked total is still below the threshold and its estimate reaches it |
| `Caps.EstimateGapWarnsAgain` | internal/budget/budget.go:83-98 | two calls that both warn, because the first booked less than its estimate |
| `SpendLog.WindowAtMostSince` | internal/store/runs.go:575-589 | what was spent in one window is at most what a sum since its start finds |
| `SpendLog.TotalCounts` | internal/store/runs.go:575-589 | what one more entry adds to each of the totals the checks read |
| `Gate.AllowedExactly` | cmd/animefeedflux/wire.go:638-767 | a feed is admitted if and only if every lookup succeeds, both switches are on, its own budgets allow it and recorded spend is not above any ceiling that is set |
| `Gate.OvershootWithin` | cmd/animefeedflux/wire.go:723-767 | over every interleaving of admissions, starts, settlements and midnights with spending outside the gate: recorded spend plus one run's cost for each run in flight is at most the ceiling plus one run's cost for each that may be in the air plus what was booked outside, in every day and month, for all three ceilings |
| `Gate.BoundedOvershoot` | internal/store/samples.go:150-160 | the same with one run for each scheduled feed, whatever manual runs and previews add to the totals |
| `Gate.RoomForJobs` | internal/schedule/runner.go:278-287 | at no point are more runs in the air than there are scheduled feeds |
| `Gate.StepOrderly` | internal/schedule/runner.go:391-447 | single flight: a feed is queued or running at most once, and only scheduled feeds are |
| `Gate.OvershootIsReached` | cmd/animefeedflux/wire.go:762-767 | for every set of feeds, every ceiling and every cost of a run, an interleaving that ends exactly at that bound |
| `Tickets.TicketStore.Issue` | internal/bridge/ticket.go:96-112 | an issued ticket lives twenty seconds; an empty session token or a failed random source changes nothing |
| `Tickets.TicketStore.Redeem` | internal/bridge/ticket.go:134-154 | the answer is the one the table's history determines, and the ticket is used up |
| `Tickets.RedeemExactly` | internal/bridge/ticket.go:114-154 | with fresh tickets, presenting one yields a token if and only if it was issued for that token less than twenty seconds ago and was never presented |
| `Tickets.RedemptionsUseIssues` | internal/bridge/ticket.go:114-154 | every redemption uses up an issue, whatever values were drawn |
| `Tickets.RedeemedAtMostOnce` | internal/bridge/ticket.go:114-154 | a fresh ticket is redeemed at most once over any history |
| `Tickets.AnswerNamed` | internal/bridge/ticket.go:96-154 | the token a ticket yields is never empty |
| `Upgrade.Server.ServeHTTP` | internal/bridge/server.go:471-605 | the identity of an upgrade is the function `Serve` of the request and the ticket history, and a presented ticket is used up |
| `Upgrade.IdentityIsValidated` | internal/bridge/server.go:471-605 | a socket carries a token if and only if the validator accepted that very token at that instant; it is then that session, otherwise nobody; it is watched if and only if it carries one |
| `Upgrade.CookieOnlyFromTicket` | internal/bridge/server.go:493-516 | a cookie is set if and only if a ticket was redeemed and validated, for that token; a request is refused if and only if it brought a ticket and did not get that far |
| `Upgrade.OneEntryPerTicket` | internal/bridge/server.go:493-516 | of any number of upgrades presenting one ticket, at most one authenticates through it |
| `Splice.HeaderInjectingConn.Write` | internal/bridge/hijack.go:127-176 | the wire is the concatenation of the caller's writes with the splice in the first; success reports the caller's length, failure no more than it |
| `Splice.SplicedLines` | internal/bridge/hijack.go:107-176 | a 101 response made of lines becomes the same response with the extra lines after its own and its body untouched |
| `Splice.UpgradedWire` | internal/bridge/hijack.go:107-176 | over any sequence of writes that begins with a 101 response the extra lines appear once and every later byte is as written |
| `Splice.PlainWire` | internal/bridge/hijack.go:107-142 | over any sequence of writes that does not begin with a complete 101 head, nothing is changed |
| `Splice.UpgradeMeans` | internal/bridge/hijack.go:107-142 | a write counts as the upgrade if and only if it begins with the 101 status and holds the end of a head |
| `Revalidate.Invariant` | internal/bridge/hijack.go:64-81 | the inductive invariant of capture and loop, in every interleaving |
| `Revalidate.ReadyMeansRecorded` | internal/bridge/hijack.go:64-81 | ready means a connection is recorded, and ready is closed at most once |
| `Revalidate.NoLostRevocation` | internal/bridge/server.go:689-701 | the loop closes a socket only after a rejecting tick; once a rejection's loop has ended the socket is closed or the handler has returned; with one connection it is that one |
| `Revalidate.TakenIsAnnounced` | internal/bridge/hijack.go:64-81 | a connection that was taken over is announced before the handler serves on it or returns |
| `Revalidate.LoopAdvances` | internal/bridge/server.go:689-701 | every step of the loop but a tick brings its end nearer, and the handler never moves it |
| `Revalidate.LoopEnds` | internal/bridge/hijack.go:197-204 | however the handler's steps fall between, the loop takes at most four steps of its own until the next tick, and once stop is closed it comes to rest only by exiting |
| `Revalidate.FourSteps` | internal/bridge/server.go:689-701 | a rejection that finds the connection announced takes all four to close it |
| `Revalidate.RejectedLoopMoves` | internal/bridge/hijack.go:197-204 | after a rejection the loop waits if and only if nothing is announced and the handler still runs |
| `Base64.DecodeOfEncode` | internal/auth/password.go:287-294 | decoding what was encoded gives the same bytes back |
| `Base64.EncodeLetters` | internal/auth/password.go:78-82 | an encoding holds no character that separates fields |
| `Base64.QuantumBits` | internal/auth/password.go:78-82 | three bytes and their four letters are the same twenty-four bits |
| `Base64.Alphabet` | internal/auth/password.go:78-82 | the letters are those of RFC 4648, table 1 |
| `Base64.LineBreaksSkipped` | internal/auth/password.go:287-294 | line breaks anywhere in the text do not change what it decodes to |
| `Base64.UnpackLength` | internal/auth/password.go:287-294 | letters decode if and only if their number does not leave one over, and then to three bytes for every four |
| `Decimal.ParseOfPrint` | internal/auth/password.go:247-250 | a printed number parses to itself |
| `Decimal.ParseOfSigned` | internal/auth/password.go:247-250 | a sign is accepted in front of a number |
| `Decimal.ParseTooBig` | internal/auth/password.go:247-250 | a number over 64 bits is refused |
| `HashString.SplitOfJoin` | internal/auth/password.go:223-226 | splitting what was joined gives the parts back, if none holds the separator |
| `HashString.ReadFields` | internal/auth/password.go:241-261 | the loop over the three cost fields computes their numbers, or fails if any field is malformed |
| `HashString.Decode` | internal/auth/password.go:221-307 | the parser, on every string; what it accepts is under the ceiling and has a salt and a key |
| `HashString.ParsedRender` | internal/auth/password.go:221-307 | a printed hash parses to the same costs, salt and key if and only if the costs are positive and under the ceiling and neither salt nor key is empty; otherwise which check refuses it |
| `HashString.ParsedWithinCeiling` | internal/auth/password.go:262-297 | whatever string is stored, no derivation is asked for beyond four times the default costs |
| `HashString.RenderReads` | internal/auth/password.go:78-82 | the stored form, spelled out |
| `HashString.ParsedMeans` | internal/auth/password.go:221-307 | whatever string is accepted, it is six parts that state the version, costs, salt and key it was read as |
| `Password.HashVerifies` | internal/auth/password.go:62-137 | a hash is readable if and only if its costs are under the ceiling and its lengths positive; it then accepts every password of the same NFKC form and asks for a rehash if and only if it has under 3 passes, 65536 KiB, 1 lane or 32 key bytes |
| `Password.AcceptsExactly` | internal/auth/password.go:94-137 | unless keys collide, it accepts no other password |
| `Password.VerifyMeans` | internal/auth/password.go:94-216 | for any stored string and password: which error; a match if and only if the NFKC or the raw form derives the stored key; a rehash if and only if a match is short of those numbers or was found in the raw form only |
| `Password.PolicyExact` | internal/auth/password.go:339-356 | a password is hashed if and only if its NFKC form has 15 to 128 characters and is not on the breach list; otherwise which refusal |
| `Password.NoPepperNoChange` | internal/auth/password.go:139-216 | without a pepper the peppered pair is the plain pair, string for string |
| `Password.PepperedVerifies` | internal/auth/password.go:150-216 | a readable peppered hash accepts its own password if and only if there is no pepper or the key length is 32, and then asks for a rehash by the same numbers |
| `Password.LegacyMigrates` | internal/auth/password.go:116-136 | a hash of the raw password still verifies, asks for a rehash by the same numbers or if the NFKC form derives another key, and one rehash under the defaults settles it |

## Left out

- `CandidateBlock.OrderHiddenIff`: about the listed entries; that two different lists print different text is shown for the two witnesses, not for every text a title may hold.
- `FeedClock.LifetimeOfStamps`: does not cover an edit that brings the newest timestamp down; the next run then starts from the lower one.
- `Gate.BoundedOvershoot`: takes the day and month totals as exact. The store's text comparison misses the first second of a window, see `StoredTime.BoundaryAsText`; ceilings are constant during a run of the machine.
- `Revalidate.LoopEnds`: a select may prefer further ticks over stop; how often it does is the Go scheduler's.
- `Tickets.TicketStore.Issue`: the random value is a parameter; the hash is taken as injective.
- `Password.HashVerifies`: argon2id is a total function, so its refusal of zero passes or zero lanes is not modelled.
- `HashString.Decode`: error messages are named cases; malformed cost fields share one case.
- `Splice.HeaderInjectingConn.Write`: the rendered header lines are given; their canonical order is not modelled.
- `Runner.Run`: metrics, tracing and logging are not modelled, and neither is cancellation.
- The store's SQL, single-flight run locking, leases and heartbeats are not part of this model.
- DegradeOnSourceFailure and the ranking prompt of grounded feeds: the one joins lists and the other is fixed text.
- Provider adapters, retry classification, the scheduler's cron and jitter, and auto-disable after failures.
- Feed rendering, caching, i18n, the RPC services, the WASM console and the command line.
- TOTP, recovery codes, session storage, login backoff and the breach list.
- Floating-point rounding of money.

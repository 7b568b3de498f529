# CognitoSync knowledge-verification agent: a Dafny model

CognitoSync is a FastAPI service that checks the content behind URLs and
records the outcome in an auditable store. The store's service
(`main_cognito_sync.py`) asks a crew-based agent (`crew_definition.py`) to
verify a URL; as written, that agent returns a summary from its crew together
with fixed figures (reliability 85.0, bias level 3, "Verified") and the
SHA-256 of the URL. A second, standalone verification agent
(`verification_agent.py`, which `main.py` imports but never calls) does the real
work: it fetches a URL's text, summarises it, counts bias markers, scores
reliability by length, hashes the text and derives a verdict. The store
keeps five in-memory ledgers, which its HTTP handlers read and update:

- a verification cache, keyed by URL;
- a knowledge base, keyed by knowledge hash;
- a reputation table, keyed by entity;
- an append-only transaction history, holding audit entries and reward records;
- a contributor ledger, holding each contributor's total rewards and contribution count.

A second front end sells crew jobs against a payment request and lets
clients poll their status.

The model covers three parts:

- **The store and its handlers** (`main_cognito_sync.py`). `CognitoStore.Store`
  is a class holding the five ledgers; the mutating handlers are methods on it.
  Python dicts are `OrderedMaps.OrderedMap` values. Each one pairs a map with
  its keys in first-insertion order, because that order shows in
  cross-references, query results and the tie-breaks of sorted leaderboards.
  The read-only handlers (statistics, leaderboards, audit pages, dApp query)
  are pure functions over the ledger values, in `KnowledgeBase`, `Reputation`,
  `AuditTrail` and `Incentives`. The invariant `Store.Valid` states three things:
  - every knowledge entry sits under its own hash;
  - every cached result sits under its own URL;
  - the contributor ledger is the fold (`Incentives.Replay`) of the reward
    records in the history.

  Every handler preserves it, so `Incentives.ReplayTotals` applies after any
  sequence of calls: each contributor's total is the sum of the amounts
  rewarded to them.
- **The verification heuristics** of the standalone agent
  (`verification_agent.py`), as pure functions in `VerificationAgent`. The fetch, the language-model summary and SHA-256 are
  parameters.
- **The job lifecycle** (`main.py`): `JobService.JobStore` holds the jobs and
  their payment handles, and `JobService.Payment` is the handle whose
  identifier set is updated in place.

Supporting modules:

- `Text`: ASCII lower-casing and Python's substring test.
- `Slicing`: Python slices, including negative and out-of-range bounds.
- `Ranking`: `sorted(..., reverse=True)`, a stable descending sort.

The store's handlers call the crew agent, which lives outside the model. Its
outcome is an input to `Store.VerifyKnowledge` and `Store.IngestData`: a
report, a `ValueError`, or another exception. The figures and verdict it
reports are stored as given (main_cognito_sync.py:305-315).

## Model

| member | source | states |
|---|---|---|
| CognitoStore.Store.constructor | repo/crewai-masumi-quickstart-template/main_cognito_sync.py:93-97 | the five ledgers start empty and the store invariant holds |
| CognitoStore.Store.VerifyKnowledge | repo/crewai-masumi-quickstart-template/main_cognito_sync.py:282-335 | On a cache hit it returns the cached result and changes nothing. On a miss where the agent fails, it returns 400 (ValueError) or 500 ("Verification failed: …") and changes nothing. On a miss where the agent succeeds, it builds the result from the agent's report with these fields: `CrossReferences` of the knowledge base when asked (empty otherwise), and the stored reputation of the URL (50.0 if none). It caches the result under the URL and appends exactly one `verification_completed` audit entry carrying the agent's hash. Knowledge, reputation and contributors are untouched, and the invariant is kept. |
| CognitoStore.FailureResponse | repo/crewai-masumi-quickstart-template/main_cognito_sync.py:330-335 | a `ValueError` becomes status 400, any other exception 500 |
| CognitoStore.Store.AddToKnowledgeBase | repo/crewai-masumi-quickstart-template/main_cognito_sync.py:349-365 | the whole entry replaces whatever was stored under its hash (other keys and the key order unchanged, a new hash goes last); exactly one `knowledge_added` audit entry with the knowledge hash is appended; the other ledgers are untouched |
| CognitoStore.Store.QueryKnowledgeBase | repo/crewai-masumi-quickstart-template/main_cognito_sync.py:388-393 | the results are a prefix of all matching entries in knowledge-base order, of length min(#matches, max(limit, 1)): the `>= limit` test follows the append, so a limit ≤ 0 still yields one match |
| CognitoStore.Store.UpdateReputation | repo/crewai-masumi-quickstart-template/main_cognito_sync.py:442-449 | one score is overwritten (a new entity goes last) and exactly one `reputation_updated` audit entry is appended, carrying the SHA-256 of the entity id followed by the score's text |
| CognitoStore.Store.DistributeReward | repo/crewai-masumi-quickstart-template/main_cognito_sync.py:489-499 | the reward record is appended to the history and the contributor ledger becomes `Credit` of the old one, so the replay invariant is preserved |
| CognitoStore.Store.IngestData | repo/crewai-masumi-quickstart-template/main_cognito_sync.py:217-259 | the response reports all sources as processed, with the counts and errors of `Ingest`; the history grows by one `data_ingested` entry per successful http source, carrying its content hash, in source order; nothing else changes |
| CognitoStore.IngestStep | repo/crewai-masumi-quickstart-template/main_cognito_sync.py:223-251 | definition: what one source adds to the tally (http through the agent, ipfs and arweave untouched, any other type nothing); its accounting is stated by `IngestAccounting` |
| CognitoStore.Ingest | repo/crewai-masumi-quickstart-template/main_cognito_sync.py:223-251 | definition: the tally of the loop over all sources; `IngestAccounting` and `Store.IngestData` state what it means |
| CognitoStore.HttpSuccesses | repo/crewai-masumi-quickstart-template/main_cognito_sync.py:225-236 | definition: the content hashes of the http sources whose agent call returned, in source order |
| CognitoStore.IngestAccounting | repo/crewai-masumi-quickstart-template/main_cognito_sync.py:223-251 | every http, ipfs or arweave source counts once as a success or a failure, other source types count as neither, each failure leaves one error message, and the audited hashes are exactly `HttpSuccesses`: those of the http sources whose agent call returned, in source order |
| CognitoStore.IngestAudits | repo/crewai-masumi-quickstart-template/main_cognito_sync.py:231-236 | definition: one `data_ingested` audit entry per ingested content hash, in order; `Store.IngestData` ties the history to it and `IngestAccounting` says which hashes are ingested |
| KnowledgeBase.FirstMatches | repo/crewai-masumi-quickstart-template/main_cognito_sync.py:388-393 | the scan that stops once the results reach the limit returns a prefix of all matches in order, of length min(#matches, max(limit, 1)) |
| KnowledgeBase.ScanCrossReferences | repo/crewai-masumi-quickstart-template/main_cognito_sync.py:294-299 | the loop over the knowledge base collects exactly `CrossReferences`: the hashes scoring above 70, in knowledge-base order |
| KnowledgeBase.Matches | repo/crewai-masumi-quickstart-template/main_cognito_sync.py:389-391 | definition: the entries whose lower-cased topic contains the lower-cased query, in order; stated by `MatchesExactly`, `MatchesOfPrefix` and `DappQueryCountsStoredMatches` |
| KnowledgeBase.TopicMatches | repo/crewai-masumi-quickstart-template/main_cognito_sync.py:390 | definition: the lower-cased query occurs in the lower-cased topic (the same test at :582); `MatchesExactly` states that an entry is kept iff it passes it |
| KnowledgeBase.MatchesExactly | repo/crewai-masumi-quickstart-template/main_cognito_sync.py:389-391 | an entry is a match iff it is among the entries and its lower-cased topic contains the lower-cased query |
| KnowledgeBase.MatchesOfPrefix | repo/crewai-masumi-quickstart-template/main_cognito_sync.py:389-393 | stopping the scan early yields a prefix of the full list of matches |
| KnowledgeBase.CrossReferences | repo/crewai-masumi-quickstart-template/main_cognito_sync.py:294-299 | definition: the stored hashes scoring above 70, in knowledge-base order; stated by `CrossReferencesExactly` |
| KnowledgeBase.HighScoreKeys | repo/crewai-masumi-quickstart-template/main_cognito_sync.py:297-299 | definition: the keys, in order, whose entry scores above 70; `HighScoreKeysExactly` states that a key is kept iff it is listed and scores above 70, and that none is kept twice |
| KnowledgeBase.CrossReferencesExactly | repo/crewai-masumi-quickstart-template/main_cognito_sync.py:294-299 | a hash is a cross-reference iff it is stored and its entry's verification score exceeds 70; no hash is listed twice |
| KnowledgeBase.Stats | repo/crewai-masumi-quickstart-template/main_cognito_sync.py:406-414 | total entries is the number of stored keys; the average is the score sum divided by max(n, 1); total sources is the sum of the source-list lengths; last updated is `LatestUpdate` of the entries |
| KnowledgeBase.Average | repo/crewai-masumi-quickstart-template/main_cognito_sync.py:411 | the average times max(count, 1) is the total |
| KnowledgeBase.LatestUpdate | repo/crewai-masumi-quickstart-template/main_cognito_sync.py:413 | None iff there are no entries; otherwise an attained `updated_at` that no entry exceeds |
| KnowledgeBase.EmptyStats | repo/crewai-masumi-quickstart-template/main_cognito_sync.py:409-414 | an empty base reports 0 entries, average 0, 0 sources and no last update |
| KnowledgeBase.ScoreSum | repo/crewai-masumi-quickstart-template/main_cognito_sync.py:411 | definition: the sum of the verification scores (also the confidence sum at :586); `ScoreSumAppend` states that it adds over concatenation and `Average` relates it to the average |
| KnowledgeBase.ScoreSumAppend | repo/crewai-masumi-quickstart-template/main_cognito_sync.py:411 | the score sum of two runs of entries is the sum of their score sums |
| KnowledgeBase.SourceCount | repo/crewai-masumi-quickstart-template/main_cognito_sync.py:412 | definition: the total length of the source lists; `SourceCountAppend` states that it adds over concatenation |
| KnowledgeBase.SourceCountAppend | repo/crewai-masumi-quickstart-template/main_cognito_sync.py:412 | the source count of two runs of entries is the sum of their source counts |
| KnowledgeBase.DappQuery | repo/crewai-masumi-quickstart-template/main_cognito_sync.py:580-593 | the results are the matches among the stored entries in knowledge-base order, and an entry is in them iff it is stored and its topic matches; total matches is the length of the results; confidence is 0 with no results and their average score otherwise |
| KnowledgeBase.DappQueryCountsStoredMatches | repo/crewai-masumi-quickstart-template/main_cognito_sync.py:580-591 | total matches is the number of stored hashes whose entry matches: each stored entry is reported once |
| Reputation.StandingOf | repo/crewai-masumi-quickstart-template/main_cognito_sync.py:428 | trusted iff score ≥ 75, neutral iff 50 ≤ score < 75, low trust iff score < 50 |
| Reputation.GetReputation | repo/crewai-masumi-quickstart-template/main_cognito_sync.py:423-428 | the stored score of a known entity, 50.0 for an unknown one, and the band of that score |
| Reputation.UnknownIsNeutral | repo/crewai-masumi-quickstart-template/main_cognito_sync.py:423-428 | an unknown entity reads as score 50 and neutral |
| Reputation.ReputationLeaderboard | repo/crewai-masumi-quickstart-template/main_cognito_sync.py:457-468 | definition: the items sorted by score, highest first, cut with `[:limit]`, and the number of entities; stated by `LeaderboardIsTopInOrder` |
| Reputation.LeaderboardIsTopInOrder | repo/crewai-masumi-quickstart-template/main_cognito_sync.py:460-467 | for any integer limit, the leaderboard has as many rows as `[:limit]` keeps (min(limit, #entities), or #entities + limit floored at 0 for a negative limit), in descending score order; each row is a stored entity with its own score; no entity left out scores above one listed; entities with equal scores keep their insertion order and form a prefix of that score's class; the total counts every entity |
| Reputation.LeaderboardExample | repo/crewai-masumi-quickstart-template/main_cognito_sync.py:460-465 | scores A = 90, B = 90, C = 70 entered in that order give the top two A then B |
| AuditTrail.Trail | repo/crewai-masumi-quickstart-template/main_cognito_sync.py:537-552 | definition: `history[offset:offset+limit]` with its length and the history's length; stated by `TrailWindow`, `TrailPagesTile` and `TrailPastEnd` |
| AuditTrail.TrailWindow | repo/crewai-masumi-quickstart-template/main_cognito_sync.py:544-551 | a page holds the records from `offset` on, min(limit, what is left) of them, and reports the history's full length and the page's length |
| AuditTrail.TrailAnyBounds | repo/crewai-masumi-quickstart-template/main_cognito_sync.py:537-551 | for any integer offset and limit, the page is the run of the history between the normalised bounds `Bound(offset)` and `Bound(offset + limit)`, empty when the stop is not after the start, and reports both lengths |
| AuditTrail.TrailNegativeLimit | repo/crewai-masumi-quickstart-template/main_cognito_sync.py:544 | from a non-negative offset, a negative limit gives an empty page when offset + limit ≥ 0, and otherwise the records from `offset` up to `len + offset + limit` |
| AuditTrail.TrailPagesTile | repo/crewai-masumi-quickstart-template/main_cognito_sync.py:544 | page (o, n) followed by page (o + n, m) is page (o, n + m): no overlap and no gap |
| AuditTrail.TrailPastEnd | repo/crewai-masumi-quickstart-template/main_cognito_sync.py:544 | an offset at or past the end gives an empty page |
| AuditTrail.WithAction | repo/crewai-masumi-quickstart-template/main_cognito_sync.py:557 | definition: the records whose action is the one asked for, in order; stated by `WithActionExactly` |
| AuditTrail.ActionOf | repo/crewai-masumi-quickstart-template/main_cognito_sync.py:557 | definition: `t.get("action")`, the action of an audit entry and None for a reward record; `WithActionExactly` states that a reward record never matches an action |
| AuditTrail.WithActionExactly | repo/crewai-masumi-quickstart-template/main_cognito_sync.py:557 | a record is kept iff it is an audit entry with that action; reward records, which have no action, never are |
| AuditTrail.ByAction | repo/crewai-masumi-quickstart-template/main_cognito_sync.py:554-563 | definition: the count of the filtered records and their slice `[-limit:]`; stated by `ByActionIsLatest` |
| AuditTrail.ByActionIsLatest | repo/crewai-masumi-quickstart-template/main_cognito_sync.py:557-563 | for any integer limit the count covers every match; a positive limit returns the last `limit` matches in chronological order, a limit of 0 (`[-0:]`) returns all of them, and a negative limit drops the oldest `-limit` matches |
| Incentives.Credit | repo/crewai-masumi-quickstart-template/main_cognito_sync.py:491-499 | keeps the ledger well formed; its effect on each contributor is stated by `CreditEffect` |
| Incentives.CreditEffect | repo/crewai-masumi-quickstart-template/main_cognito_sync.py:492-499 | the contributor's profile goes from its old value (or zero for a newcomer) to total + amount and count + 1; it is the only key added and every other contributor is untouched |
| Incentives.CreditInPlace | repo/crewai-masumi-quickstart-template/main_cognito_sync.py:492-499 | the handler's three in-place steps (create at zero, add the amount, count one) give exactly `Credit` |
| Incentives.Replay | repo/crewai-masumi-quickstart-template/main_cognito_sync.py:489-499 | the ledger the reward records of a history build up from an empty one, kept well formed; the store's invariant ties `contributors` to it and `ReplayTotals` says what it holds |
| Incentives.ReplayReward | repo/crewai-masumi-quickstart-template/main_cognito_sync.py:489-499 | appending a reward record to the history credits its contributor in the replayed ledger |
| Incentives.ReplayAudit | repo/crewai-masumi-quickstart-template/main_cognito_sync.py:321-326 | appending an audit entry leaves the replayed ledger unchanged |
| Incentives.ReplayAudits | repo/crewai-masumi-quickstart-template/main_cognito_sync.py:231-236 | any run of audit entries, such as those of one ingestion, leaves the replayed ledger unchanged |
| Incentives.ReplayTotals | repo/crewai-masumi-quickstart-template/main_cognito_sync.py:489-499 | replaying any history, a contributor has a profile iff they were rewarded at least once, and the profile holds the sum of their amounts and the number of their rewards |
| Incentives.TopContributors | repo/crewai-masumi-quickstart-template/main_cognito_sync.py:512-531 | definition: the profiles sorted by total rewards, highest first, cut with `[:limit]`, and the number of contributors; stated by `TopContributorsInOrder` |
| Incentives.TopContributorsInOrder | repo/crewai-masumi-quickstart-template/main_cognito_sync.py:515-530 | for any integer limit, the board has as many rows as `[:limit]` keeps, descending by total rewards; each row carries the contributor's own profile; no contributor left out has a higher total than one listed; ties keep insertion order; the total counts every contributor |
| OrderedMaps.OrderedMap.Put | repo/crewai-masumi-quickstart-template/main_cognito_sync.py:353 | assignment replaces or adds one value; an existing key keeps its position, a new key goes last |
| OrderedMaps.OrderedMap.Get | repo/crewai-masumi-quickstart-template/main_cognito_sync.py:423 | definition: `d.get(k, default)`, the stored value or the default (also at :302); `Reputation.GetReputation` and `Reputation.UnknownIsNeutral` state what it gives for a known and an unknown entity |
| OrderedMaps.OrderedMap.Values | repo/crewai-masumi-quickstart-template/main_cognito_sync.py:411-413 | the values have one element per key, the i-th being the value stored under the i-th key in insertion order |
| OrderedMaps.OrderedMap.Items | repo/crewai-masumi-quickstart-template/main_cognito_sync.py:460 | the pairs have one element per key, the i-th being the i-th key with its value (also `.items()` at :516); `ItemsAreEntries` states that every pair drawn from them is a stored key with its value |
| OrderedMaps.Empty | repo/crewai-masumi-quickstart-template/main_cognito_sync.py:93-97 | a well-formed dict with no keys and no entries, as every ledger starts |
| OrderedMaps.SizeIsKeyCount | repo/crewai-masumi-quickstart-template/main_cognito_sync.py:410 | `len` of a dict is the length of its key order |
| Slicing.Slice | repo/crewai-masumi-quickstart-template/main_cognito_sync.py:544 | definition: `s[start:stop]` with Python's bound normalisation (`Bound`); stated by the slicing lemmas below |
| Slicing.SliceWindow | repo/crewai-masumi-quickstart-template/main_cognito_sync.py:544 | `s[start:start+count]` for non-negative bounds holds min(count, what is left) elements, the ones from `start` on |
| Slicing.AdjacentSlices | repo/crewai-masumi-quickstart-template/main_cognito_sync.py:544 | adjacent slices concatenate to the combined slice |
| Slicing.SliceFromPastEnd | repo/crewai-masumi-quickstart-template/main_cognito_sync.py:544 | a start at or past the end gives an empty slice |
| Slicing.LastElements | repo/crewai-masumi-quickstart-template/main_cognito_sync.py:562 | `s[-k:]` with k > 0 is the last min(k, \|s\|) elements |
| Slicing.MinusZeroTakesAll | repo/crewai-masumi-quickstart-template/main_cognito_sync.py:562 | `s[-0:]` is the whole sequence |
| Slicing.FirstElements | repo/crewai-masumi-quickstart-template/main_cognito_sync.py:465 | `s[:k]` is the first min(k, \|s\|) elements for k ≥ 0, and all but the last -k (none if -k ≥ \|s\|) for k < 0 |
| Ranking.SortDescending | repo/crewai-masumi-quickstart-template/main_cognito_sync.py:460 | the result has the input's length and is a permutation of it; its order is stated by `SortIsSorted` and `SortIsStable` |
| Ranking.SortIsSorted | repo/crewai-masumi-quickstart-template/main_cognito_sync.py:460 | the sort is in descending key order and a permutation of its input |
| Ranking.SortIsStable | repo/crewai-masumi-quickstart-template/main_cognito_sync.py:460 | elements with equal keys keep their input order |
| Ranking.PrefixOutranksRest | repo/crewai-masumi-quickstart-template/main_cognito_sync.py:465 | cutting a descending list after n elements leaves out nothing with a larger key than an element kept |
| Ranking.SortedPrefix | repo/crewai-masumi-quickstart-template/main_cognito_sync.py:460-465 | the first n of the sorted input are n input elements, descending, outranking everything left out, each key class a prefix of that class in input order |
| Text.Lower | repo/CognitoSync-NovachainNexus/verification_agent.py:85 | `str.lower` on ASCII letters, preserving the length; `LowerAppend` states how it composes |
| Text.Contains | repo/crewai-masumi-quickstart-template/main_cognito_sync.py:390 | `needle in hay` holds iff the needle occurs at some position of the haystack |
| Text.ContainsInLonger | repo/CognitoSync-NovachainNexus/verification_agent.py:86 | a substring stays a substring when text is added on either side |
| Text.LowerAppend | repo/CognitoSync-NovachainNexus/verification_agent.py:85 | lower-casing distributes over concatenation |
| VerificationAgent.DetectBias | repo/CognitoSync-NovachainNexus/verification_agent.py:73-88 | the bias count lies between 0 and 7 |
| VerificationAgent.CountPresent | repo/CognitoSync-NovachainNexus/verification_agent.py:86 | definition: the generator sum of `marker in text` over the markers, at most the number of markers; `CountPresentIsSetSize` states that it is the number of distinct markers present |
| VerificationAgent.DetectBiasCountsDistinctMarkers | repo/CognitoSync-NovachainNexus/verification_agent.py:75-86 | the bias count is the number of distinct markers occurring in the lower-cased text, so repeated markers count once |
| VerificationAgent.CountPresentIsSetSize | repo/CognitoSync-NovachainNexus/verification_agent.py:86 | over distinct markers, the count of those present is the size of the set present |
| VerificationAgent.CountPresentMonotone | repo/CognitoSync-NovachainNexus/verification_agent.py:86 | a text containing every substring of another has at least as many markers present |
| VerificationAgent.DetectBiasGrowsWithText | repo/CognitoSync-NovachainNexus/verification_agent.py:85-86 | appending text never lowers the bias count |
| VerificationAgent.ReliabilityScore | repo/CognitoSync-NovachainNexus/verification_agent.py:93-104 | the score is 60, 75 or 90: 90 iff the length exceeds 5000, 60 iff it is at most 1500 |
| VerificationAgent.ReliabilityGrowsWithLength | repo/CognitoSync-NovachainNexus/verification_agent.py:98-104 | a longer text never scores lower |
| VerificationAgent.StatusFor | repo/CognitoSync-NovachainNexus/verification_agent.py:131-135 | verified iff score ≥ 75 and bias < 2 |
| VerificationAgent.StatusMonotone | repo/CognitoSync-NovachainNexus/verification_agent.py:131-135 | a higher score or less bias never turns a verified verdict into needs-review |
| VerificationAgent.StatusExamples | repo/CognitoSync-NovachainNexus/verification_agent.py:133 | (80, 1) is verified; (80, 2), (80, 3) and (60, 0) need review |
| VerificationAgent.Verify | repo/CognitoSync-NovachainNexus/verification_agent.py:116-145 | A failed fetch aborts before summarising, and a failed summary aborts before scoring. Otherwise the report has these fields: the URL; the summary; `bias_level == bias_keywords_found ==` the bias count of the fetched text; its reliability score; its digest; and the verdict of that score and bias. |
| VerificationAgent.VerifiedExactly | repo/CognitoSync-NovachainNexus/verification_agent.py:125-135 | a successful verification is verified iff the text is longer than 1500 characters and holds at most one bias marker |
| VerificationAgent.SameTextSameVerdict | repo/CognitoSync-NovachainNexus/verification_agent.py:125-145 | two successful verifications of the same text, for any URLs and summaries, agree on hash, bias, score and verdict |
| JobService.Payment.constructor | repo/CognitoSync-NovachainNexus/main.py:46-61 | a payment handle keeps the purchaser, input and amounts and starts with no payment identifiers |
| JobService.JobStore.constructor | repo/CognitoSync-NovachainNexus/main.py:152-153 | no jobs and no payment handles |
| JobService.JobStore.StartJob | repo/CognitoSync-NovachainNexus/main.py:188-242 | If the payment request fails, the handler answers 500 and stores nothing. Otherwise a fresh payment handle, holding the request and the 10 ADA price, gets the blockchain identifier added to its identifiers and is stored under the job id. The job is stored as awaiting payment, payment pending, no result, with that identifier and handle. |
| JobService.Settle | repo/CognitoSync-NovachainNexus/main.py:170-180 | after a run the job is completed iff the crew returned; the result is the crew's output or "Task failed: " + the message; nothing else of the record changes |
| JobService.JobStore.ExecuteCrewTask | repo/CognitoSync-NovachainNexus/main.py:167-181 | a known job is settled with the crew's outcome and no other job changes; an unknown id changes nothing |
| JobService.JobStore.JobStatus | repo/CognitoSync-NovachainNexus/main.py:249-257 | 404 "Job not found" iff the id is unknown; otherwise every field of the record except the payment handle |
| JobService.JobStore.StartJobAndProcess | repo/CognitoSync-NovachainNexus/main.py:226-233 | a job whose payment request succeeds ends completed or failed, settled with the crew's outcome; other jobs are untouched |
| JobService.StartedJobStaysUnpaid | repo/CognitoSync-NovachainNexus/main.py:233 | as written, polling a freshly started job shows it awaiting payment with no result |
| JobService.StartedJobIsSettled | repo/CognitoSync-NovachainNexus/main.py:227-233 | with the crew task run, polling shows the job completed with the crew's output, or failed with its message |

## Left out

- Lower-casing is ASCII-only (`Text.LowerChar`); Python's `str.lower` also folds non-ASCII letters.
- Scores and amounts are exact reals, not floating point; the division in the averages is exact.
- Clock readings (`datetime.now`, `time.time`) are a `now` parameter, one per handler call. The two hash-and-time identifiers are not modelled: `ingestion_id` is a parameter and the reward response's `transaction_hash` is left out.
- SHA-256 and the fetch, summarisation and crew calls are foreign; they enter as parameters or outcomes, and only their determinism is used.
- Python's text rendering of a float score (`Store.scoreText`) is a parameter: the digest of `update_reputation` is SHA-256 of the entity id followed by that text, so, as in the source, different (entity, score) pairs whose texts concatenate alike get the same digest.
- The crew agent the store calls (`crew_definition.py`) is not part of this model; only its outcome is, as an input to `VerifyKnowledge` and `IngestData`. As written it returns fixed figures (85.0, bias 3, "Verified") and hashes the URL, not the text; it does not use the rules of `verification_agent.py`.
- The cache's key order is not tracked: no modelled handler reads it.
- `get_reputation` also reports `contributions`, a substring count over the text of whole history records. It depends on Python's repr format and is left out.
- Route order: `/reputation/leaderboard` is registered after `/reputation/{entity_id}`, so the framework sends it to `get_reputation`. The model treats the leaderboard as its own operation.
- The handlers' response acknowledgements are left out of the model: the status, echo and message dictionaries of knowledge, reputation and reward updates.
- No reward amount is validated; the code has no check and neither does the model.
- `created_at` is not preserved on re-adding an entry; the code overwrites the whole entry.
- The `verification_score` of an entry is always present, because the request model requires it; the `get(..., 0)` fallback is not modelled.
- Concurrency is left out: the handlers run on one event loop and the model runs them one at a time.
- Start-up configuration, logging, CORS, the health and root endpoints, `test_fetch`, `/verification-history` and the pipeline self-test are left out.
- `job_id` comes from `uuid4` and is a parameter.
- The payment SDK's fallback stub, network, configuration and status monitoring are left out.
- `input_schema` and `health` in main.py are constant responses and are left out.

## Findings

| source | as written | input that shows it | evidently intended | confidence | as-written member | corrected member |
|---|---|---|---|---|---|---|
| repo/CognitoSync-NovachainNexus/main.py:233 | `asyncio.to_thread(start_processing)` creates a coroutine that is never awaited or scheduled, so `execute_crew_task` never runs | any `start_job` whose payment request succeeds, then `job_status` on the returned id: status stays `awaiting_payment`, result `None` | the crew task runs after the job is stored, and the job ends `completed` or `failed` | high; not executed | JobService.StartedJobStaysUnpaid | JobService.JobStore.StartJobAndProcess |

# Verified model of the property platform's core

Dafny 4.11 proofs about the four parts of the service that hold state shared by many
requests, and about the background work behind them. `dafny verify dfyconfig.toml` checks
everything.

| module | what it is about |
|---|---|
| `Text`, `TextMeaning`, `Hash` | the duplicate fingerprint: scans over strings, word lists, joining four fields |
| `Transaction`, `TransactionRuns` | what a transaction sends on its connection and leaves in the database, alone and among others |
| `Intake`, `IntakeSafety`, `IntakeKeys`, `IntakeResults`, `IntakeWindow`, `IntakeLate`, `IntakeProgress`, `IntakeService` | POST /api/enquiry as a protocol of concurrent calls over Redis, MySQL and two queues |
| `Jobs` | a BullMQ queue with retries and dead letters |
| `JsonText` | the text of a JSON value, its nesting, and what a cut of it can be |
| `Crm`, `CrmAudit`, `CrmService` | the sync worker and the CRM webhook, both writing the CRM fields of an enquiry |
| `CacheKeys`, `Cache`, `CacheTruth`, `CacheFetches`, `CacheOverlap`, `CacheExpiry`, `CacheInvalidation`, `CacheComeback`, `CacheMonotone`, `CacheService` | the stale-while-revalidate cache, its keys, and invalidation by Redis pattern |
| `Pagination` | the enquiry list by page and by cursor, over a table that changes |

The concurrent parts are cut at their awaits: one action is one effect on shared state, and
a run is any interleaving of actions, with errors, lost replies, crashes and the passing of
time among them. The modules named `...Service` (and the classes `Jobs.Queue` and
`Transaction.Pool`) hold the code itself, as classes that update their fields in place; each
of their step methods is proved to be one action of the protocol, so that what is proved of
all runs holds of any interleaving of these steps. History variables (who wrote an entry, when a value was read
upstream) are carried along and never decide anything.

## Where the code differs from what is said about it

- API_DOCS.md promises 404 for a webhook that names an unknown enquiry. The audit insert
  comes first and its foreign key fails, so the answer is 500 and the 404 branch is out of
  reach (`CrmAudit.AnswersTrue`).
- DEPLOYMENT.md says that every inbound webhook, valid or not, is persisted. One is exactly
  when it gets past the body parser, the rate limiter and the schema, its enquiry exists,
  MySQL can take its payload as JSON, and the insert takes effect. The payload is taken when
  its text has at most 60000 characters (a longer one is cut, and a cut object is not JSON),
  its nesting is at most 100 levels, and MySQL can store its strings (`CrmAudit.RecordedIff`,
  `CrmAudit.CastableIff`; calls that fail it: `CrmAudit.UnrecordedRun`,
  `CrmAudit.UnrecordableExamples`).
- The comment in src/queues/queue.config.ts lists waits of 1 s, 2 s and 4 s. Three attempts
  have two waits (`Jobs.AtMostThreeAttempts`).
- src/services/enquiry.service.ts speaks of a fingerprint check before the write and of
  fire-and-forget jobs. There is only the unique index; and both enqueues are awaited, so a
  failing one answers 500 for an enquiry that is committed (`IntakeResults.GapMember`).
- The idempotency middleware is said to keep a repeated request from being handled twice.
  It does in every run in which each handler and its stored answer finish inside the 24 h of
  their claim (`IntakeWindow.OneClaimPerWindow`). From any state in which one has not, a
  second handler can start under the same key beside it and have its entry overwritten
  (`IntakeLate.UntimelyCanBreak`; a transaction open for a day:
  `IntakeLate.SlowHandlerBreaksWindow`).
- src/services/wpGraphQL.service.ts and PERFORMANCE.md say one CMS call per ttl. That holds
  for reads that fetch without overlapping and succeed (`CacheFetches.FetchBound`); any
  number of overlapping misses or stale hits all call the CMS
  (`CacheOverlap.OverlappingReadsAllFetch`).
- A fresh entry is meant to keep reads from the CMS for a whole ttl. It does unless a SET with
  an older stamp lands on it (`CacheFetches.NoFetchUnlessOlderSet`,
  `CacheOverlap.OlderSetShortensTtl`).
- Invalidation is undone by a fetch that is under way while keys are deleted
  (`CacheInvalidation.OverlapUndoesInvalidation`; exactly when: `CacheComeback.FreshExactly`), and misses a slug whose pattern does not
  match the slug itself, such as `[a]` (`CacheInvalidation.InvalidationMissesSlug`,
  `CacheKeys.BracketedSlug`).
- The cursor `start` and no cursor share a cache key (`CacheTruth.StartCursorCollides`).
- A page past the end reports a total of 0 (`Pagination.ListEnquiries`).
- src/config/db.ts promises commit or rollback on every path. A ROLLBACK that fails on a
  session that lives on leaves the writes open on a released connection, and the next BEGIN
  there commits them (`Transaction.LeftOpenIsCommitted`).

## Model

| member | source | states |
|---|---|---|
| Text.NormaliseIsWordList | src/utils/hash.ts:20 | trim, lower-case and collapse of any message is its lower-cased list of words joined with single blanks |
| Text.NormaliseKeepsWords | src/utils/hash.ts:20 | splitting a normalised message gives exactly the lower-cased words of the message back |
| Text.NormaliseEquivalence | src/utils/hash.ts:20 | two messages normalise alike if and only if their words agree up to case |
| Text.NormaliseIdempotent | src/utils/hash.ts:20 | a normalised message is its own normal form |
| Text.SplitJoin | src/utils/hash.ts:20 | a list of words joined with blanks splits into the same list |
| Text.TrimScan | src/utils/hash.ts:17-20 | the two-ended scan returns the trimmed string of the recursive specification |
| Text.LowerScan | src/utils/hash.ts:17-20 | the scan lower-cases every position |
| Text.CollapseScan | src/utils/hash.ts:20 | the one-pass scan with a flag replaces every maximal run of white space by one blank |
| Text.DigitsScan | src/utils/hash.ts:18 | the scan keeps the digits of a phone number in order and nothing else |
| TextMeaning.SpacesListed | src/utils/hash.ts:17-20 | white space is these 25 code points and no other |
| TextMeaning.AsciiLowered | src/utils/hash.ts:17-20 | on ASCII, lower-casing maps the upper alphabet to the lower one and keeps the rest |
| TextMeaning.TrimIsCore | src/utils/hash.ts:17-20 | trimming returns a text if and only if it is what stands between the white space at the two ends |
| TextMeaning.WordPlaces | src/utils/hash.ts:20 | the words of a message are its stretches without white space, all of them, in order and apart |
| TextMeaning.EmailEquivalence | src/utils/hash.ts:17 | two addresses normalise alike if and only if, without the white space around them, they have equal length and agree position by position up to case |
| TextMeaning.PhoneEquivalence | src/utils/hash.ts:18 | two phones normalise alike if and only if one text is the digits of both, in order and none left out |
| TextMeaning.DigitsOfOne | src/utils/hash.ts:18 | a digit stays and any other character goes |
| TextMeaning.DigitsOfParts | src/utils/hash.ts:18 | a joined text keeps the digits of its parts in turn |
| TextMeaning.MessageEquivalence | src/utils/hash.ts:20 | two messages normalise alike if and only if they have as many words and these agree in turn up to case |
| Hash.ParseJoined | src/utils/hash.ts:16-21 | cutting the joined string at its first three bars recovers all four fields, whatever bars the message holds |
| Hash.DecimalRoundTrip | src/utils/hash.ts:19 | a printed property id reads back as the same number and has only digits |
| Hash.FingerprintEquivalence | src/utils/hash.ts:10-24 | validated enquiries have equal fingerprints if and only if their addresses agree up to case and white space around them, their phones have the same digits in order, the property is the same, and the messages have the same words up to case |
| Hash.BarInEmailCollides | src/utils/hash.ts:16-21 | without validation the join is not injective: two different enquiries with a bar in an address collide |
| Hash.FingerprintEnquiry | src/utils/hash.ts:10-24 | the code built of the scans computes the fingerprint of the specification |
| Transaction.Pool.WithTransaction | src/config/db.ts:40-55 | on every path the connection is back in the pool, the commands sent and the database left are those of the specification, and a failing ROLLBACK replaces the error |
| Transaction.Pool.TryOn | src/config/db.ts:44-48 | what the try block sent, left in the session and threw |
| Transaction.CommandOrder | src/config/db.ts:43-54 | one connection, taken first and released last; COMMIT if and only if begin and callback succeeded; one ROLLBACK, last before the release, if and only if the call throws |
| Transaction.StatementsInOrder | src/config/db.ts:45-46 | between BEGIN and the end come the callback's statements, all of them and in order |
| Transaction.ErrorIsTheFirst | src/config/db.ts:46-51 | the caller gets the error of BEGIN, of the callback or of COMMIT if and only if that one failed first and the ROLLBACK worked, and the ROLLBACK's if and only if both failed |
| Transaction.AllOrNothing | src/config/db.ts:36-55 | on a clean pool a returned call has made all its writes permanent and a rejected one none, a lost COMMIT reply excepted; the pool stays clean if and only if no ROLLBACK fails on a living session |
| Transaction.LeftOpenIsCommitted | src/config/db.ts:49-53 | after such a failure the next transaction on that connection makes the rejected writes permanent |
| TransactionRuns.RunInv | src/config/db.ts:40-55 | under any interleaving of open transactions each session holds exactly what its own call has written so far, or what a call that is over left there |
| TransactionRuns.OnlyLandedWritesRemain | src/config/db.ts:40-55 | however statements of open transactions interleave, the database is the writes of some calls, each whole and once, in the order in which they became permanent: the calls whose COMMIT took effect, and of the others only such whose ROLLBACK failed on a living session |
| TransactionRuns.ConnectionsConserved | src/config/db.ts:43-54 | every connection is free or held by exactly one unfinished call, and a free one has nothing open but what a failed ROLLBACK left |
| TransactionRuns.AloneAsSpecified | src/config/db.ts:40-55 | a call that nothing interrupts ends in the database that the method is specified by, with its connection back |
| IntakeSafety.StepKept | src/services/enquiry.service.ts:40-107 | every action of every call keeps the invariant of rows, ids, unique key, jobs, counters and stored answers |
| IntakeSafety.RunInv | src/services/enquiry.service.ts:40-107 | the invariant holds in every reachable state, under any interleaving, errors and crashes |
| IntakeSafety.StepGrows | migrations/001_init.sql:21-58 | no action removes or changes a row, takes back a job, an answer, a claim or a call's progress |
| IntakeSafety.RunGrows | migrations/001_init.sql:21-58 | so neither does any stretch of a run |
| IntakeResults.OneRowPerEnquiry | migrations/001_init.sql:31-50 | in every reachable state two committed rows are the same enquiry if and only if they are one row |
| IntakeResults.CreatedIsOwn | src/services/enquiry.service.ts:48-97 | a call answers 201 only for a row that its own commit put there from its own body |
| IntakeResults.AtMostOneCreated | src/services/enquiry.service.ts:48-106 | at most one call per enquiry gets a 201, even when the first committer crashed before answering |
| IntakeResults.DuplicateOnlyIfCommitted | src/services/enquiry.service.ts:98-106 | from its throw to its answer, a duplicate 409 means that another call's row with the same enquiry is committed |
| IntakeResults.StepRefines | src/services/enquiry.service.ts:48-106 | every protocol action is at most one allowed event of a sequential registry from enquiry to first committed row |
| IntakeResults.RunRefinesRegistry | src/services/enquiry.service.ts:48-106 | every concurrent run is a legal history of that registry, and the committed rows are what the history leaves |
| IntakeResults.OneCallPerFingerprint | src/services/enquiry.service.ts:48-106 | over a whole run all registrations and acceptances of one fingerprint are of one call and one id |
| IntakeResults.WorkChain | src/services/enquiry.service.ts:83-97 | an email queued for an id implies its CRM job, which implies its committed row; one email per id; a 201 has both jobs |
| IntakeResults.WorkConserved | src/services/enquiry.service.ts:83-97 | rows, CRM jobs, emails and counted creations differ exactly by the calls that stand between the two points |
| IntakeResults.GapMember | src/services/enquiry.service.ts:83-106 | each such call is in flight there, answers 500, or crashed; none answers 201 |
| IntakeResults.StoredCreatedIsTrue | src/middleware/idempotency.ts:45-57 | every stored 201 names a committed enquiry with both jobs queued, made under the key it is stored at |
| IntakeResults.StoredCreatedOncePerId | src/middleware/idempotency.ts:31-57 | no two keys hold a 201 for one enquiry |
| IntakeKeys.KeyPresence | src/middleware/idempotency.ts:23-26 | a request has no key if and only if its header is absent or empty |
| IntakeKeys.KeyDetermines | src/middleware/idempotency.ts:26 | for paths without a colon two keys are equal if and only if path and header are |
| IntakeKeys.SameKeyIff | src/middleware/idempotency.ts:23-26 | in every run two calls have the same key if and only if they arrived with the same path and the same non-empty header |
| IntakeKeys.KeyLivesADay | src/middleware/idempotency.ts:19-55 | after a claim or a stored answer the key is taken at 86399 s and free at 86400 s |
| IntakeWindow.RunWindow | src/middleware/idempotency.ts:26-59 | if no handler or stored answer outlives its claim, entries, claims, answers and expiry times stay consistent in every state of the run |
| IntakeWindow.OneClaimPerWindow | src/middleware/idempotency.ts:26-43 | between a claim and the expiry of its entry no other request to the same path with the same Idempotency-Key claims |
| IntakeWindow.NoClaimNoHandler | src/middleware/idempotency.ts:33-43 | a keyed call that did not claim makes no row, no job and no answer of its own |
| IntakeWindow.ReplayIsOriginal | src/middleware/idempotency.ts:41-57 | a replay is the very answer, status and body, of one earlier request to the same path with the same Idempotency-Key, within 24 h of its storing |
| IntakeWindow.RefusalIsInFlight | src/middleware/idempotency.ts:33-39 | a refusal falls in the window of a call that had not stored its answer |
| IntakeLate.LateHandlerLetsSecondIn | src/middleware/idempotency.ts:31-57 | from every reachable state in which a handler has outlived its claim, a second one can be inside createEnquiry under the same key beside it, and have its entry overwritten by the late answer |
| IntakeLate.UntimelyCanBreak | src/middleware/idempotency.ts:31-57 | so any run that breaks the timing condition anywhere can go on from there to two handlers in one window |
| IntakeLate.TimelyNeverBreaks | src/middleware/idempotency.ts:31-57 | and a run that keeps it never gets there |
| IntakeLate.SlowHandlerBreaksWindow | src/services/enquiry.service.ts:49-83 | a run in which two calls with one key and valid bodies are in their transactions at once, because the first one's takes 24 h |
| IntakeProgress.SomeCallGoesOn | src/services/enquiry.service.ts:48-106 | in every reachable state an unfinished call can take its next step, or waits for one that holds the same enquiry and can commit: no deadlock |
| IntakeProgress.CallsEnd | src/services/enquiry.service.ts:40-107 | no call takes more than twelve steps in any run, whatever fails |
| IntakeProgress.ExactlyOneCreated | src/services/enquiry.service.ts:48-106 | when nothing fails, the property is published and the calls for an enquiry are over, then as soon as one was answered exactly one was told 201 and every other answer is the duplicate 409 |
| IntakeProgress.RefusedBody | src/validators/enquiry.validator.ts:51-60 | a request whose body the schema refuses makes nothing, and its answer is 400 |
| IntakeService.Service.ClaimKey | src/middleware/idempotency.ts:21-33 | next() is called if and only if there is no key or no live entry of it, and then the key holds `processing` for 86400 s |
| IntakeService.Service.Receive | src/middleware/idempotency.ts:23-26 | the call keeps its body, and its key is made of its path and its header |
| IntakeService.Service.LookUpKey | src/middleware/idempotency.ts:33-43 | a lost claim replays a stored answer, refuses on a running one, and faults on a key gone meanwhile |
| IntakeService.Service.Reply | src/middleware/idempotency.ts:45-57 | the answer leaves before its SET lands, and only a keyed call stores |
| IntakeService.Service.StoreAnswer | src/middleware/idempotency.ts:48-55 | the SET overwrites whatever the key holds and restarts its 24 h |
| IntakeService.Service.InsertRow | migrations/001_init.sql:45-50 | the unique index turns the insert away if and only if the fingerprint is committed |
| IntakeService.Service.CommitWork | src/config/db.ts:47-50 | a COMMIT makes the row visible also when its reply is lost, and then the call still rolls back |
| IntakeService.Service.RollBackWork | src/services/enquiry.service.ts:98-106 | the error after the ROLLBACK, and the duplicate count for a 409 only |
| IntakeService.Service.InsertInTransaction | src/services/enquiry.service.ts:48-83 | the row goes in if and only if the property is published, the enquiry new and the COMMIT effective; the error says which failed |
| IntakeService.Service.QueueWorkFor | src/services/enquiry.service.ts:89-97 | CRM job, email and count in this order, each only if all before it were acknowledged |
| IntakeService.Service.CreateEnquiry | src/services/enquiry.service.ts:40-107 | for every outcome of each store: which rows, jobs, emails and counts result, and that 201 comes exactly with all of them, 404 and 409 exactly for their causes |
| Jobs.RunInv | src/queues/queue.config.ts:14-40 | attempts, stages, waits and dead letters agree in every reachable state of a queue |
| Jobs.CountersTrue | src/queues/queue.config.ts:14-19 | the jobs are the ids ever added, each with as many attempts as a worker started on it |
| Jobs.AtMostThreeAttempts | src/queues/queue.config.ts:14-19 | at most three attempts; a job that fails for good had three and slept exactly 1 s and 2 s |
| Jobs.CompletedIff | src/queues/crmSync.worker.ts:14-19 | a job is completed if and only if an attempt at it has succeeded, and stays so |
| Jobs.FailedIff | src/queues/queue.config.ts:14-19 | a job is failed if and only if its processor has thrown three times |
| Jobs.SuccessIsFinal | src/queues/crmSync.worker.ts:14-19 | a successful attempt raises no event, and its job never gets a dead letter |
| Jobs.RetryWaits | src/queues/queue.config.ts:8-16 | an attempt after the first failure starts at least 1 s later, after the second 2 s, and none follows the third |
| Jobs.DeadLettersMatchFailures | src/queues/queue.config.ts:24-40 | dead letters, events on the way and lost events partition the failed jobs, each once; with none on the way or lost, dead letters are exactly the failed jobs |
| Jobs.JobsConserved | src/queues/queue.config.ts:14-19 | at every point of a run the ids ever added are as many as the jobs waiting, active, delayed, completed and failed |
| Jobs.RemainingStep | src/queues/queue.config.ts:14-19 | every step of a job brings it nearer its end, no other action touches it, and a finished job takes none |
| Jobs.JobsTerminate | src/queues/queue.config.ts:14-19 | in no run does a job take more than eight steps |
| Jobs.JobsProgress | src/queues/queue.config.ts:14-19 | a job that is not over can always go on, at the latest when its backoff has passed; one that is over never moves |
| Jobs.Queue.AddJob | src/queues/crmSync.queue.ts:16-23 | adding a known job id changes nothing |
| Jobs.Queue.EndAttempt | src/queues/queue.config.ts:14-19 | success completes the job; the first and second failure delay it by 1 s and 2 s; the third fails it and raises the event; other jobs are untouched |
| Jobs.Queue.SendToDeadLetter | src/queues/queue.config.ts:24-40 | each terminal event becomes one dead letter |
| Crm.RunInv | src/services/crm.service.ts:22-88 | CRM fields, audit rows, webhook phases and sync jobs agree in every reachable state |
| Crm.RowsReplayWrites | src/services/enquiry.service.ts:190-197 | at any moment each row is what its own UPDATEs so far, in order, make of a fresh row |
| Crm.StatusOfLastWebhook | src/services/enquiry.service.ts:190-197 | an enquiry's status is that of the last applied webhook carrying one, else `new` |
| Crm.RecordOfLastWrite | src/services/enquiry.service.ts:190-197 | an enquiry's record and sync time are those of the last UPDATE made to it, whoever made it |
| Crm.CrmConfluence | src/services/crm.service.ts:56-88 | runs in which webhooks bring an enquiry the same statuses in the same order agree on its status, whatever the times, calls and records, and wherever and however often the worker wrote |
| Crm.RecordAndTimeTogether | src/services/enquiry.service.ts:190-197 | record and sync time are both null or both set, and set if and only if some UPDATE was made; a completed sync job leaves them set |
| Crm.WorkerWritesBounded | src/queues/crmSync.worker.ts:12-21 | the worker writes an enquiry at most three times, and at least once before its job completes |
| CrmAudit.AuditAppendOnly | migrations/001_init.sql:65-86 | audit rows are never changed or removed, and there is at most one per webhook |
| CrmAudit.ChangesAudited | src/controllers/webhook.controller.ts:15-35 | whatever changes an enquiry is the worker, leaving its status, or a webhook naming it whose audit row, marked correctly signed, is already there |
| CrmAudit.ForgedNeverApplied | src/controllers/webhook.controller.ts:28-36 | a wrongly signed webhook is never applied |
| CrmAudit.AppliedOnce | src/controllers/webhook.controller.ts:32-36 | each webhook call is applied at most once |
| CrmAudit.OkMeansApplied | src/controllers/webhook.controller.ts:32-38 | a 200 means that this call's UPDATE was made |
| CrmAudit.AnswersTrue | src/services/crm.service.ts:56-66 | 200 and 401 mean an audit row with the matching verdict; an unknown enquiry or a payload MySQL refuses gets 500; 404 is never answered; a call stopped earlier gets 400 from the schema, 429 from the limiter, 500 from the body parser or the limiter's store |
| CrmAudit.RecordedIff | src/controllers/webhook.controller.ts:15-26 | in every run an inbound call is on record if and only if it reached the controller, its enquiry existed then, MySQL could take its payload, and the insert took effect |
| CrmAudit.CastableIff | src/services/crm.service.ts:30 | MySQL takes the first 60000 characters of the payload text as JSON if and only if nothing is cut, at most 100 levels are nested and the strings can be stored |
| CrmAudit.StoredText | src/services/crm.service.ts:30 | the stored text is an object of the schema's fields, in its order and with the request's values, the optional ones when present |
| CrmAudit.UnrecordedRun | src/routes/webhook.routes.ts:8 | for every call that fails the condition though its enquiry exists, a run without errors that answers it and leaves the audit table empty |
| CrmAudit.UnrecordableExamples | src/validators/enquiry.validator.ts:40-46 | bodies that the schema lets through and the table does not take: any with a string of 60000 characters in its payload object, and 101 levels of brackets, for which 300 characters are enough |
| JsonText.CutIsNotJson | src/services/crm.service.ts:30 | no proper initial part of the text of a JSON object is the text of any JSON value |
| JsonText.NestingIsDepth | src/services/crm.service.ts:30 | counting brackets outside strings in the text of a value gives the depth of the value |
| CrmService.Service.MarkCrmSynced | src/services/enquiry.service.ts:190-197 | record and time always, status only when given, other rows and unknown ids untouched |
| CrmService.Service.LogWebhookEvent | src/services/crm.service.ts:22-36 | one audit row with verdict and label, or none and 500, the payload's cast to JSON included |
| CrmService.Service.CrmWebhookHandler | src/controllers/webhook.controller.ts:6-38 | for every outcome of each statement: the audit table, the row and the status code that result |
| CrmService.Service.PushEnquiryToCrm | src/services/crm.service.ts:76-88 | a record is returned only when stored, and may be stored though none is returned; it is `crm_`, the id, `_` and the moment |
| CrmService.RecordsDiffer | src/services/crm.service.ts:85 | no two enquiries, and no two moments, get the same record |
| CrmService.Service.ProcessJob | src/queues/crmSync.worker.ts:12-21 | one attempt completes the job if and only if the record was stored and acknowledged, else delays it by 1 s or 2 s or fails it; no status changes |
| CacheKeys.FamiliesDisjoint | src/services/wpGraphQL.service.ts:90-107 | no listing key is a slug key |
| CacheKeys.KeysDetermineArgs | src/services/wpGraphQL.service.ts:90-107 | two calls share a key if and only if their arguments agree up to no cursor against the cursor `start` |
| CacheKeys.KeyExamples | src/services/wpGraphQL.service.ts:90-107 | the keys as Redis sees them |
| CacheKeys.GlobElements | src/services/cache.service.ts:71 | what the pattern elements other than the star match |
| CacheKeys.LiteralPrefixGlob | src/services/cache.service.ts:70-71 | Redis matches a literal prefix followed by a star with exactly the strings that have the prefix |
| CacheKeys.PrefixGlobIff | src/services/cache.service.ts:70-71 | and does so only if the prefix has no metacharacter |
| CacheKeys.SlugPattern | src/services/wpGraphQL.service.ts:131-134 | the scan for a slug finds the slug's key if and only if the slug's own pattern matches the slug, which it does without metacharacters |
| CacheKeys.BracketedSlug | src/services/wpGraphQL.service.ts:131-134 | a slug for which it does not |
| CacheTruth.RunTrue | src/services/cache.service.ts:23-64 | every stored, carried and served value is what the upstream said for a key-equal call at a recorded moment |
| CacheTruth.Transparency | src/services/wpGraphQL.service.ts:89-122 | a response is what the fetcher returned for those same arguments at some earlier moment, the pair of colliding cursors excepted |
| CacheTruth.StalenessBound | src/services/cache.service.ts:29-63 | a value served at t was the upstream's at some moment later than t - (ttl + stale + d), if fetches take at most d from upstream read to cache write |
| CacheTruth.StartCursorCollides | src/services/wpGraphQL.service.ts:90 | a run in which a read with the cursor `start` is served the page without a cursor |
| CacheFetches.FetchesIff | src/services/cache.service.ts:31-51 | a read asks the upstream if and only if it found nothing younger than the ttl |
| CacheFetches.NoFetchUnlessOlderSet | src/services/cache.service.ts:31-63 | as long as no SET with an older stamp lands on an entry, no later read fetches before the entry is a ttl old, however many refreshes overlap |
| CacheFetches.NoFetchWhileFresh | src/services/cache.service.ts:31-63 | if every SET lands within w of its stamp, no read begun after a write fetches before ttl - w has passed, whatever overlaps |
| CacheOverlap.OlderSetShortensTtl | src/services/cache.service.ts:48-63 | for every w up to the ttl a run in which all SETs land within w and a later read fetches exactly ttl - w after a write |
| CacheFetches.FetchesSpaced | src/services/cache.service.ts:31-63 | when reads that fetch do not overlap and succeed, two fetches of a key start at least a ttl apart |
| CacheFetches.FetchBound | src/services/cache.service.ts:31-63 | so a span without invalidation has at most 1 + floor(span / ttl) fetches of a key |
| CacheOverlap.OverlappingReadsAllFetch | src/services/cache.service.ts:31-51 | from any state whose entry is absent, stale or too old, any number n of reads at that moment make n fetches |
| CacheOverlap.OverlapBreaksFetchBound | src/services/cache.service.ts:39-51 | so two overlapping misses, or two overlapping stale hits, exceed one fetch per ttl |
| CacheExpiry.ExpiryUnobservable | src/services/cache.service.ts:29-63 | if ttl + stale is at most six hours, every run has a twin over a store that never expires with the same responses and fetches at every point |
| CacheExpiry.EternalHasTwin | src/services/cache.service.ts:29-63 | and every run over a store that never expires has such a twin over the expiring one |
| CacheExpiry.ExpiryObservable | src/services/cache.service.ts:29-63 | and if it is more, a run has none: the same read is served by one store and waits for a fetch over the other |
| CacheExpiry.OutageTolerated | src/services/cache.service.ts:39-57 | when every fetch fails, the last good value stays and serves every later read whose own GET answers, until it is ttl + stale old; no read waits for the upstream before |
| CacheInvalidation.SweepClears | src/services/cache.service.ts:70-77 | after a delete that no matching read-and-fetch overlaps, nothing stored or under way can bring back what was read before it, and all other keys are kept |
| CacheInvalidation.InvalidationFresh | src/services/cache.service.ts:70-77 | if no matching read-and-fetch overlaps the sweep, all that is served later was read upstream after it |
| CacheInvalidation.InvalidationUntouched | src/services/cache.service.ts:70-77 | keys without the literal prefix are as before |
| CacheInvalidation.PropertyInvalidationFresh | src/services/wpGraphQL.service.ts:131-136 | after the two sweeps every response for the slug and for every listing is fresher than the sweep, if the slug's pattern finds the slug |
| CacheInvalidation.InvalidationMissesSlug | src/services/wpGraphQL.service.ts:131-134 | and if it does not, the old page stays in the cache |
| CacheInvalidation.OverlapUndoesInvalidation | src/services/cache.service.ts:48-77 | a run in which a fetch under way across the delete stores a page read before it, and a read begun after the delete is served it |
| CacheComeback.OldComesBack | src/services/cache.service.ts:29-63 | whenever an old value is still stored and young enough, or still carried by a fetch or read under way, the run can go on to serve it |
| CacheComeback.FreshExactly | src/services/cache.service.ts:29-77 | in every reachable state nothing read before t0 will ever be served for a prefix if and only if nothing stored or under way can bring it back |
| CacheMonotone.ReadsMonotone | src/services/cache.service.ts:29-63 | as long as no SET lands on a value read upstream later and nothing is deleted, a read that starts after another was served is served a value read no earlier |
| CacheMonotone.OlderReadGoesBack | src/services/cache.service.ts:48-63 | and where such a SET lands, both values fresh, two successive reads around it go back |
| CacheService.CacheService.Choose | src/services/cache.service.ts:31-51 | the age test is the protocol's decision: serve, serve and refresh, or fetch |
| CacheService.CacheService.SetEntry | src/services/cache.service.ts:59-63 | the SET overwrites the entry, and the caller is answered only when it is acknowledged |
| CacheService.CacheService.GetOrSetWithSWR | src/services/cache.service.ts:23-52 | a usable entry is served without the upstream, even in an outage; else the answer is the upstream's of now and is stored; a refresh starts exactly for a stale hit |
| CacheService.RealTimes | src/services/wpGraphQL.service.ts:92 | with 300 s and 600 s a read is served until 899999 ms, with a refresh behind it from 300000 ms on, and waits from 900000 ms on |
| CacheService.RealExpiry | src/services/cache.service.ts:63 | an entry is in Redis until 21599999 ms after its SET |
| CacheService.CacheService.InvalidateCacheByPrefix | src/services/cache.service.ts:70-77 | the loop over scan chunks deletes the stored keys that match and no others |
| CacheService.CacheService.InvalidatePropertyCache | src/services/wpGraphQL.service.ts:131-136 | no listing remains; the slug's page remains if and only if its pattern does not find it; nothing else is added, changed or lost |
| Pagination.ListEnquiries | src/services/enquiry.service.ts:143-188 | listed are exactly the rows with the wanted status, below the cursor, whose number of newer matching rows lies in the page's window; newest first, each with its own property's title; the next cursor, and the totals, 0 past the end |
| Pagination.WindowByRank | src/services/enquiry.service.ts:169-170 | an id is in a window of the ordered list if and only if its rank is |
| Pagination.RunQuery | src/services/enquiry.service.ts:146-177 | the query built by pushing clauses returns the page of the filtered list and the filtered count |
| Pagination.JoinLossless | migrations/001_init.sql:46-48 | under the foreign key the join neither drops nor repeats a row, and the window count is the filtered count |
| Pagination.DescendingUnique | src/services/enquiry.service.ts:169 | the order is determined: a strictly descending list is known by its members |
| Pagination.OffsetPagesComplete | src/services/enquiry.service.ts:161-187 | pages 1 to totalPages put together are the full filtered list |
| Pagination.PageEmptyIff | src/services/enquiry.service.ts:179-186 | a page is empty if and only if it lies past totalPages |
| Pagination.CursorPageSpec | src/services/enquiry.service.ts:154-170 | a cursor page is the top of what lies below the cursor, with nothing left out above its last row |
| Pagination.WalkTerminates | src/services/enquiry.service.ts:154-185 | a walk over a changing table ends within cursor + 1 requests |
| Pagination.WalkNoRepeats | src/services/enquiry.service.ts:154-185 | no id is returned twice, whatever is inserted, committed late or updated between requests |
| Pagination.WalkComplete | src/services/enquiry.service.ts:154-185 | every row below the starting cursor that is visible and matches throughout is returned |
| Pagination.WalkSound | src/services/enquiry.service.ts:154-185 | every returned row was visible and matched at its request |
| Pagination.UntouchedRowListedOnce | src/services/enquiry.service.ts:154-185 | a row committed before the walk and not updated meanwhile is returned exactly once, under any commits and updates of others |
| Pagination.WalkFixed | src/services/enquiry.service.ts:154-185 | on a table that stays put the walk is the rest of the list |
| Pagination.ModesAgree | src/services/enquiry.service.ts:143-188 | page 1 followed by the walk from its last id, all offset pages together, and the full list are equal |

## Left out

- FingerprintEquivalence: SHA-256 is a constructor, collision-free by construction. Lower-casing is an arbitrary mapping of single characters that agrees with ASCII and keeps white space; letters whose lower case is two characters or depends on their neighbours (a final sigma, also one before U+FEFF, which counts as white space) are not covered, nor is normalisation. The same holds for the members of `Text`.
- KeysDetermineArgs: `first` is an integer printed in decimal; the exponent form of numbers from 1e21 on and non-integers are not modelled. The same holds for property ids in the fingerprint.
- PrefixGlobIff: patterns and keys are compared by characters, where Redis compares bytes.
- StalenessBound: all processes read one clock; skew between machines is not modelled.
- InvalidateCacheByPrefix: the method sees a store that nobody else changes; in the runs of `Cache` others write between the chunks. There SCAN delivers every matching key that is stored from its start to its end, entries whose expiry has passed but which Redis still holds among them; Redis eviction is not modelled.
- RunRefinesRegistry: a failed ROLLBACK ends its session in the intake protocol; the case in which the session lives on is in `Transaction` and `TransactionRuns`. Waiting for a free connection is not modelled.
- DeadLettersMatchFailures: one worker process listens to each queue's events, as ecosystem.config.js configures; a second one would add a second dead letter per failure.
- JobsTerminate: recovery of stalled jobs and trimming of completed jobs by BullMQ are not modelled, so a job id is never forgotten.
- ModesAgree: `Math.ceil` of a quotient is integer division rounded up, which agrees with floating point below 2^53.
- RecordedIff: whether the body parser, the rate limiter and its store let a call through is an input, and so is MySQL's verdict on the strings of a body (key length, surrogates); a character is one unit of length, where JavaScript counts two outside the basic plane.
- CreateEnquiry: states the whole function when nothing interleaves; what holds under interleaving is stated over the runs of the protocol, whose actions the step methods are.
- InsertInTransaction: as CreateEnquiry.
- CrmWebhookHandler: as CreateEnquiry, over the runs of `Crm`.
- ProcessJob: as CreateEnquiry, over the runs of `Crm`.
- GetOrSetWithSWR: as CreateEnquiry, over the runs of `Cache`.
- InvalidatePropertyCache: as CreateEnquiry, over the runs of `Cache`.
- LateHandlerLetsSecondIn: time may pass between any two actions; before next() it is the reply to the claim that is on its way.
- AppliedOnce: a webhook that the CRM sends again is another call, applied again.
- User agent, IP address, source and the re-read of the inserted row carry no further property; the answer carries the id and the content.
- Events of the surroundings (a command to Redis or MySQL that fails, a crash, the passing of time, publishing a property) are actions of the protocols without a class method of their own; a crash ends one call at a time. A command that the Redis client sends again after a lost reply is not modelled: a SET NX refused by its own first copy would let a call be refused on its own claim.
- An exception from the async idempotency middleware is modelled as: refused or faulted, and the handler is not run. What Express then does with the open request is not modelled.
- Zod schemas are reduced to what the proofs need: no bar in an address, positive ids, page and limit ranges, an optional status. Sanitising, rate limits, headers, logging and metrics other than the two enquiry counters are left out.
- HMAC comparison is the verdict `valid` on a webhook request.
- Cached values and payloads are their JSON text; serialisation is not modelled.
- getEnquiryById, invalidateCache, email templates, health routes, start-up and shutdown: only easy members.

# Verified models of the listing platform's stateful core

This project models, in Dafny, the parts of the backend whose correctness depends on state, interleaving or
arithmetic, and proves what they keep over every run or every input: the Postgres job queue and its workers,
refresh-token families, the token-bucket rate limiter, the UUIDv7 generator, the submission workflow, the guarded
HTTP client, publisher scoring and qualification, and domain canonicalisation.

`dafny verify dfyconfig.toml` checks all of it.

## How the project is laid out

Code that works by changing state is a class or a method with loops, proved against a specification function; the
properties of the whole system are lemmas about runs of that function. Where the source computes a value, the model
is a function. The `Laws` files and `JobTimes.dfy` say what the operations do in terms of rows, logs, replies and
figures alone, so they do not lean on the specification functions they are about.

| files | subject |
|---|---|
| `Prelude.dfy`, `Text.dfy` | optional values, results, powers of two; ASCII text |
| `Ids.dfy` | the monotonic generator, the 128-bit layout (sections 5.7 and 6.2 of RFC 9562) |
| `RateLimit.dfy`, `RateLimitLaws.dfy` | buckets, refill, the two evictions, the unbounded limiter they refine; what an answer promises |
| `JobQueue.dfy`, `JobRuns.dfy`, `JobTimes.dfy` | the jobs table and one worker; any number of workers, interleaved; when they act |
| `Sessions.dfy`, `SessionLaws.dfy` | the sessions table, its requests and their transaction; what each request of a run does |
| `Workflows.dfy`, `Submissions.dfy` | the declared tables and the service |
| `SubmissionRuns.dfy`, `SubmissionLaws.dfy` | runs of its calls; what each call makes of a row and its opportunity |
| `HttpClient.dfy`, `HttpRuns.dfy`, `HttpLaws.dfy` | retries inside redirects (section 15.4 of RFC 9110); the log of a request, as a whole and event by event |
| `Scoring.dfy`, `Qualification.dfy`, `QualificationLaws.dfy` | scores and thresholds; building, storing and re-using the evidence; from crawl to row |
| `Domains.dfy`, `DomainLaws.dfy` | canonical domain, canonical URL, registrable domain, and why they agree |

## Conventions

- Clocks, random bits, network replies, crawl and provider outcomes, the row locks of other transactions and the
  answers of URL joining and address classification are parameters. A result holds for all of them.
- Time and scores are reals; floating-point rounding is not modelled, the two-decimal rounding of scores is.
- A request to the session or submission service is served whole before the next one; a worker is not, its claim,
  each recorded outcome and each sweep are separate steps.
- The database's constraints that matter (the partial unique index and the approval check on submissions) are a
  guard on every write.

## What the proofs found

- **Jobs.** `attempts <= max_attempts` is not an invariant, because the stale sweep ignores attempts. The bound that
  holds counts requeues (`ClaimBound`) and is attained (`AttemptsCanExceedLimit`). Attempts stay within the limit
  exactly as long as no sweep returns a job that has none left (`RoomKeptExactlyWhen`). Ownership is kept exactly when
  no sweep takes a job from a worker that still holds it (`OwnershipKeptExactlyWhen`); a finished job goes back to
  pending exactly when such a worker records a late failure below the limit (`TerminalLeftExactlyWhen`,
  `LateFailureRevivesFinishedJob`). The backoff is time that passes: no claim comes before it is over
  (`RetryIsHeldBack`), and all of it lies between a job's first run time and its end (`BackoffIsWaited`).
- **Rate limiter.** Forgetting stale buckets is unobservable in every run exactly when the evicting callers' window is
  at least as long as the window of the key (`UnobservableExactlyWhen`); otherwise a run tells the two limiters apart
  (`ForgottenTooSoon`).
- **Submissions.** Only `update` clears an approval, and only in PENDING_APPROVAL. Words and approval fall apart
  exactly when an edit changes the words of an approved row that is back in READY or IN_PROGRESS
  (`AgreementKeptExactlyWhen`, `UnreviewedCopyCanBeSent`); short of that, what is sent is what was approved
  (`WhatIsSentWasReviewed`). Retrying a failed submission in place, beside a live one, is the only write the unique
  index ever rejects (`GuardTripsExactlyWhen`, `RetryCanTripTheIndex`). A submission published, or failed, by its
  first execution leaves a READY opportunity READY, because its table has no such edge (`OpportunityFollows`).
- **HTTP.** The loop's defensive `else` is reachable, exactly for a negative retry budget, and the stored error it
  would re-raise is then never set (`NoResponseExactlyWhen`, `TryHop`).
- **Scoring.** Stored weights may be negative. A spam signal can then turn a rejection into a pass, through negative
  points (`NegativePointsRewardSpam`) or through a negative spam weight (`NegativeSpamWeightRewardsSpam`).
  `SpamNeverHelpsExactlyWhen` says exactly when it cannot, for every weighting with positive mass: the spam points
  count, and a spam weight that is negative, beside points that cost something, moves no publisher free of hard
  rejections even at a full spam score. The combined score can also exceed every component
  (`NegativeWeightExceedsComponents`); exactly when is `AverageStaysBelowExactlyWhen` before rounding, and after it
  `OpportunityStaysBelowExactlyWhen` over all component scores and `MixStaysBelowExactlyWhen` over all publishers and
  all points beside the same four weights.
- **Qualification.** A re-score from stored signals reproduces them exactly when a path was found, or free was not
  claimed, or the row already says FREE; in the remaining case it drops the free claim
  (`RescoreReproducesEvidenceExactlyWhen`, `FreeClaimCanBeLost`). The comment in the source says pricing is only ever
  tightened; the code sets FREE, from any earlier value including PAID, exactly when a live crawl saw no payment, a
  free listing and a path (`PricingLoosensExactlyWhen`, `PaidCanBecomeFree`).
- **Domains.** A `www.` prefix that pushes a host over 253 characters is refused although the same host without it is
  accepted (`EverySpellingIsCanonical`). A bare form with `//` in it is read as what the first `//` leads to
  (`DoubleSlashWins`, `BareQueryCanChangeTheName`), or refused when it is a host with a port, which reads as a scheme
  (`PortBeforeSlashesIsRefused`); it keeps its domain exactly when that is the same one (`BareSlashesKeepExactlyWhen`).

## Model

| member | source | states |
|---|---|---|
| Ids.ReachableIsValid | backend/app/core/ids.py:39-57 | after any readings the counter fits 12 bits and the timestamp is at least the largest reading |
| Ids.StrictlyIncreasing | backend/app/core/ids.py:39-57 | (timestamp, counter) pairs strictly increase over any two calls, even when the clock runs backwards |
| Ids.DriftBound | backend/app/core/ids.py:49-57 | the stored timestamp is at most the largest reading plus (n - 1) / 3073 after n calls |
| Ids.DriftBoundIsAttained | backend/app/core/ids.py:49-57 | a stopped clock with the worst seed reaches that bound exactly, for every n |
| Ids.OrDisjoint | backend/app/core/ids.py:78-86 | or-ing a value into the zero bits below a shifted one is addition, on unbounded integers |
| Ids.AndMask | backend/app/core/ids.py:72-86 | masking with 2^k - 1 is the remainder by 2^k |
| Ids.AssembleSum | backend/app/core/ids.py:72-86 | the shifted ors build exactly the six-field layout of section 5.7 of RFC 9562 |
| Ids.PackingIsLossless | backend/app/core/ids.py:72-86 | below 2^128, version 7, variant 10, and timestamp, counter and random field are read back exactly |
| Ids.PackingIsOnto | backend/app/core/ids.py:72-86 | every 128-bit value with those marks is the packing of its own fields, so the packing is a bijection |
| Ids.OrderIsPreserved | backend/app/core/ids.py:60-86 | a smaller (timestamp, counter) pair gives a smaller identifier whatever the random bits |
| Ids.IdsStrictlyIncrease | backend/app/core/ids.py:39-86 | whole identifiers of successive calls strictly increase for any clock and any entropy, timestamps below 2^48 |
| Ids.TimestampInverts | backend/app/core/ids.py:89-93 | decoding accepts exactly version 7 values and returns the timestamp that was packed |
| Ids.IdSource.NextMonotonic | backend/app/core/ids.py:39-57 | the new state is the specified one and is returned; it is larger than the old one |
| Ids.IdSource.Uuid7 | backend/app/core/ids.py:60-86 | the packed identifier, or the range error; an explicit timestamp leaves the generator alone |
| RateLimit.MapStaysBounded | backend/app/core/rate_limit.py:78-88 | the number of buckets never exceeds the ceiling in any reachable state (one bucket when the ceiling is below one) |
| RateLimit.SpendStep | backend/app/core/rate_limit.py:71-105 | what one event grants a key is covered by its level, the refill, and a refund if its bucket was shed early |
| RateLimit.GrantBound | backend/app/core/rate_limit.py:71-125 | over any stretch, grants to a key are at most L * (1 + sheds and resets) + T * L / W |
| RateLimit.RetryHintIsHonest | backend/app/core/rate_limit.py:86-105 | after a denial and the hinted wait, the next call is granted, however many denied calls came between |
| RateLimit.RetryCoversDeficit | backend/app/core/rate_limit.py:93-105 | the rounded-up hint is long enough for the missing part of a token |
| RateLimitLaws.RetryHintIsTight | backend/app/core/rate_limit.py:86-105 | a call more than one second before the hinted time is denied again, so no shorter hint in whole seconds would do |
| RateLimitLaws.RemainingIsWhatIsLeft | backend/app/core/rate_limit.py:91-105 | of the calls a key makes at the instant of a grant, exactly the next `remaining` are granted, each naming one less, and all later ones are denied with none remaining |
| RateLimitLaws.NewKeyGetsItsLimit | backend/app/core/rate_limit.py:77-97 | a key without a bucket is granted exactly its limit of calls at one instant |
| RateLimitLaws.EvictionTakesExactly | backend/app/core/rate_limit.py:77-84 | only a new key at the ceiling evicts, and then exactly the buckets untouched for its window, or, if there are none, a tenth of all, the longest untouched first |
| RateLimit.AnswersAreIdeal | backend/app/core/rate_limit.py:71-125 | a key whose bucket is never dropped before a window of its own has passed is answered exactly as by a limiter that never forgets |
| RateLimit.EvictionIsUnobservable | backend/app/core/rate_limit.py:111-125 | with a quota per key, and no stale eviction by a caller with a shorter window than the dropped key's, every answer equals that of a limiter that never forgets, up to the first oldest-tenth shed |
| RateLimit.UnobservableExactlyWhen | backend/app/core/rate_limit.py:117-120 | among callers with two windows, a key's answers, and its bare grants and denials, are the unbounded limiter's in every run without a shed if and only if the others' window is at least the key's own |
| RateLimit.ForgottenTooSoon | backend/app/core/rate_limit.py:117-120 | for every quota and every shorter window, a legal run whose last call is granted although the unbounded limiter denies it |
| RateLimit.PrefixIsOldest | backend/app/core/rate_limit.py:121-125 | the first tenth of the keys sorted by age is a set the oldest-tenth rule allows |
| RateLimit.SortedByAge | backend/app/core/rate_limit.py:121-125 | all keys, each once, oldest bucket first |
| RateLimit.InMemoryRateLimiter.Acquire | backend/app/core/rate_limit.py:71-105 | the new map and the answer are those of the specified step, for some shed set the rule allows |
| RateLimit.InMemoryRateLimiter.EvictStale | backend/app/core/rate_limit.py:111-125 | removes exactly the stale buckets, or, when none is stale, an oldest tenth |
| RateLimit.InMemoryRateLimiter.ResetKey | backend/app/core/rate_limit.py:107-109 | forgets the key's bucket and no other |
| JobQueue.PicksUnique | backend/app/repositories/jobs.py:60-68 | due, unlocked rows in order, up to the batch size: the candidate query has exactly one answer |
| JobQueue.JobClaimRepository.Candidates | backend/app/repositories/jobs.py:60-68 | returns that answer |
| JobQueue.JobClaimRepository.Claim | backend/app/repositories/jobs.py:53-87 | exactly the picked rows become RUNNING with one more attempt, one shared start time and the worker's name |
| JobQueue.JobClaimRepository.MarkSucceeded | backend/app/repositories/jobs.py:89-93 | the row is finished and its error cleared; no other row changes |
| JobQueue.JobClaimRepository.MarkFailed | backend/app/repositories/jobs.py:95-111 | FAILED at the limit, else PENDING after base * 2^(attempts - 1) seconds; no other row changes |
| JobQueue.JobClaimRepository.RequeueStale | backend/app/repositories/jobs.py:113-134 | every stale running row becomes pending with attempts kept, no other row changes, and the count is right |
| JobQueue.Worker.Finish | backend/app/workers/runner.py:167-191 | records the outcome on the row as it is then; a permanent error uses up all attempts; a deleted row is left alone |
| JobQueue.Worker.RunJob | backend/app/workers/runner.py:109-165 | the handler's outcome is recorded once, as success, failure or permanent failure |
| JobQueue.Worker.Tick | backend/app/workers/runner.py:73-107 | sweep, claim, then one outcome after another in batch order |
| JobRuns.TickIsARun | backend/app/workers/runner.py:73-107 | the tick's effect is that of its transactions taken as steps of the interleaved system |
| JobRuns.InvRun | backend/app/repositories/jobs.py:53-134 | every reachable state keeps locks disjoint and claims paid for by attempts or requeues |
| JobRuns.ClaimBound | backend/app/repositories/jobs.py:53-134 | in every interleaving a job is claimed at most max_attempts plus its requeues times; attempts obey the same bound |
| JobRuns.ClaimsAreDisjoint | backend/app/repositories/jobs.py:60-68 | claims in progress at the same time never cover the same row |
| JobRuns.NoWorkIsLost | backend/app/repositories/jobs.py:113-134 | a running job past its time is pending again after the next sweep, with attempts and due time unchanged |
| JobTimes.ClaimTakesOnlyDueJobs | backend/app/repositories/jobs.py:60-68 | in any run a claim takes only PENDING rows whose run_at has come and that nobody has locked, each once, at most a batch, the longest due first |
| JobTimes.DueJobIsClaimed | backend/app/repositories/jobs.py:60-68 | a due, unlocked job is passed over only by a full batch of jobs due before it, ties by id |
| JobTimes.SweepTakesExactlyWhen | backend/app/repositories/jobs.py:113-134 | a sweep changes a running job if and only if it started before now less the timeout, puts it back to PENDING with attempts and run_at kept, and never changes any other job |
| JobTimes.RetryIsHeldBack | backend/app/repositories/jobs.py:62-111 | after a failure at time t on the n-th attempt, with attempts left, no claim takes the job before t + base * 2^(n - 1), whatever sweeps and workers do, until another outcome is recorded |
| JobTimes.OutcomesAreNumbered | backend/app/repositories/jobs.py:72-111 | while a job was never requeued or failed for good, its attempts number its recorded outcomes, so the n-th failure is on the n-th attempt |
| JobTimes.BackoffIsWaited | backend/app/repositories/jobs.py:62-111 | when no clock runs backwards, a job that ended on its n-th attempt, without a requeue or a permanent error, ended at least base * (2^(n - 1) - 1) seconds after its first run_at |
| JobTimes.ClaimStartsItsJobs | backend/app/repositories/jobs.py:72-87 | a committed claim starts exactly the jobs it locked, one attempt on, under its worker and one start time |
| JobTimes.OutcomeIsRecorded | backend/app/workers/runner.py:167-191 | SUCCEEDED exactly on success, FAILED exactly on a failure with no attempt left or no handler, else PENDING and unstarted |
| JobTimes.ErrorIsKept | backend/app/workers/runner.py:109-191 | the error kept is the failure's own, cut to 2000 characters, and none after success |
| JobRuns.OwnershipKeptExactlyWhen | backend/app/repositories/jobs.py:53-134 | a step keeps a job with one owner, running for it, if and only if it is no sweep taking the job from a holder |
| JobRuns.SweepIsSafeExactlyWhen | backend/app/repositories/jobs.py:113-134 | a sweep keeps every job so owned if and only if it takes none from a holder |
| JobRuns.OneOwner | backend/app/workers/runner.py:83-107 | a job no sweep took from a holder has one owner and is RUNNING while held, whatever happened to other jobs |
| JobRuns.TerminalRowsAreFinal | backend/app/repositories/jobs.py:89-111 | such a job's SUCCEEDED or FAILED row never changes again |
| JobRuns.TerminalLeftExactlyWhen | backend/app/repositories/jobs.py:95-111 | in any reachable state a step takes a job out of SUCCEEDED or FAILED if and only if it records a late, non-permanent failure below the limit |
| JobRuns.AttemptsStayWithinLimit | backend/app/repositories/jobs.py:60-111 | in any run, a job never requeued has one holder at most, sees at most max_attempts claims and twice that many claims and outcomes, and stays within its limit |
| JobRuns.RoomKeptExactlyWhen | backend/app/repositories/jobs.py:113-134 | a step takes a job out of its limit, at once or at its next claim, if and only if it is a sweep returning a job with no attempt left |
| JobRuns.AttemptsStayWithinLimitIfSpared | backend/app/repositories/jobs.py:113-134 | in any run whose sweeps spare the job once it is spent, attempts never exceed the limit, however often it is requeued |
| JobRuns.TotalBackoff | backend/app/repositories/jobs.py:95-111 | in any run, a job failing every attempt without a requeue or a permanent error is delayed base * (2^(max_attempts - 1) - 1) seconds in all |
| JobRuns.AttemptsCanExceedLimit | backend/app/repositories/jobs.py:113-134 | a concrete run in which a requeue takes attempts past the limit, attaining the bound |
| JobRuns.LateFailureRevivesFinishedJob | backend/app/workers/runner.py:167-191 | a concrete run in which a late failure takes a finished job back to pending |
| Sessions.OneLiveRowPerFamily | backend/app/auth/service.py:264-390 | in every run each family has at most one unrevoked row, and it is the newest of the family |
| Sessions.RotatedOnce | backend/app/auth/service.py:304-390 | a refresh token rotates at most once; presented again it is answered as a replay |
| Sessions.DeadStaysDead | backend/app/auth/service.py:528-541 | a family without an unrevoked row never gets one again, through password changes included |
| Sessions.ReplayKillsForGood | backend/app/auth/service.py:316-343 | a replay fails, yet its family is dead from then on, because the revocation was committed before the raise |
| Sessions.IssuedSessionIsTheLiveOne | backend/app/auth/service.py:167-390 | a session issued by login or refresh is the only live one of its family and is scoped only to a workspace its user is a member of |
| Sessions.SignOutRevivesNothingExactlyWhen | backend/app/auth/service.py:528-541 | un-revoking the current session revives nothing if and only if that session was live |
| Sessions.ServeKeeps | backend/app/auth/service.py:264-541 | every request keeps the invariant, revives nothing, and extends only live families |
| SessionLaws.RefreshGrantedExactlyWhen | backend/app/auth/service.py:304-354 | in any run a refresh is granted if and only if the token is that of an unrevoked row that expires later than now and whose user is known and active |
| SessionLaws.RefreshEffect | backend/app/auth/service.py:316-376 | a revoked row's token kills the family, an expired one changes nothing, an inactive user ends the family, and otherwise row and successor are as listed: same user and family, new digest and expiry, workspace kept only with the membership |
| SessionLaws.TokenDiesAtExpiry | backend/app/auth/service.py:304-376 | the token drawn by a login or refresh is never accepted at or after the expiry it was given, whatever happens in between |
| SessionLaws.LoginEffect | backend/app/auth/service.py:139-283 | a login is granted exactly for the right password of an active user and a workspace that may be entered, with the other refusals in order; it only adds the new session |
| SessionLaws.OnlyMembershipIsEntered | backend/app/auth/service.py:206-228 | without a request, the new session gets a workspace if and only if it is open and the user's only one |
| SessionLaws.RevokedBearerStaysRefused | backend/app/api/dependencies/auth.py:61-119 | once a session is revoked, every later request with its access token is refused and changes nothing |
| SessionLaws.LogoutEnds | backend/app/auth/service.py:404-441 | a logout revokes exactly the live sessions it names (all of the user's, the family of an own token, or the own family) and answers how many rows that changed |
| SessionLaws.RevocationEnds | backend/app/auth/service.py:443-451 | a revocation ends exactly the live sessions of an own target's family, and nothing of anyone else's |
| SessionLaws.SwitchEffect | backend/app/auth/service.py:458-494 | granted exactly to a member of an open workspace; only the own session's workspace changes |
| SessionLaws.PasswordChangeEnds | backend/app/auth/service.py:496-549 | granted exactly for the right old and a strong, different new password; revokes exactly the user's other live sessions if asked to, and answers how many |
| Sessions.RequestSession.GetByTokenHash | backend/app/repositories/sessions.py:26-35 | finds the row with the digest, exactly when there is one |
| Sessions.RequestSession.Revoke | backend/app/repositories/sessions.py:57-61 | marks that row revoked, with reason and time, and no other |
| Sessions.RequestSession.RevokeFamily | backend/app/repositories/sessions.py:63-76 | marks exactly the family's unrevoked rows and counts them |
| Sessions.RequestSession.RevokeAllForUser | backend/app/repositories/sessions.py:78-86 | marks exactly the user's unrevoked rows and counts them |
| Sessions.RequestSession.LoginUser | backend/app/auth/service.py:139-283 | the pending tables and the answer are the specified ones for every refusal and for success |
| Sessions.RequestSession.RefreshToken | backend/app/auth/service.py:304-390 | rotation, or a refusal; the two refusals that revoke a family have already committed it |
| Sessions.RequestSession.LogoutUser | backend/app/auth/service.py:404-441 | all sessions, the presented token's family, or the current session's family, with the count |
| Sessions.RequestSession.SwitchTenant | backend/app/auth/service.py:458-494 | only an active member of an open workspace, on an own live session, switches it |
| Sessions.RequestSession.ChangeUserPassword | backend/app/auth/service.py:496-549 | the new password, and the other sessions signed out with the current one put back |
| Sessions.RequestSession.GetPrincipal | backend/app/api/dependencies/auth.py:61-119 | a bearer is let in exactly when the session is the user's own and live and the user is active |
| Sessions.RequestSession.Handle | backend/app/api/dependencies/db.py:27-45 | after commit or rollback the committed tables are exactly what the specification says the request leaves |
| SubmissionWorkflow.TerminalReachesOnlyItself | backend/app/submissions/workflow.py:31-55 | no walk along the table leaves VERIFIED or REJECTED |
| SubmissionWorkflow.GateIsTheOnlyWay | backend/app/submissions/workflow.py:31-62 | every walk into a gated status crosses PENDING_APPROVAL to SUBMITTED |
| Submissions.SubmissionService.CreateSubmission | backend/app/submissions/service.py:88-165 | the new row, or the refusal, in the source's order of checks |
| Submissions.SubmissionService.UpdateSubmission | backend/app/submissions/service.py:226-270 | the edited row; a change to a row awaiting approval sends it back and clears the approval |
| Submissions.SubmissionService.TransitionSubmission | backend/app/submissions/service.py:272-302 | the requested edge, if the table and the gate allow it |
| Submissions.SubmissionService.PrepareForReview | backend/app/submissions/service.py:304-328 | through IN_PROGRESS to PENDING_APPROVAL, only with a title |
| Submissions.SubmissionService.ApproveSubmission | backend/app/submissions/service.py:330-370 | both approval fields are set, on a row awaiting approval only |
| Submissions.SubmissionService.ExecuteSubmission | backend/app/submissions/service.py:372-485 | one provider call with the row's words, then the row and the opportunity its reply calls for |
| Submissions.SubmissionService.VerifySubmission | backend/app/submissions/service.py:517-602 | VERIFIED, or VERIFICATION_PENDING or unchanged with the reason kept |
| Submissions.SubmissionService.DeleteSubmission | backend/app/submissions/service.py:604-615 | the row is gone and no other is |
| SubmissionRuns.EveryCallFollowsTheTable | backend/app/submissions/service.py:226-602 | the net status change of every call, direct writes included, is a walk along the declared table |
| SubmissionRuns.GuardTripsExactlyWhen | backend/app/models/submissions.py:40-46 | the database's guard rejects a write if and only if it retries a failed submission in place beside a live one |
| SubmissionRuns.RetryCanTripTheIndex | backend/app/models/submissions.py:40-46 | a concrete reachable table in which that retry is rejected and nothing is written |
| SubmissionRuns.InvRun | backend/app/submissions/service.py:88-615 | every reachable table has whole approvals and one live submission per opportunity |
| SubmissionRuns.GateHolds | backend/app/submissions/workflow.py:57-62 | a gated status carries both approval fields in every reachable table |
| SubmissionRuns.OneLiveSubmission | backend/app/repositories/submissions.py:29-41 | at most one live submission per opportunity in every reachable table |
| SubmissionRuns.TerminalIsFinal | backend/app/submissions/workflow.py:31-55 | no call changes the status of a VERIFIED or REJECTED row |
| SubmissionRuns.OpportunityMovesOneEdge | backend/app/submissions/service.py:493-515 | only an execution moves an opportunity, its own, by at most one edge of the opportunity table |
| SubmissionRuns.WhatIsSentWasReviewed | backend/app/submissions/service.py:372-403 | in any run, unless its words were edited behind their approval and not approved again, a submission handed to a provider is approved, carries the words last approved, and its publisher is FREE then |
| SubmissionRuns.AgreementKeptExactlyWhen | backend/app/submissions/service.py:226-270 | from words and approvals in agreement, a call breaks the agreement if and only if it is an edit that changes the words of an approved row in READY or IN_PROGRESS |
| SubmissionRuns.UnreopenedIsSeen | backend/app/submissions/service.py:272-302 | if the generic transition never sends an approved row back to READY or IN_PROGRESS, no run has such an edit |
| SubmissionRuns.UnreviewedCopyCanBeSent | backend/app/submissions/service.py:272-302 | a concrete run that reopens, edits and sends an unapproved title |
| SubmissionLaws.SendsExactlyWhen | backend/app/submissions/service.py:372-403 | an execution calls the provider, once, if and only if the row awaits sending, is approved, and its publisher is FREE |
| SubmissionLaws.WhatIsHandedOver | backend/app/submissions/service.py:390-403 | the provider gets the row's target and words, the caller's address or the row's, by form only for form rows |
| SubmissionLaws.ReplyDecidesTheRow | backend/app/submissions/service.py:405-470 | FAILED if and only if the reply is broken, SUBMITTED (by hand) if and only if it is blocked, PUBLISHED if and only if neither and live or marked, else VERIFICATION_PENDING; with the times, method and address each leaves |
| SubmissionLaws.FailureIsRecorded | backend/app/submissions/service.py:435-449 | a broken reply leaves nothing changed but the status and the reason, cut to 500 characters; no other reply writes a reason |
| SubmissionLaws.ExecutionKeepsTheApproval | backend/app/submissions/service.py:372-485 | approval, words, target and opportunity survive every execution, and no other row changes |
| SubmissionLaws.NotesGrow | backend/app/submissions/service.py:405-456 | notes keep what was there and gain exactly the blocked reason or the caller's note |
| SubmissionLaws.OpportunityFollows | backend/app/submissions/service.py:472-515 | a READY opportunity becomes SUBMITTED exactly when the row is SUBMITTED or awaits verification, and stays READY even when the row is PUBLISHED; a SUBMITTED one follows to PUBLISHED or FAILED; no other moves |
| SubmissionLaws.VerifiedExactlyWhenFound | backend/app/submissions/service.py:517-602 | a verification ends VERIFIED if and only if the live check, or without one the person, found the link; otherwise the row goes on waiting, or stays PUBLISHED, with the reason kept |
| SubmissionLaws.EditCostsTheApproval | backend/app/submissions/service.py:226-270 | an edit that alters anything on a row awaiting approval clears the approval; no other edit touches status or approval |
| SubmissionLaws.ReviewKeepsTheWords | backend/app/submissions/service.py:304-370 | review is asked for only with a title, approval given only to a waiting row, and neither changes the words |
| SubmissionLaws.CreatedExactlyWhen | backend/app/submissions/service.py:88-139 | created if and only if the opportunity is selected or ready, its publisher FREE, and it has no live submission |
| SubmissionLaws.WordsOfANewSubmission | backend/app/submissions/service.py:141-165 | the caller's words, else the approved draft's, and the suggestions only without a draft |
| SubmissionLaws.TransitionExactlyWhen | backend/app/submissions/service.py:272-302 | granted if and only if the table has the edge, a gated target has an approval, and no live rival stands beside a revived row; only status and a failure's reason change |
| HttpClient.ReadBody | backend/app/core/http_client.py:259-285 | the body exactly when declared and delivered sizes stay within the cap; never more than cap plus one chunk in memory |
| HttpClient.SafeHttpClient.SendOnce | backend/app/core/http_client.py:237-285 | one send, and the reply or error it is read as; a body that does not decode is an error of its own, which no arm of the loop catches |
| HttpClient.SafeHttpClient.AssertSafeUrl | backend/app/core/http_client.py:287-304 | scheme, host and address checks in order |
| HttpClient.SafeHttpClient.SleepBackoff | backend/app/core/http_client.py:306-312 | one pause of the specified length |
| HttpClient.SafeHttpClient.NextHop | backend/app/core/http_client.py:213-227 | where an answer leads, with 301, 302 and 303 turning anything but HEAD into a bodyless GET |
| HttpClient.SafeHttpClient.TryOnce | backend/app/core/http_client.py:191-229 | one turn of the inner loop pauses for the next try, ends the request, or moves it on, as specified |
| HttpClient.SafeHttpClient.TryHop | backend/app/core/http_client.py:189-233 | the inner loop ends or moves the specified request; there is never an earlier error to re-raise |
| HttpClient.SafeHttpClient.Perform | backend/app/core/http_client.py:162-233 | the nested loops terminate with the log and result of the step specification, for every oracle |
| HttpRuns.BackoffBounds | backend/app/core/http_client.py:306-312 | every pause lies between half its base and its base: at most 30 seconds, 8 without a Retry-After |
| HttpRuns.EffortIsBounded | backend/app/core/http_client.py:183-233 | at most (budget + 1) * (max redirects + 1) sends, 30 * budget * (max redirects + 1) seconds asleep, one hop when redirects are off |
| HttpRuns.SendBoundIsAttained | backend/app/core/http_client.py:183-233 | for every budget and redirect limit some server makes the client use every send |
| HttpRuns.EverySendIsSound | backend/app/core/http_client.py:183-233 | every URL sent was found safe in its own hop, follows the redirects so far, and carries the original method and body exactly when no earlier 301, 302 or 303 rewrote them |
| HttpRuns.NoResponseExactlyWhen | backend/app/core/http_client.py:230-233 | the loop's else arm decides the result if and only if the budget is negative and the first URL is safe |
| HttpRuns.ResultIsExplained | backend/app/core/http_client.py:183-233 | a result is the last reply; retryable outcomes surface only after budget + 1 tries, redirects only when not followed, the redirect error only at the limit |
| HttpLaws.OnlyAllowedHostsAreContacted | backend/app/core/http_client.py:287-304 | for every server, each request sent, redirected or not, goes to an http or https URL with a host, and to a public host if the client insists |
| HttpLaws.UnsafeRequestIsNeverSent | backend/app/core/http_client.py:287-304 | a first URL that breaks one of the three sends nothing and ends in that error, scheme before host before address |
| HttpLaws.UnsafeRedirectIsTheEnd | backend/app/core/http_client.py:188-229 | after a redirect to such a URL nothing more is checked, sent or awaited, and the request ends in its error |
| HttpLaws.EveryEventIsEarned | backend/app/core/http_client.py:183-312 | each check, send, pause and redirect in the log is justified by what came before: a pause follows a reply worth retrying within the budget and has its exact length (Retry-After up to 30 seconds, else a quarter second doubled each try up to 8, with jitter), a redirect is the server's, within the limit |
| HttpLaws.ResultIsWhatTheWireSaid | backend/app/core/http_client.py:183-285 | the result is the last reply: a whole answer within the cap, or the error that reply was; a reply worth retrying is final only when the budget is used up |
| HttpLaws.MethodIsKeptExactlyWhen | backend/app/core/http_client.py:223-227 | method and body are the caller's unless a 301, 302 or 303 came before and the method is not HEAD in any case; then GET without a body |
| Scoring.RoundingLaws | backend/app/publishers/scoring.py:168-170 | rounding keeps order, moves nothing more than half a hundredth, and fixes hundredths |
| Scoring.ScoreQuality | backend/app/publishers/scoring.py:173-201 | the clamped sum of the earned quality points |
| Scoring.ScoreRelevance | backend/app/publishers/scoring.py:204-225 | the clamped sum of capped keyword points and the earned match points |
| Scoring.ScoreSpam | backend/app/publishers/scoring.py:228-243 | the clamped product of signal count and points, plus the link-farm penalty above 300 links |
| Scoring.FindHardRejections | backend/app/publishers/scoring.py:256-275 | the findings in order; empty exactly when the publisher is not hard rejected |
| Scoring.ScorePublisher | backend/app/publishers/scoring.py:278-318 | all scores, or the error exactly when the positive weights have no mass |
| Scoring.ScoresAreInRange | backend/app/publishers/scoring.py:168-170 | for every weighting, negative ones included, all five scores are hundredths between 0 and 100 |
| Scoring.OpportunityIsBetween | backend/app/publishers/scoring.py:289-301 | never above the best positive component and, without spam, never below the worst, after rounding |
| Scoring.OnlyTheMixMatters | backend/app/publishers/scoring.py:289-301 | scaling the three positive weights together changes nothing |
| Scoring.ScoresFollowEvidence | backend/app/publishers/scoring.py:173-330 | with non-negative weights every score moves with the evidence |
| Scoring.WorseEvidenceNeverPasses | backend/app/publishers/scoring.py:321-330 | no worsening of the evidence turns a failing result into a passing one |
| Scoring.OneFaultNeverHelps | backend/app/publishers/scoring.py:321-330 | in particular one more spam signal, or losing reachability, TLS, the submission path or indexability |
| Scoring.HardRejectionsAreExactlyTheFinalOnes | backend/app/publishers/scoring.py:256-275 | a publisher fails under every weighting and every threshold if and only if it is hard rejected |
| Scoring.SpamNeverFallsExactlyWhen | backend/app/publishers/scoring.py:228-243 | one more spam signal lowers no site's spam score if and only if signal points are not negative or the link-farm penalty rounds to nothing |
| Scoring.SpamNeverHelpsExactlyWhen | backend/app/publishers/scoring.py:321-330 | for every weighting with positive mass, one more signal turns no failure into a pass under any thresholds if and only if the spam points count and either the spam weight or the signal points reward nothing, or no publisher free of hard rejections scores higher at full spam than at none |
| Scoring.NegativeSpamWeightRewardsSpam | backend/app/publishers/scoring.py:84-93 | under a negative spam weight, with points that count, a spam signal turns a concrete rejection into a pass |
| Scoring.NegativePointsRewardSpam | backend/app/publishers/scoring.py:84-93 | with a negative point value a spam signal turns a concrete rejection into a pass |
| Scoring.AverageStaysBelowExactlyWhen | backend/app/publishers/scoring.py:289-301 | the weighted average exceeds its largest part for no parts in 0-100 if and only if none of the three weights is negative |
| Scoring.OpportunityStaysBelowExactlyWhen | backend/app/publishers/scoring.py:289-301 | over all component scores, the rounded opportunity score never exceeds the best one if and only if what negative weights can add stays below half a hundredth |
| Scoring.MixStaysBelowExactlyWhen | backend/app/publishers/scoring.py:278-318 | with the four component weights fixed, no publisher under any points gets an opportunity score above its best component if and only if the same holds |
| Scoring.NegativeWeightExceedsComponents | backend/app/publishers/scoring.py:84-93 | a concrete publisher, scored under a negative relevance weight, gets an opportunity score above all its components |
| QualificationLaws.DefaultQuality | backend/app/publishers/scoring.py:55-60 | under the default weights quality is exactly 30, 10, 25, 20 and 15 for the five facts |
| QualificationLaws.DefaultRelevance | backend/app/publishers/scoring.py:62-67 | 12 a keyword up to 60, and 20, 12 and 8 for the matches |
| QualificationLaws.DefaultSpam | backend/app/publishers/scoring.py:69-71 | 22 a signal, 18 for more than 300 outbound links, at most 100 |
| QualificationLaws.DefaultBar | backend/app/publishers/scoring.py:73-81 | passes if and only if nothing rejects, quality is at least 45, spam at most 50 and opportunity at least 40; unmeasured authority is 50 |
| QualificationLaws.OpportunityIsTheAverage | backend/app/publishers/scoring.py:289-301 | under any weights the opportunity score is the weighted average less the spam penalty, within half a hundredth, brought back into 0-100 |
| Qualification.QualificationService.BuildSignals | backend/app/publishers/qualification.py:130-203 | the bundle from live or stored evidence, by the source's precedence for free, paid, authority and vendor spam |
| Qualification.QualificationService.Apply | backend/app/publishers/qualification.py:217-256 | exactly the scored fields, pricing, path and status are written |
| Qualification.QualificationService.QualifyPublisher | backend/app/publishers/qualification.py:63-128 | the row becomes the specified one; without positive weight it is left marked QUALIFYING |
| Qualification.QualifiedMeansPriced | backend/app/publishers/qualification.py:244-256 | QUALIFIED exactly when the signals pass, and then FREE exactly when they said free; submittable exactly when both |
| Qualification.PricingMovesOnEvidence | backend/app/publishers/qualification.py:240-247 | pricing changes only to PAID on a paid finding or to FREE on a live free listing with a path |
| Qualification.PricingLoosensExactlyWhen | backend/app/publishers/qualification.py:240-247 | a row that was not FREE becomes FREE if and only if a live crawl saw no payment, a free listing and a path, whatever the row said before |
| Qualification.PricingTightensExactlyWhen | backend/app/publishers/qualification.py:240-247 | a row that was not PAID becomes PAID if and only if payment was seen, live or in the stored evidence |
| Qualification.PaidCanBecomeFree | backend/app/publishers/qualification.py:240-247 | a concrete PAID row becomes FREE under every usable weighting |
| Qualification.QualifyingTwiceIsOnce | backend/app/publishers/qualification.py:63-256 | qualifying again on the same evidence, live or stored, changes nothing on the row |
| Qualification.RescoreReproducesEvidenceExactlyWhen | backend/app/publishers/qualification.py:145-180 | a re-score reproduces all site evidence but the free claim, and the free claim if and only if a path was found, or it was not made, or the row says FREE |
| Qualification.RescoreReproducesScores | backend/app/publishers/qualification.py:145-256 | spam, authority and hard rejections are always reproduced, quality under that condition; otherwise the free-listing points are lost on a row rejected both times |
| Qualification.FreeClaimCanBeLost | backend/app/publishers/qualification.py:173-180 | the exceptional rows exist under every usable weighting |
| QualificationLaws.LiveEvidenceIsStored | backend/app/publishers/qualification.py:145-203 | after a live qualification the row holds exactly the crawl's and the vendor's values; spam signals are the crawl's, with the vendor marker added if and only if its spam score is known and at least 50 |
| QualificationLaws.CrawlFindingsReject | backend/app/publishers/qualification.py:249-256 | each finding is on the row if and only if the crawl showed its fact, and any of them, a link scheme included, rejects under every weighting |
| QualificationLaws.FindingsStored | backend/app/publishers/scoring.py:321-330 | QUALIFIED if and only if the row has no finding and its own scores reach the thresholds |
| QualificationLaws.KeywordsAreCounted | backend/app/publishers/qualification.py:168-171 | the keyword figures count the worded keywords, and those whose trimmed lower-case form the page contains |
| QualificationLaws.MatchesAreStored | backend/app/publishers/qualification.py:205-215 | the category, country and language matches on the row, from the row and the page |
| QualificationLaws.AddressComesFromTheCrawl | backend/app/publishers/qualification.py:246-250 | the submission address changes only to a path the crawl found |
| Domains.ValidateHost | backend/app/core/domains.py:132-156 | the first failing check in the source's order, a final newline accepted by the pattern included |
| Domains.NormalizeDomain | backend/app/core/domains.py:159-189 | the canonical domain, or the first error, with the `www.` loop; bracketed authorities are always refused (see below) |
| DomainLaws.EverySpellingIsCanonical | backend/app/core/domains.py:102-189 | case, `www.`, trailing dots, userinfo, port, scheme, path and space never change the result, unless `www.` makes the host longer than 253, which is refused |
| DomainLaws.CanonicalIsDomainName | backend/app/core/domains.py:132-189 | every result is a valid name in the strict sense and keeps `www.` only where one label would remain |
| DomainLaws.DomainNameMeans | backend/app/core/domains.py:132-156 | that notion in figures: 253 characters, labels of 1 to 63 lower-case letters, digits and inner hyphens, at least two, the last not a number |
| DomainLaws.QuadIsAddressExactlyWhen | backend/app/core/domains.py:159-189 | four dotted decimal numbers are taken for an address if and only if none exceeds 255 |
| DomainLaws.CanonicalIsFixed | backend/app/core/domains.py:159-189 | canonicalising twice is canonicalising once |
| DomainLaws.SlashedIsReadAs | backend/app/core/domains.py:102-189 | any ASCII text with a double slash is read as what the first one leads to, or refused when a scheme-like start has no authority behind it |
| DomainLaws.BareSlashesKeepExactlyWhen | backend/app/core/domains.py:108-111 | a bare form with a double slash keeps its domain if and only if what the first one leads to has the same canonical domain |
| DomainLaws.DoubleSlashWins | backend/app/core/domains.py:108-111 | a bare text that does not start like a scheme is dropped before `//`, and the name after it, in any spelling and with any tail, is the result |
| DomainLaws.TwoNamesAgreeExactlyWhen | backend/app/core/domains.py:108-111 | a bare form with a second name after `//` keeps its domain if and only if both names have the same canonical form |
| DomainLaws.PortBeforeSlashesIsRefused | backend/app/core/domains.py:108-111 | a bare host that starts with a letter, with a port and a double slash after it, is refused: host and colon read as a scheme |
| DomainLaws.BareQueryCanChangeTheName | backend/app/core/domains.py:108-111 | `a.com/?u=https://b.com/t` is read as `b.com` |
| DomainLaws.BarePortCanBeRefused | backend/app/core/domains.py:108-111 | `b.com:80/x//c` is refused |
| DomainLaws.SameSiteExactlyWhen | backend/app/core/domains.py:260-265 | two spellings denote the same site if and only if the names they spell have the same canonical form |
| DomainLaws.RegistrableIsSuffix | backend/app/core/domains.py:244-257 | the registrable domain ends the canonical one at a dot and has two labels, or three exactly under a listed suffix |
| DomainLaws.UrlKeepsDomain | backend/app/core/domains.py:200-236 | for a value both functions accept that is an absolute URL, starts with `//`, or holds no `//`, canonicalising the URL first leaves its domain unchanged |
| DomainLaws.PortIsNamedExactlyWhen | backend/app/core/domains.py:200-236 | a canonical URL names its port if and only if that is not 80 for http or 443 for https |

## Left out

- Real PostgreSQL locking and SQLAlchemy: atomic steps and an abstract "skip locked rows" rule stand for them.
- Two transactions refreshing one token at the same moment: the source takes no row lock; requests are served one at a time here.
- JWT, password hashing, token hashing and envelope encryption: digests are distinct, a password is compared as a value, and an access token's claims are given.
- Audit records, logging, metrics, health probes, response schemas and the order of `reasons` texts.
- Provider adapters, crawler, metrics vendors and link verifier: each is an arbitrary reply.
- Floating point: tokens, times, delays and scores are exact reals.
- Dictionary order among equally old buckets: the oldest-tenth rule may pick any of them.
- Expired-session cleanup, listing queries, workspace registration and membership administration: the environment may change users and memberships between requests.
- Job payloads, task lookup and per-task timeouts: a handler succeeds, fails or is unregistered.
- The submission content drafts table: the approved draft a submission starts from is an argument.
- Evidence recorded by the link verifier and the tenant trigger that repeats the FREE rule in the database.
- Domains.NormalizeDomain: refuses every bracketed authority and all non-ASCII text. The source accepts a name between brackets that Python's check lets through, such as `http://[v1.com]/` read as `v1.com`, and folds internationalised names to punycode.
- DomainLaws.UrlKeepsDomain: leaves out bare forms with a `//` after the name, where the two functions read different names.
- The scheme `normalize_url` assumes for a relative input is fixed to its default, https.
- Header values that are Unicode digits but not ASCII digits, which the source would fail to convert.
- HttpClient.SafeHttpClient.AssertSafeUrl: which addresses are public is an oracle, because the address tables belong to Python's `ipaddress`.
- Header and query parameters of an outgoing request: the source passes the caller's own on every hop.
- Idempotence of `normalize_url` and of `registrable_domain`: the code does not give either.
- The role ladder, permission catalogue and enum tables: finite, and settled by listing them.
- Pagination, discovery counters, the last-owner guard and slugs: sound, but they would only add easier members.

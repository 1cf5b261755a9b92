# Ownership protocols, the batch queue, URL templates and crawlers, modelled in Dafny

PageLode extracts, maps and searches web pages. A Go core owns the order in which loaders are tried, the
batch queue, the site crawlers and the identity keys; a browser service owns Chrome processes, their
profile directories and the remote sessions. This project models the parts of both where state is kept
under interleaving, where data is transformed in place, or where a fast form has to agree with a simple
one, and proves what they promise.

`dafny verify dfyconfig.toml` checks the whole project.

## How the model is built

- A service whose stretches interleave at `await`s, or a limiter whose atomic steps interleave, is a
  state, a set of events, `Enabled` and `Apply`. An event is one synchronous stretch or one atomic
  operation; `IsRun` is any finite sequence of them, so a theorem about runs holds for every interleaving.
  Beside it stands a class with the source's fields whose methods do the same stretches in place and are
  proved to end in exactly the specified state.
- A loop of the source is a loop here, with invariants; where its result has a simpler description
  (a declarative rule, a one-at-a-time reference, the list of loaders visited), that description is
  defined independently and the two are proved equal.
- What an operation answers is also told without the functions that compute it: by the answers of the
  pages, the visits of the loaders, the fields of an event. Those statements are in the contracts of the
  main methods, or in lemmas named `…Tells` and `…Means`.
- Objects of the services are named by their order of creation. A trie node is an object of its own, and
  subtrees are absorbed by reference.
- Parsers, the network, the file system, the database and Chrome are parameters or events that may
  succeed or fail.

| part | files |
|---|---|
| identity pool | `DirectoryChain`, `IdentityPool`, `PoolInvariant`, `PoolTheorems`, `PoolEffects`, `PoolService` |
| profile locks and sessions | `ProfileLocks`, `BrowserSessions`, `SessionTheorems`, `SessionService` |
| limiters | `ServiceLimiter`, `GoLimiter` |
| batch | `BatchTypes`, `BatchQueue`, `BatchProgress`, `OutputWriter`, `BatchRun`, `BatchImport` |
| URL templates | `PathSets`, `UrlTrie`, `TemplateRule`, `Templates`, `TemplateGroups`, `TemplateReport` |
| site map | `Robots`, `CrawlFrontier`, `CrawlPages`, `CrawlLevels`, `CrawlMoves`, `SiteCrawl`, `CrawlRun`, `CrawlTheorems`, `CrawlSources`, `CrawlAttempts`, `CrawlBrowser`, `SiteMap` |
| email search | `EmailFrontier`, `EmailFindings`, `EmailSearch`, `EmailFind` |
| loader waterfall | `Waterfall`, `WaterfallService` |
| identity keys | `IdentityKeys`, `IdentityGenerations`, `IdentityTheorems`, `IdentityProcesses`, `IdentityService` |
| shared | `Wrappers`, `Counting`, `Ordering`, `Texts` |

## Where the code and its documentation differ

The model follows the code in each case.

- `docs/map.md` says that at most 200 pages are fetched. The code counts pages read with success. The
  attempts are bounded by the request's limit on URLs, and reach it; so at most 200 pages are fetched
  exactly when the limit is at most 200 or the depth is one (`CrawlAttempts.PageLimitBoundsAttemptsIff`,
  from `CrawlAttempts.AttemptsReachTheLimit` and `CrawlTheorems.BudgetsAreKept`).
- `docs/map.md` says that disallowed pages are never fetched. The rules are asked of links before they
  are queued, and nowhere else. So a disallowed page is loaded exactly if it is the start, or if loading
  some target leads there by a redirect or by exploring (`CrawlAttempts.DisallowedIsLoadedIff`). Each of
  the three happens (`CrawlAttempts.BlockedStartIsRead`, `CrawlAttempts.RedirectIsFollowed`,
  `CrawlAttempts.ExploredIsLoaded`).
- `docs/map.md` says that the first 20 pages of one URL shape are fetched. The start is not counted, so
  there can be 21 such URLs, for exactly the requests with a limit above 20 and a depth of at least two
  (`CrawlAttempts.OversamplesIff`, `CrawlTheorems.OneShapeIsSampled`).
- A session's `close` can be answered while its profile is still held. It resolves early when the browser
  dies during the save (`SessionTheorems.CloseCanAnswerEarly`), and it is refused as not found while a
  release, started by a dead browser or by another close, waits for Chrome
  (`SessionTheorems.CloseCanBeRefusedEarly`). A session that was handed out has no other such case
  (`SessionTheorems.CloseAnswersEarlyIff`).
- The batch's two stages are not always the whole waterfall: the session of the plain response is not
  handed to the browser, which can matter (`Waterfall.SessionCanMatter`). Nothing else is lost, unless a
  saturated browser is needed (`Waterfall.SplitLosesOnlyTheSession`, `Waterfall.SplitIsWholeIff`).
- Two `batch retry` commands at once can reopen a job that was handed off in between
  (`BatchQueue.OverlappingRetriesBreakTheOrder`). The stages stay in order exactly when no retry meets a
  completed job (`BatchQueue.RunIsSafeIff`); one command at a time is safe (`BatchQueue.RunKeeps`).
- An identity key can come back after a restart whose generations were not saved
  (`IdentityTheorems.KeysCanComeBack`), and comes back exactly when its slot has once been past the
  stored generation (`IdentityTheorems.RestartReusesIff`).
- `docs/architecture.md` says that identity generations are shared by every process on the database. They
  are read once, when a process starts, and overwritten. So with several processes, a key retired by one
  can stay in use in another, and a stored generation can go back (`IdentityProcesses.TwoProcessesCollide`).
  With every save successful, retired keys stay out of use exactly when a slot is rotated only while no
  other running process has read it (`IdentityProcesses.SharingIsCleanIff`).
- The pool's limit on identities yields to leases: the table can exceed it
  (`PoolTheorems.TableCanExceedItsLimit`), exactly by acquiring a new key while the table is full and all
  of it is leased (`PoolTheorems.GrowsPastTheLimitIff`, `PoolTheorems.LimitIsKeptIff`).

## Model

| member | source | states |
|---|---|---|
| PoolTheorems.OneWorkerPerDirectory | browser-service/src/identities/pool.ts:208-240 | Over every run: while one Chrome launch, live Chrome or directory removal has got past its wait, everyone who asked for the directory before it is done there; admission is first come, first served |
| PoolTheorems.VacatesOnce | browser-service/src/identities/pool.ts:255-263 | A directory is given up exactly by a failed launch, a finished removal, or a Chrome whose close settled or timed out into a kill, and never taken back |
| PoolTheorems.OthersStay | browser-service/src/identities/pool.ts:231-240 | No other step gives up, or takes back, anybody else's place in a directory |
| PoolTheorems.RetiredBrowsersDrain | browser-service/src/identities/pool.ts:242-253 | A browser's user count is the leases attached to it; once it is retired no lease joins; its shutdown starts once, at zero users, and otherwise only in the step that closes the service |
| PoolTheorems.LeasedIdentitiesAreListed | browser-service/src/identities/pool.ts:78-89 | Before the service closes, the identity behind an unreleased lease is the one listed under its key |
| PoolTheorems.LeasedLaunchIsNotDropped | browser-service/src/identities/pool.ts:208-229 | So the launch that a lease waits for becomes its identity's browser and is not retired as dropped |
| PoolTheorems.OneLaunchAtATime | browser-service/src/identities/pool.ts:200-206 | At most one launch of an identity is in flight, however many leases wait for it |
| PoolTheorems.AcquireTakesWhatItAsks | browser-service/src/identities/pool.ts:78-89 | An acquire is refused, and changes nothing, exactly if its key is listed with another proxy; any other takes one new lease, on an identity with the key and proxy asked for |
| PoolTheorems.LeaseIsWhatWasAsked | browser-service/src/identities/pool.ts:78-89 | Over every run, the identity behind a lease has the key and proxy of the acquire that took it, for good |
| PoolTheorems.EveryLeaseWasAsked | browser-service/src/identities/pool.ts:78-89 | Over every run, every lease was taken by such an acquire |
| PoolEffects.AttachMeans | browser-service/src/identities/pool.ts:188-206 | What attaching does: an aborted wait fails, a browser that is there gets one user more, else the lease waits for the identity's one launch |
| PoolEffects.ReleaseMeans | browser-service/src/identities/pool.ts:105-113 | A first release gives back the lease and marks the time of use; a second one changes nothing |
| PoolEffects.UseIsRelease | browser-service/src/identities/pool.ts:105-113 | Nothing but a first release of its own leases changes when an identity was last used |
| PoolEffects.RotateMeans | browser-service/src/identities/pool.ts:144-158 | A rotation takes an idle key, and no other, from the table and queues a removal for its directory; of a leased or unknown key it changes nothing |
| PoolEffects.RotateShutsDown | browser-service/src/identities/pool.ts:144-149 | The browser of a rotated identity is retired and its shutdown begins at once |
| PoolEffects.CloseMeans | browser-service/src/identities/pool.ts:160-168 | The close empties the table and leaves no browser that is not retired and shutting down |
| PoolTheorems.TableGrowsOnlyWhenAllAreLeased | browser-service/src/identities/pool.ts:265-274 | A step that grows the table over its limit leaves a table of which every identity is leased |
| PoolTheorems.GrowsPastTheLimitIff | browser-service/src/identities/pool.ts:265-274 | A step grows the table past its limit exactly when it acquires a new key while the table is full and every listed identity is leased |
| PoolTheorems.LimitIsKeptIff | browser-service/src/identities/pool.ts:265-274 | Over a run the table stays within its limit exactly when no step meets that condition |
| PoolTheorems.TableCanExceedItsLimit | browser-service/src/identities/pool.ts:265-274 | A run that does: two leased identities where one is allowed |
| PoolTheorems.TableIsBounded | browser-service/src/identities/pool.ts:265-274 | Over every run the table is at most the larger of the limit and the most identities ever leased at once |
| PoolTheorems.CloseWaitsForEveryone | browser-service/src/identities/pool.ts:160-170 | What the end of `close` waits for: when the promises registered as it began have resolved, everyone who had asked for a directory by then has vacated it |
| PoolTheorems.RunKeeps | browser-service/src/identities/pool.ts:62-275 | Every reachable state of the pool keeps its invariant: user counts, listings, launches, retirements and the directory chains agree |
| PoolInvariant.StepKeeps | browser-service/src/identities/pool.ts:62-275 | Each of the nineteen synchronous stretches keeps that invariant |
| PoolInvariant.RetireKeeps | browser-service/src/identities/pool.ts:242-248 | Retiring a browser in the middle of a stretch restores the invariant, whether it has users or not |
| PoolInvariant.AcquireKeeps | browser-service/src/identities/pool.ts:78-90 | Acquiring, with a possible eviction, keeps the invariant |
| PoolInvariant.AttachKeeps | browser-service/src/identities/pool.ts:188-198 | Each round of attaching (counting a user, starting a launch or joining one) keeps the invariant |
| PoolInvariant.ReleaseKeeps | browser-service/src/identities/pool.ts:105-113 | A release, and a second release of the same lease, keep the invariant |
| PoolInvariant.LaunchOpensKeeps | browser-service/src/identities/pool.ts:208-229 | A launch that opens keeps the invariant, whether its identity is still listed or not |
| PoolInvariant.RotateKeeps | browser-service/src/identities/pool.ts:144-158 | A rotation keeps the invariant and queues its removal behind the live browser |
| PoolInvariant.CloseServiceKeeps | browser-service/src/identities/pool.ts:160-170 | The service's close, which shuts browsers with users, keeps the invariant |
| DirectoryChain.EarlierOccupantsAreGone | browser-service/src/identities/pool.ts:231-240 | An admitted occupant finds everyone who came to its directory before it gone |
| DirectoryChain.NextMayEnter | browser-service/src/identities/pool.ts:231-240 | No wake-up is lost: whoever waits may enter exactly when everyone before it has vacated |
| DirectoryChain.ForgetIsOrderly | browser-service/src/identities/pool.ts:236-238 | Dropping a directory's resolved tail never lets a later occupant overtake |
| PoolService.Identities.Acquire | browser-service/src/identities/pool.ts:78-90 | In place: a lease is given exactly if the key is not listed or its identity has the proxy asked for; it is on an identity with that key and proxy, and a refusal changes nothing |
| PoolService.Identities.OldestIdle | browser-service/src/identities/pool.ts:265-274 | The scan finds an idle identity used least recently, or none exactly when every identity is in use |
| PoolService.Identities.EvictIdle | browser-service/src/identities/pool.ts:265-274 | In place: nothing below the limit; otherwise the victim leaves the table and its browser is retired |
| PoolService.Identities.Attach | browser-service/src/identities/pool.ts:188-206 | In place: a user is counted before the caller learns the browser, and a launch is started at most once |
| PoolService.Identities.Release | browser-service/src/identities/pool.ts:105-113 | In place: idempotent, lowers both counts, and starts the deferred shutdown at the last user |
| PoolService.Identities.Retire | browser-service/src/identities/pool.ts:242-248 | In place: a browser is retired once, forgotten by its identity, and shut down if unused |
| PoolService.Identities.LaunchOpens | browser-service/src/identities/pool.ts:224-228 | In place: a launch of a delisted identity is retired as dropped |
| PoolService.Identities.Rotate | browser-service/src/identities/pool.ts:144-158 | In place: refused while leased; otherwise the identity leaves the table before its removal waits for the directory |
| PoolService.Identities.CloseService | browser-service/src/identities/pool.ts:160-170 | In place: the loop over the table retires and shuts every current browser, users or not |
| ProfileLocks.FreeIffUnowned | browser-service/src/profiles/locks.ts:22-25 | A session may hold a profile exactly when no session holds it and every render that ever asked for it is over |
| ProfileLocks.HeldMeansNoRender | browser-service/src/profiles/locks.ts:7-9 | While a session holds a profile no render of it runs or waits |
| ProfileLocks.LeaveKeeps | browser-service/src/profiles/locks.ts:16-19 | The end of a render keeps the chain in order and frees the profile with its last render |
| ProfileLocks.ProfileLocks.ArriveForRender | browser-service/src/profiles/locks.ts:7-13 | In place: refused exactly while a session holds the profile, otherwise last in its queue |
| ProfileLocks.ProfileLocks.LeaveRender | browser-service/src/profiles/locks.ts:16-19 | In place: the next render may enter, and the last one clears the entry |
| ProfileLocks.ProfileLocks.HoldForSession | browser-service/src/profiles/locks.ts:22-25 | In place: the hold is taken exactly when the profile is free |
| SessionTheorems.OneOwner | browser-service/src/profiles/locks.ts:7-29 | Over every run a profile has one owner, be it a running render or a session from its hold to its release |
| SessionTheorems.RendersRunInOrder | browser-service/src/profiles/locks.ts:9-18 | Renders of a profile run in arrival order, and the next may start exactly when every earlier one is over |
| SessionTheorems.HoldsEndOnce | browser-service/src/sessions/sessions.ts:75-134 | A profile is held exactly while one session has it; an attempt that is over has released it once, after its Chrome's close settled if it had one |
| SessionTheorems.HoldsAreGivenBack | browser-service/src/sessions/sessions.ts:92-97 | The only ways out of a hold are a cleaned-up failed open and a settled close; each frees the profile and releases exactly once |
| SessionTheorems.SessionsAreBounded | browser-service/src/sessions/sessions.ts:55-63 | At most `maxSessions` attempts are starting or listed at once |
| SessionTheorems.CreateIsAnswered | browser-service/src/sessions/sessions.ts:55-77 | A creation is turned away exactly at the limit of listed and starting sessions; else it opens, unless a session holds the profile or a render of it is not over |
| SessionTheorems.AnsweredCloseIsOver | browser-service/src/sessions/sessions.ts:65-69 | A close that has resolved found the session over and its profile given back, unless the browser died by itself |
| SessionTheorems.RefusedCloseFinds | browser-service/src/sessions/sessions.ts:49-53 | A close that is refused as not found changes nothing; if the session still holds its profile and was handed out, it is being released |
| SessionTheorems.CloseAnswersEarlyIff | browser-service/src/sessions/sessions.ts:65-131 | Whatever the event: it answers a close, by resolving or by refusing it, while the session holds its profile, exactly when a release is waiting for Chrome and either the save of a close that did not start it ends or another close comes; or when the session has not been handed out yet |
| SessionTheorems.CloseCanAnswerEarly | browser-service/src/sessions/sessions.ts:113-127 | A run in which a close resolves early: the caller is answered and the profile is still taken |
| SessionTheorems.CloseCanBeRefusedEarly | browser-service/src/sessions/sessions.ts:49-69 | Two runs in which a close is refused early, after the browser died and after a first close: the profile is still taken |
| BrowserSessions.StepKeeps | browser-service/src/sessions/sessions.ts:55-134 | Every stretch of creating, closing, expiring and dying browsers keeps holds, gauges and phases exact |
| BrowserSessions.RunKeeps | browser-service/src/sessions/sessions.ts:28-134 | So does every run |
| SessionService.Sessions.Create | browser-service/src/sessions/sessions.ts:55-77 | In place: the limit and the lock are asked before anything is opened; a refusal leaves the locks alone |
| SessionService.Sessions.GiveBack | browser-service/src/sessions/sessions.ts:92-95 | In place: after Chrome is closed, the hold is released once on either path |
| SessionService.Sessions.Close | browser-service/src/sessions/sessions.ts:65-69 | In place: an unknown session is an error, and a second close joins the first |
| SessionService.Sessions.FinishSave | browser-service/src/sessions/sessions.ts:113-120 | In place: the release after the save belongs to whoever finds the session listed |
| SessionService.Sessions.OnBrowserClose | browser-service/src/sessions/sessions.ts:108-133 | In place: a dying browser releases its session at most once |
| ServiceLimiter.LimitsHold | browser-service/src/shared/limiter.ts:22-55 | Over every run the gauge is the granted runs, at most `concurrency`; at most `maxWaiting` wait, and only while every slot is taken |
| ServiceLimiter.ArrivalIsAnswered | browser-service/src/shared/limiter.ts:33-54 | In every run an arrival is granted exactly while a slot is free, and refused exactly if aborted, or every slot is taken and the queue is full |
| ServiceLimiter.GrantsInOrder | browser-service/src/shared/limiter.ts:28-29 | Whoever is granted a slot leaves no earlier run waiting |
| ServiceLimiter.QueuedRunsAreAnsweredOnce | browser-service/src/shared/limiter.ts:41-50 | A queued run is answered once, by its grant or by its own abort, and nobody else's run changes |
| ServiceLimiter.StepKeeps | browser-service/src/shared/limiter.ts:22-55 | Arrivals, aborts and finishes keep the queue in order and the gauge exact |
| ServiceLimiter.Limiter.Acquire | browser-service/src/shared/limiter.ts:33-54 | In place: aborted and overflowing arrivals are refused, others granted or queued |
| ServiceLimiter.Limiter.Abandon | browser-service/src/shared/limiter.ts:46-50 | In place: the index search removes exactly the aborted run |
| ServiceLimiter.Limiter.Release | browser-service/src/shared/limiter.ts:27-30 | In place: the freed slot goes to the head of the queue |
| GoLimiter.LimitsHold | pkg/fetch/limit.go:31-70 | In every interleaving of the atomic steps at most `capacity` callers work, and the callers let in through the queue never exceed `maxWaiting` |
| GoLimiter.CallersAreLetIn | pkg/fetch/limit.go:31-45 | In every interleaving a caller gets a slot at once exactly while one is free, and is let in through the queue exactly if the counter stood within the limit |
| GoLimiter.QuietMeansEmpty | pkg/fetch/limit.go:66-69 | Once no caller is inside, the slots and both gauges are zero |
| GoLimiter.CountInKeeps | pkg/fetch/limit.go:40-45 | The counter's answer bounds the callers let in, whatever happens before the answer is judged |
| GoLimiter.StepKeeps | pkg/fetch/limit.go:31-70 | Each atomic step keeps slots and gauges equal to the callers that account for them |
| GoLimiter.Limiter.TryFast | pkg/fetch/limit.go:32-38 | In place: a free slot is taken at once, or the caller goes on to the queue |
| GoLimiter.Limiter.Judge | pkg/fetch/limit.go:40-44 | In place: a caller above the limit is turned away |
| BatchQueue.RunKeeps | pkg/batch/jobs.go:168-180 | With one retry command at a time, in every reachable queue a browser job exists only for a URL whose HTTP job is completed, and results match completed jobs |
| BatchQueue.StepKeeps | pkg/batch/batch.go:291-314 | Each transaction keeps that: imports, hand-offs, results, failures, rescues and retries |
| BatchQueue.RetryIsSafeIff | pkg/batch/jobs.go:168-180 | With any number of retry commands, a retry keeps the stages in order exactly when the job has not been completed in the meantime |
| BatchQueue.RunIsSafeIff | pkg/batch/jobs.go:168-180 | Over every run with any number of retry commands, the stages stay in order exactly when no retry meets a completed job |
| BatchQueue.OverlappingRetriesBreakTheOrder | pkg/batch/jobs.go:168-180 | A run in which two overlapping retries reopen a handed-off HTTP job |
| BatchQueue.RetryFrom | pkg/batch/jobs.go:98-106 | Only the dead and failed states can be retried, each from one job state |
| BatchProgress.TotalsAreTruth | pkg/batch/progress.go:25-40 | The totals computed by subtraction are the numbers of URLs in each final state, whichever stage they are in |
| BatchProgress.RemainingAreUnfinished | pkg/batch/progress.go:119-121 | What is left is the URLs pending, running or retrying |
| BatchProgress.DoneMeansStored | pkg/batch/progress.go:25-40 | A URL counts as done exactly when a result of one of its jobs is stored |
| BatchProgress.BarIsDrawable | pkg/batch/progress.go:166-172 | Finished never exceeds the URLs, so the bar never repeats a negative count |
| BatchProgress.IdleMeansComplete | pkg/batch/jobs.go:182-192 | No job of either stage is busy exactly when every URL is finished |
| BatchProgress.ComputeTotals | pkg/batch/progress.go:25-40 | The counting loops compute those totals |
| OutputWriter.NobodyIsLeftWaiting | pkg/batch/writer.go:95-144 | Once the writer has stopped, every record it accepted has had exactly one reply |
| OutputWriter.RefsAreDistinct | pkg/batch/writer.go:178-190 | Records answered with a reference have references of their own |
| OutputWriter.WhatWasAnsweredStays | pkg/batch/writer.go:178-215 | A file once on disk and an answer once given never change, whatever comes later |
| OutputWriter.RepliesAreRight | pkg/batch/writer.go:95-144 | In every run each record waits unanswered or has one reply, and a reference leads to the line of a renamed file that holds its record |
| OutputWriter.RecordsAreAnswered | pkg/batch/writer.go:95-144 | In every run, each event answers exactly the records of the file it finishes, with a reference if and only if the file was closed and renamed |
| OutputWriter.Writer.AnswerAll | pkg/batch/writer.go:185-196 | The reply loops answer each waiting record once, with its own line number |
| OutputWriter.Writer.FinishFile | pkg/batch/writer.go:178-215 | In place: the file is on disk before its records are answered |
| OutputWriter.Writer.Receive | pkg/batch/writer.go:103-131 | In place: opening, writing, rejecting and rolling over a file |
| OutputWriter.Writer.Flush | pkg/batch/writer.go:104-108 | In place: the quiet tick and the closed channel finish the current file |
| BatchRun.StoredPagesAreDurable | pkg/batch/batch.go:259-274 | Over every run of queue and writer, a completed job points at a durable record of its own |
| BatchRun.CompletionNeedsAPage | pkg/batch/batch.go:190-252 | A worker leaves a job completed exactly when its page was written and recorded, or its HTTP job was handed off in one transaction |
| BatchRun.UnfinishedJobs | pkg/batch/batch.go:190-289 | A recorded dead page, and no other, ends cancelled; a job is put back for a busy host, a stop, an unwritten page or a browser without capacity; and fails in all other cases |
| BatchRun.TurnIsAStep | pkg/batch/batch.go:190-274 | A worker's whole turn, with the reference that the writer sent it, is one enabled step of queue and writer |
| BatchRun.StatsCount | pkg/batch/batch.go:190-314 | Over any number of turns the counters are the pages stored, the jobs handed off, the jobs put back, the pages found dead and the loads that failed |
| BatchRun.StatsAreTrue | pkg/batch/batch.go:45-51 | At every moment of a run, as many pages are reported done as results have been stored, and as many need a browser as browser jobs have come: no job is stored or handed off twice |
| BatchRun.Runner.Work | pkg/batch/batch.go:190-252 | In place: both workers end in the event and the counters their outcome calls for |
| BatchRun.Runner.Store | pkg/batch/batch.go:259-274 | In place: nothing is recorded without a written page, and only a recorded one is counted |
| BatchRun.Runner.HandOff | pkg/batch/batch.go:291-314 | In place: the browser job and the completion come together or not at all |
| BatchImport.ImportLines | pkg/batch/import.go:29-85 | For every batch size a successful import equals inserting the lines one at a time; mid-loop the shortfall is the pending batch |
| BatchImport.OneByOneMeaning | pkg/batch/import.go:29-85 | One at a time: every line that is no comment counts once, those that name no URL are invalid, and as many URLs are inserted as are new and distinct |
| BatchImport.Flush | pkg/batch/import.go:36-54 | A committed flush brings the statistics and the job set level with the reference, a failed one changes nothing |
| BatchImport.Read | pkg/batch/import.go:58-79 | A line that is invalid, repeated in the batch, or new keeps the shortfall at the pending URLs |
| UrlTrie.TrieNode.Absorb | pkg/sitemap/urlshape.go:84-92 | In place, by reference: the node then holds the union of both path sets, without sharing nodes |
| UrlTrie.TrieNode.CollapseSelf | pkg/sitemap/urlshape.go:94-106 | In place: a node with enough children ends with the wildcard child alone, holding everything below |
| UrlTrie.TrieNode.Collapse | pkg/sitemap/urlshape.go:94-106 | In place: the whole trie becomes the collapsed trie of its paths, in any order of the children |
| UrlTrie.TrieNode.Insert | pkg/sitemap/urlshape.go:135-143 | In place: the node holds the inserted path and all its prefixes |
| UrlTrie.TrieNode.Walk | pkg/sitemap/urlshape.go:177-192 | Walking an inserted path through the collapsed trie never meets a missing child and gives its pattern |
| TemplateRule.RuleIsComplete | pkg/sitemap/urlshape.go:94-192 | The declarative rule (wildcard exactly at `threshold` next segments sharing the generalised prefix) has one solution: the collapsed trie's templates |
| TemplateRule.TrieFollowsRule | pkg/sitemap/urlshape.go:94-106 | The collapsed trie follows that rule |
| TemplateRule.RuleDecides | pkg/sitemap/urlshape.go:94-106 | Two solutions of the rule agree on every prefix |
| Templates.WildSegments | pkg/sitemap/urlshape.go:177-192 | A segment of a URL's pattern is a wildcard exactly when it looks like an id, is literally one, or its place takes enough values |
| Templates.PatternReads | pkg/sitemap/urlshape.go:177-192 | Between the slashes of a pattern, up to its first question mark, stand the template's segments, and behind the mark, if there is one, the query names |
| Templates.SamePatternIff | pkg/sitemap/urlshape.go:150-158 | Two pages share a pattern exactly if their templates and query names agree |
| TemplateGroups.ReportTells | pkg/sitemap/urlshape.go:150-175 | The report told by templates: each page has a group that reads as its template and query, counts the pages that share both, and samples the first three; larger groups first, then in byte order |
| TemplateGroups.SamplesAreFirst | pkg/sitemap/urlshape.go:156-162 | The samples are the first three distinct URLs, in order |
| TemplateGroups.MarksCanCollide | pkg/sitemap/urlshape.go:187-191 | Two pages whose segments hold a decoded question mark can share a pattern without sharing a template |
| TemplateGroups.PagesInOrder | pkg/sitemap/urlshape.go:115-148 | The pages are the URLs that are not empty and parse, in order |
| Ordering.LessIsByteOrder | pkg/sitemap/urlshape.go:168-173 | The order of strings is the byte order: at the first difference the smaller byte, or the end, comes first |
| Templates.Generalise | pkg/sitemap/urlshape.go:123-128 | Segments that look like ids become wildcards, all others stay |
| Templates.ReportIsUnique | pkg/sitemap/urlshape.go:164-174 | The report is a function of the pages: no map order shows in it |
| Templates.CountsAddUp | pkg/sitemap/urlshape.go:150-167 | The counts add up to the pages that entered the trie |
| Templates.SamplesOf | pkg/sitemap/urlshape.go:159-161 | At most three distinct samples, each with the template's pattern |
| TemplateReport.Report | pkg/sitemap/urlshape.go:115-175 | `Templates` returns the one report of its pages; told by templates, its groups, counts, samples and order are those of `TemplateGroups.ReportTells` |
| TemplateReport.Group | pkg/sitemap/urlshape.go:150-162 | The grouping loop counts every page and keeps its samples |
| TemplateReport.Pattern | pkg/sitemap/urlshape.go:177-192 | The walk renders a pattern that reads as the template the rule gives the page |
| Robots.ParseRules | pkg/sitemap/urls.go:175-204 | The one-pass reader collects exactly the first 200 non-empty rules of the groups whose user-agent lines name everybody |
| Robots.ApplicableIsExact | pkg/sitemap/urls.go:187-200 | A rule is collected exactly when it stands, non-empty, in such a group |
| Robots.MatchesIffFilled | pkg/sitemap/urls.go:196-199 | A pattern matches exactly the targets that begin with it, or are it, with some text in place of every star |
| Robots.Blocks | pkg/sitemap/urls.go:206-222 | A URL is blocked exactly when some matching disallow is longer than every matching allow; one that does not parse never is |
| Robots.OrderDoesNotMatter | pkg/sitemap/urls.go:215-221 | The verdict does not depend on the order or repetition of rules |
| EmailFind.Find | pkg/emails/service.go:32-77 | The whole search, told by the answers: budgets kept, nothing loaded twice or without a page that offers it, every address of every good page named with its source and no other, pages, outcome and order; limits told only if met, and a report without a limit is closed under links |
| EmailFind.Drive | pkg/emails/service.go:57-69 | The loop ends, and without a limit hit it ends with an empty worklist |
| EmailFind.Turn | pkg/emails/service.go:57-69 | Each turn loads at least one new URL or leaves nothing queued |
| EmailFind.OrderAndTake | pkg/emails/service.go:57-61 | Nothing that waits is better than what a batch takes: by score, then depth, then URL |
| EmailFind.WarningsAreReal | pkg/emails/search.go:138-153 | Each limit is warned of only if it was met |
| EmailFind.Finish | pkg/emails/search.go:138-174 | Limited exactly if a warning exists, failed exactly if there are pages and all failed; sorting keeps every address and source |
| EmailFrontier.LoadsAreBounded | pkg/emails/search.go:23-37 | No more than a thousand loads, whatever the pages say |
| EmailFrontier.DoneMeansVisited | pkg/emails/search.go:23-64 | With an empty queue and no limit hit, everything offered has been visited |
| EmailFrontier.AddKeeps | pkg/emails/search.go:23-37 | A URL offered is queued once, already seen, or accounted for by a limit |
| EmailFrontier.PopKeeps | pkg/emails/search.go:42-62 | Taking the head keeps the budgets, loads nothing twice and loses no URL |
| EmailFindings.RecordKeeps | pkg/emails/search.go:104-126 | The index stays exact, sources stay distinct, and an address is missing only behind the address limit |
| EmailFindings.TellsIsRecorded | pkg/emails/search.go:104-126 | The report names an address with a source exactly if it was recorded, unless the limit was hit |
| EmailFindings.SortedTellsTheSame | pkg/emails/search.go:163-172 | Sorting addresses and sources changes nothing they say |
| EmailFindings.SortedNamesEachOnce | pkg/emails/search.go:163 | The sorted report names each address once, in byte order |
| EmailSearch.ConsumeKeepsHistory | pkg/emails/search.go:66-102 | One more answer: all it says is taken up, and nothing else is |
| EmailSearch.Search.Add | pkg/emails/search.go:23-37 | In place: the checks in the order of the source |
| EmailSearch.Search.Take | pkg/emails/search.go:39-64 | In place: the batch fits the page budget, and is empty only if nothing can be loaded |
| EmailSearch.Search.Order | pkg/emails/service.go:58 | The worklist is sorted by score, depth and URL, and keeps its targets |
| EmailSearch.Search.Record | pkg/emails/search.go:104-126 | In place: known addresses gain a source, new ones an entry, until the limit |
| EmailSearch.Search.Consume | pkg/emails/search.go:66-102 | In place: sitemap and page answers, good and failed |
| CrawlTheorems.TargetsAreSound | pkg/sitemap/crawl.go:66-107 | No target is asked for twice; targets are taken level by level below the depth; the URLs of all but the start are permitted, not blocked, and listed |
| CrawlTheorems.OnlyTheStartMayBeBlocked | pkg/sitemap/crawl.go:228-242 | Of the targets themselves, wherever they lead, one is blocked exactly if the start is and the crawl began |
| CrawlAttempts.DisallowedIsLoadedIff | pkg/sitemap/crawl.go:124-242 | A crawl loads a disallowed page exactly when its start is one and was read, or when loading some target leads to one elsewhere: by a redirect, at its end, or by exploring |
| CrawlAttempts.WithoutDetoursOnlyTheStart | pkg/sitemap/crawl.go:228-242 | Without redirects and exploration, exactly when the start is one and was read |
| CrawlAttempts.RedirectIsFollowed | pkg/sitemap/crawl.go:167-178 | A run in which an allowed page redirects to a disallowed one, which is read and counted |
| CrawlAttempts.ExploredIsLoaded | pkg/sitemap/crawl.go:127-133 | A run in which the browser reaches a disallowed page from an allowed one |
| CrawlTheorems.BudgetsAreKept | pkg/sitemap/crawl.go:86-93 | At most 200 pages are read with success; attempts stay within the request's limit, and a crawl of depth one tries the start alone |
| CrawlAttempts.AttemptsAreBoundedByTheLimit | pkg/sitemap/crawl.go:86-105 | For every limit and depth: some crawl tries more than `n` pages exactly if `n` is below the limit and, unless it is zero, the depth is at least two |
| CrawlAttempts.PageLimitBoundsAttemptsIff | pkg/sitemap/crawl.go:86-93 | Every crawl tries at most 200 pages exactly when the limit is at most 200 or the depth is one |
| CrawlAttempts.AttemptsReachTheLimit | pkg/sitemap/crawl.go:159-179 | A run, for every limit and depth from two: one page read, no level left early, and as many attempts as the limit |
| CrawlAttempts.FailureIsFree | pkg/sitemap/crawl.go:159-166 | A page that cannot be read leaves the crawl as it was |
| CrawlAttempts.StartIsRead | pkg/sitemap/crawl.go:79-93 | A start page that can be read is read whatever the robots rules say, unless the sitemaps have filled the list |
| CrawlAttempts.BlockedStartIsRead | pkg/sitemap/crawl.go:79-93 | A run that reads a start page under `Disallow: /` |
| CrawlAttempts.StartIsOneMore | pkg/sitemap/urlshape.go:55-67 | A run that asks for twenty-one URLs of one shape, the start among them |
| CrawlAttempts.OversamplesIff | pkg/sitemap/urlshape.go:55-67 | Some crawl asks for more than twenty URLs of one shape exactly if the limit is above twenty and the depth is at least two |
| CrawlTheorems.OneShapeIsSampled | pkg/sitemap/urlshape.go:55-67 | Of all URLs of one shape at most twenty are asked for, and the start if it has the shape |
| CrawlMoves.ReachedIsOk | pkg/sitemap/crawl.go:66-107 | Every moment of every crawl (batches taken, pages read one by one, levels left) keeps levels, counters, history and the rest of the batch |
| CrawlMoves.MoveKeeps | pkg/sitemap/crawl.go:86-105 | Each of those moves does |
| CrawlTheorems.ShapesAreSampled | pkg/sitemap/urlshape.go:55-67 | At most twenty URLs of one shape are asked for, besides the start |
| CrawlTheorems.ListingIsExact | pkg/sitemap/service.go:195-205 | A URL is listed only if it is in scope, permitted, and given by a sitemap or a page that was read; and if it is all that, it is listed or the list is full and says so |
| CrawlTheorems.FinishedCrawlIsClosed | pkg/sitemap/crawl.go:202-242 | A crawl that was not cut short has asked for every URL that its expanded pages link to, but for counted blocked pages and saturated shapes |
| CrawlSources.FinishedCrawlIsComplete | pkg/sitemap/crawl.go:202-242 | Told by the answers: a crawl that was not cut short has, for every page of HTML that was read, is no duplicate and lies above the last level, settled every permitted URL it links to or explores: the start, asked for, blocked and counted, or of a shape of which twenty were asked for |
| CrawlSources.NothingUnlinkedIsFetched | pkg/sitemap/crawl.go:202-242 | Beyond the start, nothing is asked for unless such a page, one level up, links to it |
| CrawlSources.EntriesHaveOrigins | pkg/sitemap/crawl.go:181-216 | Every entry of the list comes from a sitemap, or from a page that was read, and its source says how |
| CrawlFrontier.AddKeeps | pkg/sitemap/service.go:195-205 | The list keeps distinct, permitted URLs within its limit, and says when it left one out |
| CrawlFrontier.OfferKeeps | pkg/sitemap/crawl.go:202-208 | A link is listed before it is queued, and the queue stays free of repeats, blocked pages and oversampled shapes |
| CrawlLevels.TakeKeeps | pkg/sitemap/crawl.go:91-93 | What a batch takes is listed by then, and of the current depth |
| CrawlLevels.ConsumeKeepsProgress | pkg/sitemap/crawl.go:159-226 | Reading a page keeps levels, counters and history |
| CrawlLevels.LevelKeepsProgress | pkg/sitemap/crawl.go:82-104 | Going on to the next level keeps them too, even if the last one was cut short |
| CrawlPages.ConsumeTells | pkg/sitemap/crawl.go:202-216 | Told by the answer: every link of a page that was read is offered, and followed if the page is HTML, no duplicate and above the last level; nothing else is offered |
| CrawlRun.ReadLevels | pkg/sitemap/crawl.go:82-105 | The loops end; a crawl is cut short only by a full list, the page limit or the deadline; the start is read first |
| CrawlRun.ReadLevel | pkg/sitemap/crawl.go:86-100 | A level is read to its end unless one of the three is met |
| CrawlRun.TakeBatch | pkg/sitemap/crawl.go:91-93 | A batch never plans more pages than the limit leaves |
| SiteCrawl.Crawler.Add | pkg/sitemap/service.go:195-205 | In place: listing one URL |
| SiteCrawl.Crawler.Allow | pkg/sitemap/urlshape.go:55-67 | In place: the sampler lets twenty URLs of a shape pass |
| SiteCrawl.Crawler.Enqueue | pkg/sitemap/crawl.go:228-242 | In place: the robots rules are asked before the sampler, and a blocked URL is counted once |
| SiteCrawl.Crawler.Consume | pkg/sitemap/crawl.go:159-226 | In place: one page, read or not |
| SiteMap.Map | pkg/sitemap/service.go:46-134 | Sitemaps, then the crawl, told by the answers: the list is what both found, each entry with its origin; targets are sound and linked; and without a limit the sitemaps are closed and the crawl has settled every link |
| SiteMap.ReadSitemaps | pkg/sitemap/service.go:94-112 | At most 25 sitemaps are loaded, each once, and the loop stops early only at a limit |
| SiteMap.FinishedSitemapsAreClosed | pkg/sitemap/service.go:94-112 | When nothing is queued, the sitemaps loaded are exactly the first ones and those that a loaded one names |
| SiteMap.ConsumeSitemapKeeps | pkg/sitemap/service.go:207-233 | One more sitemap: its entries are offered and its children queued once |
| CrawlBrowser.BrowserBudgetsHold | pkg/sitemap/crawl.go:124-157 | However concurrent fetches interleave on the two counters, at most 5 pages are explored and 25 rendered |
| CrawlBrowser.BrowserIsCalledIff | pkg/sitemap/crawl.go:124-150 | In every interleaving the browser is called exactly while its budget lasts, for the pages that the mode, the option or the plain response ask it for |
| CrawlBrowser.StepKeeps | pkg/sitemap/crawl.go:124-157 | Each atomic step keeps the calls equal to the counter, up to its limit |
| Waterfall.EachLoaderOnceInOrder | pkg/fetch/orchestrator.go:60-180 | Replay, plain HTTP, browser and solver are asked at most once each, in that order |
| Waterfall.StopsAtTheFirstAnswer | pkg/fetch/orchestrator.go:93-180 | The waterfall stops at the first conclusive answer and not before one: else every loader open to the host is asked |
| Waterfall.AnswersAreTheLoaders | pkg/fetch/orchestrator.go:93-180 | Each loader is asked what it has to be: the replay with the stored clearance, the others with the session of the answer before theirs |
| Waterfall.SettleTells | pkg/fetch/orchestrator.go:182-283 | What a run answers, told by its visits: ok with the document's content, links, title, address and type exactly if the last one is readable, dead exactly if it is dead, else no content; and one attempt for each visit, with its word |
| Waterfall.SplitLosesOnlyTheSession | pkg/fetch/orchestrator.go:60-91 | For all loaders: the HTTP stage followed by the browser stage is the whole waterfall (result, routes, clearances, attempts in a row) without the session of the plain response, exactly when no saturated browser is needed |
| Waterfall.SplitIsWholeIff | pkg/fetch/orchestrator.go:60-91 | For all loaders: it is the whole waterfall itself exactly when, besides, the whole waterfall does not depend on that session |
| Waterfall.SplitAgreesIff | pkg/fetch/orchestrator.go:60-91 | For loaders that ignore that session: exactly when no saturated browser is needed |
| Waterfall.SessionCanMatter | pkg/fetch/orchestrator.go:72-91 | Loaders with which the whole run succeeds and the split run fails, for want of the session |
| Waterfall.NextRunBenefits | pkg/fetch/orchestrator.go:124-163 | What a run teaches the next: an earned clearance is replayed first, a useless one never again, a browser success skips the plain request, and other hosts are untouched |
| WaterfallService.Service.Extract | pkg/fetch/orchestrator.go:60-70 | In place: the result of the whole waterfall, which is what its visits tell, and its routes and clearances |
| WaterfallService.Service.ExtractHTTP | pkg/fetch/orchestrator.go:72-82 | In place: the result its visits tell exactly if the last one ends the stage, else the demand for a browser |
| WaterfallService.Service.ExtractBrowser | pkg/fetch/orchestrator.go:84-91 | In place: a capacity error exactly if the browser had none, else the result its visits tell |
| WaterfallService.Service.Attempt | pkg/fetch/orchestrator.go:182-210 | In place: one visit, its record, and the capacity error of a deferring run |
| WaterfallService.Service.ResolveDocument | pkg/fetch/orchestrator.go:212-240 | In place: readable content ends the run, with the document shown as it is; and an unreadable page is recorded as empty |
| WaterfallService.Service.TryReplay | pkg/fetch/orchestrator.go:124-141 | In place: a stored clearance that does not help is forgotten |
| WaterfallService.Service.RunHttpStage | pkg/fetch/orchestrator.go:93-122 | In place: the stage's outcome, or the session for the browser |
| WaterfallService.Service.TryPatchright | pkg/fetch/orchestrator.go:143-163 | In place: only a browser success is remembered as route and clearance |
| WaterfallService.Service.TryCapSolver | pkg/fetch/orchestrator.go:165-180 | In place: the last loader settles the run |
| IdentityKeys.KeyIsInjective | pkg/browser/identity.go:36-43 | Slots and generations are told apart by their keys |
| IdentityKeys.DecimalReads | pkg/browser/identity.go:45-53 | The numbers in a key are read back as they were, without leading zeros |
| IdentityTheorems.KeysAreRetiredOnce | pkg/browser/identity.go:86-111 | However many renders report a block, a process retires a key once, and never a live one |
| IdentityTheorems.KeysNeverComeBack | pkg/browser/identity.go:45-53 | With one process at a time, while every restart finds the generations saved, no retired key comes back |
| IdentityTheorems.EverIsPassed | pkg/browser/identity.go:86-111 | In every run, restarts included, the identities ever retired are those from the first stored generation up to the latest their slot has passed |
| IdentityTheorems.RestartReusesIff | pkg/browser/identity.go:104-110 | In every reachable state, a restart brings a retired key of a slot back exactly when the slot has once been past the stored generation; before the first time, exactly when the database lags behind the process |
| IdentityTheorems.KeysCanComeBack | pkg/browser/identity.go:104-110 | A run in which one does: two blocks, a generation that is not saved, and a restart |
| IdentityProcesses.RunIsCleanIff | pkg/browser/identity.go:45-111 | Over every run of any number of processes on one database, saved or not: no retired key is in use exactly when no step reads a retired generation, moves on to one, or retires a key that another process uses |
| IdentityProcesses.SharingIsCleanIff | pkg/browser/identity.go:86-111 | With every generation saved, exactly when a slot is rotated only while no other running process has read it |
| IdentityProcesses.TwoProcessesCollide | pkg/browser/identity.go:86-111 | A run with every save successful in which a retired key stays in use and the stored generation goes back |
| IdentityProcesses.StaysCleanIff | pkg/browser/identity.go:86-111 | One step brings a retired key into use exactly if it is one of those |
| IdentityProcesses.ReportIsRotate | pkg/browser/identity.go:86-111 | A report to one process does to the database just what a rotation does, or nothing |
| IdentityTheorems.GenerationsGrow | pkg/browser/identity.go:102 | Generations grow one at a time, and only by a rotation |
| IdentityTheorems.RotatesOnTheSecondBlock | pkg/browser/identity.go:90-103 | A rotation is exactly the second block of one host that no success of it, no rotation and no restart separates from the first |
| IdentityTheorems.RetiredKeysAreInOnePlace | pkg/browser/client.go:301-327 | A retired key is in exactly one place until it is deleted or dropped, and at most 64 are pending |
| IdentityGenerations.StepKeeps | pkg/browser/client.go:288-327 | Reports, hand-overs, ended batches and restarts keep that account |
| IdentityGenerations.RetireEndsTells | pkg/browser/client.go:308-327 | What a batch's end does: the deletions that succeeded are told so, the failed ones go in front of what is pending, and the last 64 are kept |
| IdentityGenerations.ChosenIsExact | pkg/browser/client.go:308-318 | An entry is kept exactly if its own deletion failed, and in order |
| IdentityGenerations.HandOverTells | pkg/browser/client.go:300-305 | A retired key leaves at the end of one batch with everything that was pending |
| IdentityService.Client.Observe | pkg/browser/identity.go:86-111 | In place: stale keys are ignored, a success clears, a second block rotates |
| IdentityService.Client.TakeBatch | pkg/browser/client.go:300-305 | In place: the whole pending list leaves as one batch |
| IdentityService.Client.Retire | pkg/browser/client.go:308-327 | In place: failed deletions go back to the front, and the oldest over the limit are dropped |

## Left out

- Chrome, CDP relay, HTTP, TLS, gzip, the file system and Postgres: each is a step that succeeds or fails.
- A worker's return and River's record of what it returned are one step.
- River's internals: jobs are a map from kind and URL to a state. A retry is taken to leave a running job alone and to make any other available; a rescued job's worker is taken to have stopped.
- Parsing of URLs, HTML, XML and JSON, `Shape`'s text, content classification, `extractAddresses` and link extraction, with their own caps on links per page: parameters. Robots lines come cut into name and value, and a character of a pattern or a path stands for one byte.
- Hashing: an identity's directory, a host's slot and the persona seed are parameters.
- Clocks: deadlines, tickers and time-outs are steps that may happen at any time; evictions among identities last used in the same millisecond may pick any of them. Routes and clearances do not expire during a run of the waterfall.
- Identifiers of sessions are taken to be distinct, as 128 random bits are.
- A Chrome whose close timed out is taken to be gone once it was killed and waited for.
- One writer process without crashes. `IdentityGenerations` and `IdentityTheorems` have one process at a time on the stored generations; several are in `IdentityProcesses`, where a rotation and its save are one step.
- `hostGate`: a worker is told whether its host is free.
- `sort.Slice` is an insertion sort here; all orders it is used with are total on their inputs, so the result is the same.
- UrlTrie.TrieNode.Insert: descends by recursion, one node at a time, where the source loops with a cursor.
- PoolService.Identities.Acquire: references between identities, browsers and leases are indexes, so aliasing of these objects is by number.
- Which URLs on the way of a load belong to the host of the robots rules is a parameter of `CrawlAttempts`. Scripts, sitemaps and robots.txt itself, which are no pages, are loaded without asking the rules.
- Crawled scripts and their endpoints, the similarity index, and the report's outcome word and summary times: lists and flags with no further protocol.
- Profile selection across nodes, node health, `clampClicks`, request deadlines and error texts of the browser client.
- The waterfall's error texts, durations and content truncation; a URL that does not parse ends both stages alike before any loader is asked.
- Command line, configuration, API handlers, dashboard, personas, challenges, page exploration and CapSolver calls: plumbing with branch-level claims only.

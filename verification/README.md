# Verified model of the account switcher

A Dafny model of the parts of ai-auth-switch that several threads and processes share: the account pool and what is
built on it, the credential files underneath, and the desktop integration. Each part is stated twice. Functions on values
say what a step does; classes and methods perform it as the Python does, field by field and loop by loop, and are proved
against the functions. What the code is for is then proved about the functions, over all inputs, runs and interleavings.

`dafny verify dfyconfig.toml` checks the whole project.

| files | part |
|---|---|
| `Wrappers`, `Text`, `Dicts`, `AccountUsage`, `Refreshing` | optional values, Python strings and dictionaries, quota snapshots, when a token is due |
| `Pool`, `PoolCoordinator`, `PoolFairness`, `PoolHealthRuns`, `PoolRoutes`, `PoolLeases` | the pool file: leases, sticky routes, health; fair spreading; back-off, routes and leases over runs |
| `RefreshClaims` | the in-memory claims for token refreshes |
| `Router`, `Multiplexer`, `PoolAppServer`, `FanOutResults` | the app-server route table, the multiplexer, and the reply to a fanned-out request |
| `ReplyLaw`, `LeaseLaw`, `MuxStructure`, `MuxRouting`, `ControlLaw`, `ThreadLaw`, `AnswerLaw`, `MuxRuns`, `FanOutRuns`, `MuxDepartures`, `MovedRequests` | what every step of the multiplexer keeps, where requests and answers go, the run theorems, and the runs that break them |
| `Failover`, `StreamedResponse`, `RelayedContent`, `FailoverPath`, `ResponsesProxy` | the two retry loops over accounts, what is sent, and which accounts are used |
| `Credentials`, `RefreshTokens`, `ActiveProfile` | sessions and refreshes on one profile, single-use tokens, the active credential file |
| `Aliases`, `AliasRuns`, `AliasStore` | numbered aliases |
| `UsageCache` | the usage cache |
| `AutoRun` | the scheduler of single commands |
| `Frames`, `WebSocket`, `ProcessTree`, `Rotation` | the desktop integration: RFC 6455 frames (sections 5.2 to 5.5) and messages, process inspection, account rotation |

How the outside is modelled:

- A body under `store.lock()` or `profile_lock` is one step. What it reads of the clock, of live processes and of
  credential files is one value for the step.
- Fetches, token exchanges, process starts and exits, writes and reads have outcomes chosen from outside, as arguments.
- Other threads and processes are arbitrary sequences of pool steps, between the steps of a call or of a run.
- Digests are the contents they are taken of; times and percentages are reals; the identity of a credential file and the
  expiry of a token are arbitrary functions of their text.

Places where the code does not do what it is for, each with a lemma that shows it and the condition under which it does:

- A `thread/list` whose write to a backend fails is answered with an error but stays registered. When its backends are
  lost it is answered again if the write was the last of the fan-out, and otherwise it stays in flight for ever, because
  it expects answers of backends that were not asked (`MuxDepartures.BrokenListIsAnsweredTwice`,
  `FanOutRuns.BrokenListIsAnsweredAgain`, `FanOutRuns.BrokenListIsInFlight`).
- The server sends no heartbeats. A lease that it has held for a day, as the control lease is as long as its backend stays
  in control, is pruned by the next reservation that anyone is granted, the server included, while the server goes on
  holding it (`MuxDepartures.DayOldLeaseIsPruned`, `MuxRuns.LeasesAreConserved`, `MuxRuns.OnlyPrunedAreMissing`).
- A request of a thread that is moved to another backend is recorded against the old one, so the answer is refused after
  the request has been forgotten (`MovedRequests.MovedRequestRun`, `MovedRequests.MovedRequestIsLost`, `ReplyLaw.ResponseCounts`, `LeaseLaw.ResponseConserves`).
- A lease is lost when the backend chosen for a request does not come up again right before the write, because that
  restart is outside the `try`; and when the request has no id (`LeaseLaw.ClientConserves` is exact about both).
- An `initialized` that carries an id is never answered (`ReplyLaw.RequestCounts`).
- A later failure of another kind replaces the expired status of an account (`PoolHealthRuns.LaterFailureReplacesExpiry`).
- A failure of credentials is recorded under the fingerprint read when the attempt began. When the file has changed in
  between, the account counts as renewed and is let back in, also if the new credentials have been refused already
  (`PoolHealthRuns.StaleFailureLetsBackIn`, `PoolHealthRuns.LateWorkerLetsBackIn`).
- A streamed answer with a retryable status on the last turn counts as a success of its account, while the model listing
  counts it as a failure (`FailoverPath.LoopsMarkAlike`). This needs an opener that returns such an answer; the default
  one of `urllib` raises an `HTTPError`, which both loops mark as a failure.
- A callback that raises an `OSError` in an inner handler is taken for a failure of the account, and a second response can
  follow the one begun (`StreamedResponse.BrokenHeadersAreSentAgain`, `StreamedResponse.SecondResponseExactly`).
- Activation brings the file that has replaced the link back to the profile of its account without looking at which is
  newer, so that a credential refreshed meanwhile is overwritten and not backed up
  (`ActiveProfile.SavedCredentialSurvives`, `ActiveProfile.ActivationOverwritesNewer`).
- A token exchange whose answer is lost leaves a retired token on file (`RefreshTokens.ExchangeLeavesInStep`,
  `RefreshTokens.StrandedForever`).
- An active turn that a rotation cycle sees only when it is about to switch does not start the grace period anew
  (`Rotation.LateUseIsForgotten`, `Rotation.NextQuietCycleSwitches`, `Rotation.GracePeriodIsNotKept`). `SwitchesAreTimed` covers what a cycle sees by itself.
- The help of `desktop rotate --now` says that it ignores the cooldown; a manual switch never looks at it
  (`Rotation.ManualSwitchIgnoresClock`).
- The comment that other providers' numbered aliases are kept unchanged fails for one whose name is among provider1 to
  providerN (`Aliases.OthersAreKept`).
- An outcome that cannot be written to the usage cache, a refusal of credentials included, leaves an earlier success to
  be reported (`UsageCache.UnwrittenRefusalIsForgotten`, `UsageCache.UnwrittenSuccessIsForgotten`,
  `UsageCache.ReportsAreTheLatestSuccess`).

## Model

| member | source | states |
|---|---|---|
| `Pool.KeyOrder` | ai_auth_switch/pool.py:442-450 | the sort key orders candidates totally: "not better than" is transitive, so the head of the sorted list is well defined |
| `Pool.Best` | ai_auth_switch/pool.py:442-450 | the chosen candidate is in the list and no candidate sorts before it |
| `AccountUsages.ScarcestWindowDecides` | ai_auth_switch/pool.py:270-280 | an account is usable if and only if it has no error, no free plan, a window, and something left in each; the scarcest window gives what is left, the earliest reset known the tie-breaker |
| `AccountUsages.FreePlans` | ai_auth_switch/usage.py:52-56 | a plan is free if and only if the first four letters after any white space are "free", in either case |
| `Coordinator.PoolCoordinator.PrunedState` | ai_auth_switch/pool.py:387-406 | the two loops drop exactly the leases of dead or silent owners and reset exactly the cooldowns that are over |
| `Coordinator.CountLeases` | ai_auth_switch/pool.py:415-417 | the dictionary holds the number of leases of every account |
| `Coordinator.PoolCoordinator.CandidateList` | ai_auth_switch/pool.py:408-441 | the loop collects the candidates of the specification and records every health change it makes on the way |
| `Coordinator.PoolCoordinator.First` | ai_auth_switch/pool.py:442-451 | one pass finds the head of the sorted list |
| `Coordinator.PoolCoordinator.Reserve` | ai_auth_switch/pool.py:567-648 | the whole new file and the result, for every kind of request; a refused reservation changes nothing |
| `Coordinator.PoolCoordinator.Heartbeat` | ai_auth_switch/pool.py:650-667 | only the first lease with this id gets a new heartbeat |
| `Coordinator.PoolCoordinator.Release` | ai_auth_switch/pool.py:669-675 | exactly the leases with this id go |
| `Coordinator.PoolCoordinator.MarkSuccess` | ai_auth_switch/pool.py:683-697 | the account is healthy, with the fingerprint its file has now |
| `Coordinator.PoolCoordinator.MarkFailure` | ai_auth_switch/pool.py:699-748 | expired, disabled or cooling by kind of failure, with the count raised by one |
| `PoolFairness.CandidatesAre` | ai_auth_switch/pool.py:408-441 | the candidates are exactly the listed accounts with quota and eligible health, each with its lease count |
| `PoolFairness.RouteDecides` | ai_auth_switch/pool.py:567-621 | a request that keeps to its route gets the account of that route if and only if it is listed and eligible; otherwise a recovering request gets the first eligible account, as an unrouted one does, any other is refused, and there is none only when none is eligible |
| `PoolFairness.ReserveGrants` | ai_auth_switch/pool.py:585-640 | a granted lease is new, is of an eligible listed account, and is added to the live ones |
| `PoolFairness.UnroutedReserveHasNoGain` | ai_auth_switch/pool.py:430-451 | the greedy choice: the new lease would not gain by going to any other eligible account |
| `PoolFairness.SpreadIsFair` | ai_auth_switch/pool.py:408-451 | after any number of unrouted reservations, r_p*(n_q+1) >= r_q*n_p for every loaded p and every q |
| `PoolFairness.FairIsOptimal` | ai_auth_switch/pool.py:408-451 | any placement with that exchange property guarantees each lease as much as any other placement of as many leases |
| `PoolFairness.MaxMinFair` | ai_auth_switch/pool.py:408-451 | max-min fairness of whole runs of reservations from an empty pool |
| `PoolRoutes.ReserveRecordsRoute` | ai_auth_switch/pool.py:630-639 | a granted request records its account under its key, the time of the first grant kept; no other route changes, and none for a request without key or one refused |
| `PoolRoutes.RoutesAreLastGranted` | ai_auth_switch/pool.py:585-681 | over every run: the route of a key is the account of the last request granted under it since it was cleared |
| `PoolRoutes.RequestKeepsAccount` | ai_auth_switch/pool.py:593-613 | over every run: a request that keeps to its route gets that account whenever it is listed and eligible |
| `PoolRoutes.FirstDifferenceDecides` | ai_auth_switch/pool.py:442-450 | of two candidates, the first of the five keys in which they differ decides which comes first |
| `PoolRoutes.EqualsTakeTurns` | ai_auth_switch/pool.py:442-451 | over every run: of two equal accounts granted before, an unrouted request gets the one granted earlier |
| `PoolRoutes.ReserveSelects` | ai_auth_switch/pool.py:351-385 | which times of selection a granted request sets: that of its account, and that of a listed account that comes back without one |
| `PoolLeases.GrantedLeaseStays` | ai_auth_switch/pool.py:387-393 | over every run: from its grant on a lease is in the pool if and only if it is not released, and no request is granted while its owner is dead or when it has been silent for longer than the limit |
| `PoolHealthRuns.HealthAfterReserve` | ai_auth_switch/pool.py:351-406 | what a reservation by anyone does to the health of one account |
| `PoolHealthRuns.ReserveMakes` | ai_auth_switch/pool.py:351-406 | the same by cases: a wait that is over ends with the failures still counting; refused credentials start anew with another file, or are tied to the file there is |
| `PoolHealthRuns.EligibleIs` | ai_auth_switch/pool.py:283-288 | who may be picked, by the record as it is in the file: pruning and renewed credentials included |
| `PoolHealthRuns.WaitsDouble` | ai_auth_switch/pool.py:735-738 | about the recorded waits themselves: the base after a first failure, doubled by each further one up to the sixth, the same from then on, and capped by the maximum |
| `PoolHealthRuns.WaitsGrow` | ai_auth_switch/pool.py:735-738 | the wait, of factors 1, 2, 4, 8, 16 and 32, never shrinks in the number of failures and never exceeds the maximum |
| `PoolHealthRuns.NoReserveDuringBackoff` | ai_auth_switch/pool.py:283-288 | after k failures in a row no reservation picks the account before the k-th of these waits since the last failure is over, whatever comes between |
| `PoolHealthRuns.BackoffIsExact` | ai_auth_switch/pool.py:734-746 | and it is eligible again at exactly that time |
| `PoolHealthRuns.OutExactlyUntil` | ai_auth_switch/pool.py:734-746 | over whole runs of reservations, successes and passing failures by anyone, from a clean record: the account is eligible if and only if the wait for its failures in a row is over |
| `PoolHealthRuns.FailureMakes` | ai_auth_switch/pool.py:699-748 | what a failure records: out until the file changes for 401, 403 and auth, disabled, or else cooling for the wait of one more failure; no other account is touched |
| `PoolHealthRuns.SuccessMakes` | ai_auth_switch/pool.py:683-697 | what a success records: a clean record, the fingerprint of the file, and a time of selection for an account that comes back without one |
| `PoolHealthRuns.StepKeepsExpired` | ai_auth_switch/pool.py:351-385 | one step, with the file unchanged, keeps an expired account expired if and only if it is not a success of it, a failure of another kind, or one recorded under an older file |
| `PoolHealthRuns.ExpiredStays` | ai_auth_switch/pool.py:351-385 | over any run with the file unchanged, it is expired at every point if and only if there is no such step |
| `PoolHealthRuns.NoReserveWhileExpired` | ai_auth_switch/pool.py:283-288 | and until there is one, no reservation picks it |
| `PoolHealthRuns.ExpiredReturnsWithNewFile` | ai_auth_switch/pool.py:351-385 | it is eligible again if and only if its file can be read and differs from the one that failed |
| `PoolHealthRuns.StaleFailureLetsBackIn` | ai_auth_switch/pool.py:351-385 | departure: after a failure of credentials, the account is eligible at once with its file unchanged if and only if the failure carries an older fingerprint |
| `PoolHealthRuns.LateWorkerLetsBackIn` | ai_auth_switch/pool.py:484-556 | a concrete run: a late refresh worker reports the old credentials and so lets the account with refused new ones back in |
| `PoolHealthRuns.LaterFailureReplacesExpiry` | ai_auth_switch/pool.py:699-748 | departure: a later failure keeps the expired status if and only if it is about credentials too |
| `PoolHealthRuns.ExpiredReturnsAfterNetworkError` | ai_auth_switch/pool.py:734-747 | a concrete run in which an expired account with an unchanged file is eligible again 60 seconds after a network error, and not before |
| `RefreshClaims.RefreshBook.ClaimStale` | ai_auth_switch/pool.py:478-507 | the claim loop claims exactly the profiles that are due, unclaimed, past their back-off and not known dead |
| `RefreshClaims.RefreshBook.RecordOutcome` | ai_auth_switch/pool.py:545-562 | a refreshed or skipped profile loses its back-off, any other keeps it |
| `RefreshClaims.RefreshBook.Discard` | ai_auth_switch/pool.py:563-565 | a finished exchange leaves the in-flight set |
| `RefreshClaims.ClaimsAreExclusiveAndSpaced` | ai_auth_switch/pool.py:478-565 | in every interleaving the in-flight set is exactly the unfinished exchanges, one per profile, and successive claims are spaced |
| `RefreshClaims.ClaimsAreWanted` | ai_auth_switch/pool.py:478-507 | a call claims a profile if and only if it is listed, has a refresh token, is due within five minutes, is not known to be refused, is not in flight and is past its back-off; each once, under the fingerprint of its file |
| `RefreshClaims.OutcomesAreNoted` | ai_auth_switch/pool.py:545-562 | after an exchange, a back-off is lifted if and only if the token was refreshed or not due |
| `Router.IdKeyInjective` | ai_auth_switch/app_server_router.py:203-204 | the text of type and id determines the id |
| `Router.ForwardedIdInjective` | ai_auth_switch/app_server_router.py:162-178 | with colon-free names, pool:{backend}:{type}:{id} determines backend and original id |
| `Router.ForwardedIdNeedsColonFreeNames` | ai_auth_switch/app_server_router.py:162-178 | two backends, two ids and one forwarded id when a name has a colon |
| `Router.SanitizeProfileName` | ai_auth_switch/store.py:36-42 | a stored name has only safe characters and is not reserved |
| `Router.SanitizeIsIdempotent` | ai_auth_switch/store.py:36-42 | a sanitized name sanitizes to itself |
| `Router.SanitizedNamesAreColonFree` | ai_auth_switch/store.py:36-42 | sanitized names have no colon |
| `Router.RunsBecomeUnderscores` | ai_auth_switch/store.py:36-42 | every run of unsafe characters, however long, becomes one underscore, and all else is kept |
| `Router.NamesStoredAsTheyAre` | ai_auth_switch/store.py:36-42 | a name is stored as it is if and only if it has only the listed characters, no underscore at its ends, and is not reserved |
| `Router.AppServerRouteTable.Plan` | ai_auth_switch/app_server_router.py:79-119 | the plan and the remembered request, for every method and thread |
| `Router.AppServerRouteTable.Response` | ai_auth_switch/app_server_router.py:129-147 | the request is forgotten in any case; false when another backend was expected |
| `Router.AppServerRouteTable.Forward` | ai_auth_switch/app_server_router.py:162-178 | the request of a backend is recorded under its forwarded id |
| `Router.AppServerRouteTable.TakeServerRequest` | ai_auth_switch/app_server_router.py:180-192 | the recorded request is handed out once |
| `Router.AnswersReachTheirAsker` | ai_auth_switch/app_server_router.py:162-192 | in any interleaving, an answer is delivered exactly when its request is open, to the backend that asked, under the original id and type |
| `AppServer.PoolAppServer.SelectBackend` | ai_auth_switch/pool_server.py:109-137 | the reservation, and its release when the backend does not come up |
| `AppServer.PoolAppServer.EnsureBackend` | ai_auth_switch/pool_server.py:139-161 | a dead backend is retired before a new one is started |
| `AppServer.PoolAppServer.SendToBackend` | ai_auth_switch/pool_server.py:170-212 | tracked and written; or forgotten, released and its backend retired |
| `AppServer.PoolAppServer.Initialize` | ai_auth_switch/pool_server.py:214-228 | the control backend is moved if need be, reached, and named in the reply |
| `AppServer.PoolAppServer.ClientMessage` | ai_auth_switch/pool_server.py:230-311 | the new state and whether it raised, for every client message |
| `AppServer.PoolAppServer.Migrate` | ai_auth_switch/pool_server.py:292-311 | a thread moves to a newly selected backend, under a lease of its own |
| `AppServer.PoolAppServer.Global` | ai_auth_switch/pool_server.py:313-346 | control moves if need be; the request goes there, or a list is fanned out |
| `AppServer.PoolAppServer.AskEach` | ai_auth_switch/pool_server.py:333-346 | each running backend is registered before it is asked; a failed write ends the loop with its key registered |
| `AppServer.PoolAppServer.FailPendingOf` | ai_auth_switch/pool_server.py:387-398 | every pending request of the backend is answered with an error and its lease released, in order; the others stay |
| `AppServer.PoolAppServer.FailAggregatesOf` | ai_auth_switch/pool_server.py:399-411 | every share of the backend counts as an error, and fan-outs that are complete are answered |
| `AppServer.PoolAppServer.RetireBackend` | ai_auth_switch/pool_server.py:413-450 | the backend goes, with the control lease if it had control; its health is marked; its requests fail |
| `AppServer.PoolAppServer.BackendResponse` | ai_auth_switch/pool_server.py:452-476 | an answer finishes a share, or is passed on with its lease released and the health marked |
| `AppServer.PoolAppServer.BackendEvent` | ai_auth_switch/pool_server.py:452-482 | answers, requests and notifications of a backend, and the retirement of one that answers wrongly |
| `AppServer.PoolAppServer.Handle` | ai_auth_switch/pool_server.py:510-547 | one turn of the server loop |
| `AppServer.PoolAppServer.Serve` | ai_auth_switch/pool_server.py:484-547 | the loop over any sequence of events performs the specified run |
| `ReplyLaw.RetireKeepsTotal` | ai_auth_switch/pool_server.py:386-450 | losing a backend turns requests in flight into replies, one for one |
| `ReplyLaw.RequestCounts` | ai_auth_switch/pool_server.py:230-346 | a request with an unused id adds one to replies plus places in flight; exactly two exceptions: an `initialized` with an id adds none, a broken fan-out adds two |
| `ReplyLaw.ResponseCounts` | ai_auth_switch/pool_server.py:452-468 | an answer leaves the sum as it is; exactly two exceptions: unsolicited adds one, misrouted takes one |
| `LeaseLaw.RetireBalance` | ai_auth_switch/pool_server.py:386-450 | losing a backend releases exactly the leases its requests and the control reservation held |
| `LeaseLaw.ClientConserves` | ai_auth_switch/pool_server.py:170-346 | a client message keeps the leases in the pool equal to those held, if and only if it does not lose one and holds none at its end that its own reservation has pruned as stale |
| `LeaseLaw.ClientBalance` | ai_auth_switch/pool_server.py:170-346 | what a client message leaves, however old the leases are: exactly one lease too many if it loses one, and too few by exactly those pruned |
| `LeaseLaw.ResponseConserves` | ai_auth_switch/pool_server.py:452-468 | an answer does, if and only if it is not swallowed as misrouted while holding a lease |
| `LeaseLaw.ForeignConserves` | ai_auth_switch/pool.py:567-675 | a step of another process keeps them equal, if and only if it is not a granted reservation that finds one of ours stale |
| `MuxStructure.RetireWf` | ai_auth_switch/pool_server.py:386-450 | losing a backend keeps keys unique, fan-outs counted and the control lease with the registered control backend |
| `MuxStructure.FanOutWf` | ai_auth_switch/pool_server.py:333-346 | a new fan-out expects as many answers as it has keys, none of them in use before |
| `MuxStructure.ListKeyTellsClient` | ai_auth_switch/pool_server.py:339-343 | an internal list id tells the text of the client id it is for |
| `MuxRouting.RequestRight` | ai_auth_switch/pool_server.py:230-346 | every request in flight is where its answer is expected, unless it was moved |
| `ControlLaw.GlobalRequestsAreServed` | ai_auth_switch/pool_server.py:313-346 | a global request is in flight only at the control backend: the one of before if that runs and its account is healthy, and then it is not left; otherwise one whose account was reserved in this message and was eligible. It is in flight if the write works and one of the two can be had |
| `ControlLaw.ControlIsRemembered` | ai_auth_switch/pool_server.py:322-332 | where control moves to: without one, the account recorded under __control__ if it can be reserved; otherwise the first in the order of the pool; and it is recorded |
| `ControlLaw.InitializeIsServed` | ai_auth_switch/pool_server.py:214-228 | an initialize names the control backend: the one of before if its account is healthy, running or not; otherwise one reserved in this message; an error only if it cannot be brought up |
| `ThreadLaw.ThreadsBelong` | ai_auth_switch/app_server_router.py:129-160 | over every run: a thread is bound to the backend that last answered for it, announced it, or had it moved there |
| `ThreadLaw.ThreadRequestsAreServed` | ai_auth_switch/pool_server.py:275-311 | over every run: a request that names a thread is refused with -32004 if and only if there is no such backend; otherwise it is in flight only at that one while it runs and is healthy, else at one newly reserved, and its answer is expected from that one |
| `ThreadLaw.UnnamedThreadsAreRefused` | ai_auth_switch/app_server_router.py:88-119 | a request about a thread that does not say which is refused with -32004 |
| `ThreadLaw.StartsAreServed` | ai_auth_switch/pool_server.py:267-271 | a request for a new thread is in flight only at a backend reserved in this message, which alone may answer it |
| `ThreadLaw.AnswerRoutes` | ai_auth_switch/app_server_router.py:129-147 | an accepted answer binds the thread it is about to its backend; the first thread bound also fixes control |
| `AnswerLaw.AnswersAreDelivered` | ai_auth_switch/pool_server.py:452-475 | an answer is passed on, its request and lease go, and its account is marked: clean, expired after 401 or 403, resting after any other error; unless another backend was to give it, which is a loss of its backend |
| `AnswerLaw.LossIsReported` | ai_auth_switch/pool_server.py:386-450 | a lost backend: nothing is in flight there, every request there is answered with -32005, its account rests, and all else stays |
| `AnswerLaw.SharesComeIn` | ai_auth_switch/pool_server.py:452-463 | a share of a list is put behind those that have come in, and with the last one the client is sent all of them combined, in that order |
| `AnswerLaw.ListsAskEveryBackend` | ai_auth_switch/pool_server.py:333-346 | a list is asked of every running backend and of no other |
| `AnswerLaw.OtherRequestsAreServed` | ai_auth_switch/pool_server.py:288-311 | any other request goes to the control backend whatever its health, or to one newly reserved if there is none; control does not move |
| `AnswerLaw.NothingIsAsked` | ai_auth_switch/pool_server.py:251-257 | a message without a method is an error, reported under its id if it has one; an initialized is dropped |
| `AnswerLaw.CallsComeBack` | ai_auth_switch/pool_server.py:236-250 | a request of a backend is shown under an id under which the answer comes back to that backend, once; a second answer is dropped |
| `MuxRuns.ExactlyOneReply` | ai_auth_switch/pool_server.py:484-547 | over whole runs in which clients and backends keep the protocol: every request is, after every step, answered once or in flight once, if and only if no fan-out breaks, no `initialized` has an id and no answer is misrouted |
| `MuxRuns.OnlyMovedAreMisrouted` | ai_auth_switch/pool_server.py:292-311 | over such runs an answer is misrouted only if some request of a thread has moved |
| `MuxRuns.ControlLeaseNamesControlBackend` | ai_auth_switch/pool_server.py:214-228 | over every run, without any assumption: a control lease names the registered control backend |
| `MuxRuns.LeasesAreConserved` | ai_auth_switch/pool_server.py:484-547 | over whole runs: the leases of the server in the pool are, after every step, exactly those of pending requests and the control reservation, if and only if no step loses one as named and none prunes one that is held |
| `MuxRuns.OnlyPrunedAreMissing` | ai_auth_switch/pool.py:387-393 | over whole runs that lose none, however long leases are held: the pool has exactly the leases that are held and were never pruned, each once, and so none that is not held |
| `FanOutRuns.SurplusNeverShrinks` | ai_auth_switch/pool_server.py:333-411 | over every run, without any assumption: the answers a fan-out expects beyond its keys never get fewer, and nothing sent is taken back |
| `FanOutRuns.FanOutsAreComplete` | ai_auth_switch/pool_server.py:333-346 | over whole runs in which clients and backends keep the protocol: every fan-out always expects exactly as many answers as it has registered keys, if and only if no list breaks before its last write |
| `FanOutRuns.FinishedListsAreMerged` | ai_auth_switch/pool_server.py:348-411 | over every run, without any assumption: a fan-out that expects no more answers has been answered with all of them combined, each thread once |
| `FanOutRuns.BrokenListIsAnsweredAgain` | ai_auth_switch/pool_server.py:333-411 | departure: a thread/list whose write fails is answered with an error and, when all backends are lost then, again if and only if that write was the last of the fan-out |
| `FanOutRuns.BrokenListIsInFlight` | ai_auth_switch/pool_server.py:333-411 | departure: if it was not the last, the request is in flight for ever, whatever happens |
| `MuxDepartures.BrokenListIsAnsweredTwice` | ai_auth_switch/pool_server.py:333-346 | departure: a run in which a thread/list whose write fails is answered twice |
| `MuxDepartures.DayOldLeaseIsPruned` | ai_auth_switch/pool.py:387-393 | departure: a run in which the control lease, held for a day, is pruned by the reservation of another process while the server goes on holding it |
| `MuxDepartures.GreetingIsAllowed` | ai_auth_switch/pool_server.py:214-228 | the hypotheses of the run theorems are met by a run after which the server holds a lease |
| `MovedRequests.MovedRequestRun` | ai_auth_switch/pool_server.py:292-311 | departure: a run in which a request is moved, answered where it was moved to, and never replied to |
| `MovedRequests.MovedMessage` | ai_auth_switch/pool_server.py:292-311 | a moved request waits at a backend whose answer will be refused |
| `MovedRequests.MovedRequestIsLost` | ai_auth_switch/pool_server.py:464-468 | departure: every moved request is swallowed when its backend answers, and never replied to |
| `FanOutResults.MergeResults` | ai_auth_switch/pool_server.py:348-359 | the two loops merge the fields of all results, lists growing and other values as first met |
| `FanOutResults.WithoutRepeats` | ai_auth_switch/pool_server.py:360-372 | the loop keeps the first entry of each id, in order |
| `FanOutResults.FinishAggregate` | ai_auth_switch/pool_server.py:348-384 | the combined reply, as the multiplexer sends it |
| `FanOutResults.UniqueKeepsFirsts` | ai_auth_switch/pool_server.py:360-372 | removing repeats keeps exactly one entry per id, the first, and loses no id |
| `FanOutResults.ThreadsAreMergedOnce` | ai_auth_switch/pool_server.py:348-372 | the combined list has every entry of every answer once |
| `FanOutResults.ErrorOnlyWithoutResults` | ai_auth_switch/pool_server.py:373-384 | the client gets an error if and only if some backend reports one and none gives a result |
| `FanOutResults.FieldsAreMerged` | ai_auth_switch/pool_server.py:348-372 | every field, for answers of any kind: what the first answer that has it says, a list going on with those of later answers, repeats removed under "data" and "threads" only |
| `FanOutResults.UniqueKeepsOrder` | ai_auth_switch/pool_server.py:360-372 | the entries that are kept stay in order |
| `FanOutResults.ErrorIsReported` | ai_auth_switch/pool_server.py:373-384 | the error the client gets is the first one reported |
| `Proxy.PoolResponsesProxy.ReserveAccount` | ai_auth_switch/pool_responses.py:303-345 | fetch, then reserve with the request of this turn; no account when nothing is saved |
| `Proxy.PoolResponsesProxy.OpenStream` | ai_auth_switch/pool_responses.py:618-710 | every outcome of an open streamed request and of the callbacks: what is marked and sent, and what is left to the outer handler |
| `Proxy.PoolResponsesProxy.StreamWith` | ai_auth_switch/pool_responses.py:618-734 | the whole streamed turn: its marks, what is sent, and whether it goes on, returns or raises |
| `Proxy.PoolResponsesProxy.EmitResponse` | ai_auth_switch/pool_responses.py:594-600 | the calls of the callbacks up to the one that raises |
| `Proxy.PoolResponsesProxy.OpenModels` | ai_auth_switch/pool_responses.py:456-565 | the same for the model listing |
| `Proxy.PoolResponsesProxy.OneTurn` | ai_auth_switch/pool_responses.py:602-734 | a whole turn, with the steps of other processes around it and callbacks that may raise; the lease is released however it ends |
| `Proxy.PoolResponsesProxy.StreamRequest` | ai_auth_switch/pool_responses.py:578-734 | the call as a whole |
| `Proxy.PoolResponsesProxy.Forward` | ai_auth_switch/pool_responses.py:400-427 | the streamed response in one piece; the made-up 502 only when the call may take no turn |
| `Proxy.PoolResponsesProxy.ForwardModels` | ai_auth_switch/pool_responses.py:429-576 | the model listing as a whole |
| `Proxy.EmitReads` | ai_auth_switch/pool_responses.py:408-427 | the caller reads off exactly the status and the chunks that were emitted |
| `StreamedResponse.StreamSendsOneResponse` | ai_auth_switch/pool_responses.py:578-734 | with callbacks that work: a returning call emits headers once, before every chunk, and touches no account afterwards; a raising one emits nothing; it falls through if and only if it may take no turn |
| `StreamedResponse.SecondResponseExactly` | ai_auth_switch/pool_responses.py:602-729 | whatever the callbacks do: at most one response is begun if and only if every callback error in an inner handler is followed by a turn that finds no account and has nothing to send |
| `StreamedResponse.BrokenHeadersAreSentAgain` | ai_auth_switch/pool_responses.py:670-729 | departure: a run in which the headers of a response raise and the headers of a second one are sent |
| `Failover.NoLeaseIsLeaked` | ai_auth_switch/pool_responses.py:602-734 | however a call ends, and whatever others do meanwhile, no lease it took is in the pool or ever will be |
| `RelayedContent.ClientGetsAnswer` | ai_auth_switch/pool_responses.py:578-734 | with callbacks that work, both loops: nothing is sent before the last turn. What is sent then is the status and all chunks of its upstream's answer, in order; or the status and body of its refusal; or an error of its own; or, without an account, the last rejected answer of the turns before |
| `RelayedContent.CallerIsHanded` | ai_auth_switch/pool_responses.py:429-576 | the same for what the caller of forward and of forward_models is handed |
| `RelayedContent.TurnSends` | ai_auth_switch/pool_responses.py:602-729 | one turn: which outcomes end the call and with what, and after which it goes on, keeping the rejected answer |
| `RelayedContent.KeepsLastRejection` | ai_auth_switch/pool_responses.py:688-701 | while a call goes on it keeps the last rejected answer, and has sent nothing |
| `RelayedContent.TurnTakes` | ai_auth_switch/pool_responses.py:602-626 | the first turn of a request with a route keeps to its account if that can be reserved; every other turn takes the first in the order of the pool; none only if none is eligible |
| `RelayedContent.TurnMarks` | ai_auth_switch/pool_responses.py:626-729 | the mark of a turn: expired without a token and after 401, resting after any other status worth retrying and any error, clean after an answer relayed to its end, and untouched after another refusal |
| `RelayedContent.BrokenTurnMarks` | ai_auth_switch/pool_responses.py:702-729 | the mark of a turn whose callback breaks, by what was being sent and by whether the loop catches the error |
| `RelayedContent.BrokenCallbackCutsShort` | ai_auth_switch/pool_responses.py:702-729 | a callback that breaks has been given what one that works would, up to the call that raises |
| `RelayedContent.LargeRequestsAreRefused` | ai_auth_switch/pool_responses.py:586-601 | a request of more than 32 MiB is refused with 413 before any account is taken |
| `FailoverPath.FailureBars` | ai_auth_switch/pool.py:699-748 | a failure keeps the account out for at least the shortest cooldown, its file unchanged, if and only if it is not of credentials that the file no longer has |
| `FailoverPath.RunKeepsBarred` | ai_auth_switch/pool.py:283-288 | over any run in that time it stays out, if and only if no step is a success of it or a failure of its older credentials |
| `FailoverPath.NeverRevisits` | ai_auth_switch/pool_responses.py:602-701 | the accounts taken are pairwise distinct, so opens are at most the turns allowed and the accounts offered |
| `FailoverPath.LoopsMarkAlike` | ai_auth_switch/pool_responses.py:523-543 | with working callbacks the two loops record the same health if and only if it is not a retryable status read to its end on the last turn |
| `FailoverPath.LastRejectionIsRecorded` | ai_auth_switch/pool_responses.py:688-710 | departure: that account is left healthy with a clean record by the streaming loop, unless a callback breaks, and failed by the other |
| `Credentials.ProfileStore.SyncProfileAuth` | ai_auth_switch/store.py:764-833 | unchanged, installed, or put aside and refused, by digest and identity |
| `Credentials.ProfileStore.InstallLink` | ai_auth_switch/wrapper.py:188-199 | the locked step that starts a session |
| `Credentials.ProfileStore.EndSession` | ai_auth_switch/wrapper.py:209-220 | the locked step that ends one |
| `Credentials.StepKeepsIdentity` | ai_auth_switch/store.py:797-833 | a known identity of the saved file is lost if and only if a program writes another account through its link |
| `Credentials.IdentityIsKept` | ai_auth_switch/store.py:764-833 | once the file belongs to a known account it does so at every later point of the run, if and only if no program writes another account through its link |
| `Credentials.EndKeepsCredential` | ai_auth_switch/store.py:774-833 | an unchanged copy, one still linked and one that is gone leave the file as it is; a changed one is stored or put aside, and when which |
| `Credentials.BroughtBackIsKept` | ai_auth_switch/store.py:764-833 | over whole runs: every changed credential brought back is stored then, or put aside for good |
| `Credentials.OnlyOwnCredentialsAreInstalled` | ai_auth_switch/store.py:797-833 | over whole runs: it is stored if and only if it belongs to the account of the file |
| `Credentials.NothingForeignIsStored` | ai_auth_switch/store.py:797-833 | over every run: the end of a session or of a refresh stores nothing of another account than the file had when it started, nor than it has now, where these are known |
| `RefreshTokens.ProfileRefresher.RefreshProfile` | ai_auth_switch/refresh.py:230-315 | the outcome and the new file for every answer, and when the token counts as rotated |
| `RefreshTokens.WhatIsPresented` | ai_auth_switch/refresh.py:254-269 | a token is presented, its own without the white space around it, if and only if there is one and it is due or the refresh is forced |
| `RefreshTokens.HowItEnds` | ai_auth_switch/refresh.py:213-315 | which of four outcomes an answer has, exactly; the new tokens are stored, or put aside, with all that is not given kept; a login is needed for four error codes only |
| `RefreshTokens.CurrentTokenIsKept` | ai_auth_switch/refresh.py:254-306 | over every run against an honest server: its current token is always stored or in the hands of the call that holds the lock, if and only if no answer is lost, no process dies holding new tokens, and all that come back can be stored |
| `RefreshTokens.NoTokenIsReused` | ai_auth_switch/refresh.py:254-306 | in every such interleaving, exchanges that do not reach the server included, the stored token is the current one of the server whenever the lock is free, and no retired token is shown to it |
| `RefreshTokens.AtMostOneExchanges` | ai_auth_switch/refresh.py:260-268 | of the unforced calls whose clock reads t or less, at most one reaches the server |
| `RefreshTokens.ExchangeLeavesInStep` | ai_auth_switch/refresh.py:270-306 | exactly when an exchange leaves the stored token in step with the server |
| `RefreshTokens.LostAnswerStrands` | ai_auth_switch/refresh.py:270-277 | departure: an answer lost on the way back leaves a retired token stored |
| `RefreshTokens.StrandedForever` | ai_auth_switch/refresh.py:270-277 | from then on no refresh changes the file and the server refuses each |
| `ActiveProfile.AuthStore.Activate` | ai_auth_switch/store.py:437-466 | the replaced file goes back to its profile, is backed up, and the path becomes a link |
| `ActiveProfile.AuthStore.Rename` | ai_auth_switch/store.py:488-528 | the profile moves, and is activated again if it was current |
| `ActiveProfile.AuthStore.Remove` | ai_auth_switch/store.py:468-486 | refused for the current profile |
| `ActiveProfile.ActivationMakesCurrent` | ai_auth_switch/store.py:369-410 | after activation the profile is current; every other is still there and of its account |
| `ActiveProfile.ActivationKeepsCredential` | ai_auth_switch/store.py:677-709 | the credential that was active is in a profile or in the backups |
| `ActiveProfile.BackupsAre` | ai_auth_switch/store.py:677-696 | what is backed up: whatever the active path reads as, but for a link to the profile that is activated |
| `ActiveProfile.UnbackedActivation` | ai_auth_switch/store.py:698-728 | without a backup it is kept if and only if it is stored elsewhere or belongs to a saved account |
| `ActiveProfile.SavedCredentialSurvives` | ai_auth_switch/store.py:698-709 | departure: for all homes, exactly when activation, backed up or not, keeps a saved credential: unless the file that replaced the link is of its account and differs, and nothing else stores it |
| `ActiveProfile.ActivationOverwritesNewer` | ai_auth_switch/store.py:437-466 | a concrete home in which activation with a backup loses a refreshed credential |
| `ActiveProfile.SavedCredentialSurvivesRename` | ai_auth_switch/store.py:488-528 | and exactly when renaming keeps it |
| `ActiveProfile.RenamingKeepsCurrent` | ai_auth_switch/store.py:488-528 | the current profile stays current under its new name |
| `ActiveProfile.RenamingKeepsCredential` | ai_auth_switch/store.py:525-527 | renaming loses no credential of the active path |
| `ActiveProfile.RemovingKeepsCurrent` | ai_auth_switch/store.py:468-486 | removing a profile leaves the current profile and its credential as they are |
| `Aliases.AliasIndexIs` | ai_auth_switch/store.py:45-47 | a name has number n if and only if it is the n-th alias name |
| `Aliases.LowestNumberWins` | ai_auth_switch/store.py:555-574 | the command of a profile is that of its lowest-numbered alias with one of its own, or the default |
| `Aliases.GetSynced` | ai_auth_switch/store.py:576-601 | the n-th alias is that of the n-th newest profile with its command |
| `Aliases.SortedFacts` | ai_auth_switch/store.py:652-657 | the order is a permutation, newest first, ties by file name |
| `Aliases.NewestComesFirst` | ai_auth_switch/store.py:63-69 | a profile changed later comes first; of two changed at once, the one whose file name does |
| `Aliases.NumberedExactly` | ai_auth_switch/store.py:582-601 | a name is a numbered alias of the provider if and only if it is one of provider1 to providerN |
| `Aliases.OthersAreKept` | ai_auth_switch/store.py:582-601 | any other alias is kept if and only if its name is not one of those |
| `AliasRuns.SyncKeepsCommand` | ai_auth_switch/store.py:555-601 | synchronizing changes no command |
| `AliasRuns.SyncIsIdempotent` | ai_auth_switch/store.py:534-604 | synchronizing twice is synchronizing once |
| `AliasRuns.CommandsStay` | ai_auth_switch/store.py:468-604 | over any run of saves, removals, renames and synchronizations a surviving profile keeps its command |
| `AliasRuns.NumberedCommandsStay` | ai_auth_switch/store.py:534-604 | and the next synchronization puts it under the number of the profile |
| `AliasStores.CommandByNumber` | ai_auth_switch/store.py:560-563 | sorting the aliases by number changes no command |
| `AliasStores.AliasStore.CollectCommands` | ai_auth_switch/store.py:555-574 | the loop collects the command of every saved profile |
| `AliasStores.AliasStore.SyncNumberedAliases` | ai_auth_switch/store.py:534-604 | the new table and the list of aliases, nothing for other providers, and a refusal without a command |
| `Frames.BigEndianRoundTrip` | ai_auth_switch/desktop.py:413-415 | a length written in n bytes is read back |
| `Frames.MaskTwice` | ai_auth_switch/desktop.py:416-417 | masking twice with one key gives back the payload |
| `Frames.FrameRoundTrip` | ai_auth_switch/desktop.py:407-446 | reading what was written gives back the frame and leaves the rest, for payloads up to 16 MiB and every mask |
| `Frames.LongFrameIsRefused` | ai_auth_switch/desktop.py:437-440 | a longer payload is refused |
| `Frames.FrameOnWire` | ai_auth_switch/desktop.py:407-446 | the layout of section 5.2: flags and opcode, the length in as few bytes as it takes, the key, and every bit of the payload turned over where that bit of the key is set |
| `Frames.FirstBytes` | ai_auth_switch/desktop.py:407-466 | the first bytes of the frames in use, by the opcodes of section 11.8 |
| `WebSocket.Reassembly` | ai_auth_switch/desktop.py:425-465 | whatever frames and pings a message is cut into, the reader decodes exactly its fragments put together and answers each ping in order |
| `WebSocket.CloseEndsReading` | ai_auth_switch/desktop.py:447-448 | a close frame ends the reading wherever it comes |
| `WebSocket.UnixWebSocket.ReceiveBytes` | ai_auth_switch/desktop.py:379-387 | the next bytes of the stream, however it is cut into reads |
| `WebSocket.UnixWebSocket.SendFrame` | ai_auth_switch/desktop.py:407-417 | the written bytes are the masked final frame |
| `WebSocket.UnixWebSocket.ReceiveFrame` | ai_auth_switch/desktop.py:427-446 | one frame of the stream |
| `WebSocket.UnixWebSocket.ReceiveJson` | ai_auth_switch/desktop.py:425-465 | the result, the bytes left and the pongs written are those of the reader of the whole stream |
| `ProcessTree.FoundInChunks` | ai_auth_switch/desktop.py:229-240 | true if and only if the needle occurs in the whole file, for every way it is cut |
| `ProcessTree.BelongsToApp` | ai_auth_switch/desktop.py:263-272 | ends on every table, cycles included; true if and only if following parents one or more times reaches an app |
| `ProcessTree.ParseProcesses` | ai_auth_switch/desktop.py:243-295 | the mode, the apps and the servers agree with their definition by ancestry |
| `ProcessTree.ModesAre` | ai_auth_switch/desktop.py:276-295 | which servers below the application decide each mode; a proxied one counts only if there is no other |
| `ProcessTree.TableIs` | ai_auth_switch/desktop.py:243-254 | the table has every process that is listed, as its last row says |
| `Rotation.DesktopRotator.ChooseProfile` | ai_auth_switch/desktop.py:567-619 | the choice, by threshold and improvement unless forced |
| `Rotation.DesktopRotator.RotateAccount` | ai_auth_switch/desktop.py:672-778 | the switch, its refusals and its roll-back |
| `Rotation.DesktopRotator.AutoCycle` | ai_auth_switch/desktop.py:781-859 | one cycle of the poller |
| `Rotation.SwitchesAreTimed` | ai_auth_switch/desktop.py:810-859 | an automatic switch comes at least the cooldown after every switch and the grace period after every cycle that saw use, and sees none itself |
| `Rotation.LateUseIsForgotten` | ai_auth_switch/desktop.py:731-738 | departure: use starts the grace period anew if and only if a cycle sees it by itself, and not only while switching |
| `Rotation.NextQuietCycleSwitches` | ai_auth_switch/desktop.py:731-859 | such late use leaves no trace: the next quiet cycle switches if and only if there is an account to switch to |
| `Rotation.GracePeriodIsNotKept` | ai_auth_switch/desktop.py:731-738 | a run in which a switch follows a turn by one second |
| `Rotation.LeavesBestOnlyFor` | ai_auth_switch/desktop.py:596-613 | on the best account, another is chosen if and only if this one is low and the other better by enough |
| `Rotation.ChoiceIs` | ai_auth_switch/desktop.py:567-619 | which account is chosen and when, for all accounts, forced or not |
| `Rotation.RotationIs` | ai_auth_switch/desktop.py:672-778 | a rotation switches if and only if there is a choice and the application allows it, and what it records; all else leaves everything as it is, but for the account put in use by a restart that fails |
| `Rotation.CycleIs` | ai_auth_switch/desktop.py:781-859 | a cycle rotates if and only if the application is idle, has been for the grace period, and the cooldown is over; otherwise what it notes of idleness |
| `Rotation.SwitchesAtMostOnce` | ai_auth_switch/desktop.py:567-859 | with fixed accounts and usages and an improvement asked for, a run switches at most once |
| `Rotation.EqualAccountsTakeTurns` | ai_auth_switch/desktop.py:607-613 | two equal accounts are exchanged if and only if no improvement is asked for |
| `UsageCache.UsageRoundTrip` | ai_auth_switch/usage.py:278-309 | every snapshot is read back as it was written |
| `UsageCache.ReadBack` | ai_auth_switch/usage.py:229-243 | a written file is read back if and only if it is of this credential file and not too old |
| `UsageCache.RefusalsAre` | ai_auth_switch/usage.py:22-29 | which errors are refusals of the credentials: two words in either case, alone or followed by a colon |
| `UsageCache.ReportsAreWrittenSuccesses` | ai_auth_switch/usage.py:161-212 | over every run: a report without error is this fetch or the latest success written for the current credential file, and then the cache file keeps its age |
| `UsageCache.ReportsAreTheLatestSuccess` | ai_auth_switch/usage.py:161-212 | over every run: it is the latest definitive outcome if and only if that is of this fetch, was written, or says the same as the last written one |
| `UsageCache.ServedIsFresh` | ai_auth_switch/usage.py:215-243 | over every run, successes and failures alike: what is served without a fetch is the last outcome written, if and only if it is of the current credential file and no older than the limit |
| `UsageCache.SuccessOutlivesFailures` | ai_auth_switch/usage.py:201-211 | a success is reported again, unchanged, after any passing failure |
| `UsageCache.UnwrittenRefusalIsForgotten` | ai_auth_switch/usage.py:246-264 | departure: after a refusal of credentials the earlier success is served if and only if the refusal could not be written |
| `UsageCache.UnwrittenSuccessIsForgotten` | ai_auth_switch/usage.py:246-264 | departure: a later, different success is served if and only if it could be written |
| `UsageCache.UsageCacheDir.SettleOne` | ai_auth_switch/usage.py:181-211 | one completed fetch: stored, or replaced by the last success |
| `UsageCache.UsageCacheDir.FetchProfileUsage` | ai_auth_switch/usage.py:151-212 | the report and the new cache file of every profile, in whatever order fetches complete |
| `AutoRun.AutoRunScheduler.CandidateList` | ai_auth_switch/auto_run.py:174-199 | the loop collects every account with quota and its share per lease |
| `AutoRun.AutoRunScheduler.AcquireProfile` | ai_auth_switch/auto_run.py:244-260 | the locked step at the start of a command |
| `AutoRun.AutoRunScheduler.FinishRun` | ai_auth_switch/auto_run.py:271-275 | the locked step at its end |
| `AutoRun.RunsAreSpreadFairly` | ai_auth_switch/auto_run.py:174-213 | max-min fairness of commands running at the same time |
| `AutoRun.RunningCommandsKeepLeases` | ai_auth_switch/auto_run.py:148-275 | no running command loses its lease, whatever others start, end or die; a start that takes no other process for an ended command leaves the leases of running commands only |
| `AutoRun.StartTakesOne` | ai_auth_switch/auto_run.py:216-262 | after a start the leases are those of the other running commands and the new one, and the time of selection is recorded; a start that gets none changes nothing |
| `AutoRun.EndedCommandsGiveBack` | ai_auth_switch/auto_run.py:268-275 | over every run: each lease on file is of a running command, or of one whose process died |

## Left out

- MuxRuns.ExactlyOneReply: assumes what clients and backends owe (ids new as text, an id on every request but `initialized`, no answer to what was not asked); `ReplyLaw.RequestCounts` and `ReplyLaw.ResponseCounts` have no such assumption.
- MuxRuns.LeasesAreConserved: assumes new ids, and other processes that take leases in their own names and release only those.
- FailoverPath.NeverRevisits: assumes a window shorter than the shortest cooldown, unchanged credential files, and that other requests mark no success and no failure of older credentials (see `PoolHealthRuns.StaleFailureLetsBackIn`), because an account comes back otherwise, mostly by design; `FailoverPath.RunKeepsBarred` is exact.
- FailoverPath.LoopsMarkAlike: compares the loops with callbacks that work; the model listing has none.
- Proxy.PoolResponsesProxy.Forward: its callbacks are the appends to two lists, which do not raise.
- RefreshTokens.NoTokenIsReused: excludes the steps that `RefreshTokens.CurrentTokenIsKept` names exactly. Programs that exchange the token themselves through a link are not part of that system.
- UsageCache.ReportsAreTheLatestSuccess: the credential file does not change during a fetch.
- UsageCache.UsageCacheDir.FetchProfileUsage: profile names are the names of distinct files; a name given twice is fetched once here.
- Rotation.SwitchesAreTimed: counts the use a cycle sees by itself; see the departure above for use seen later.
- Router.SanitizeProfileName: the refusal of slashes is left out, since they have been replaced by then.
- The text of messages: `last_error`, reasons and log lines, and the content of pass-through messages beyond what routing reads.
- The JSON forms of the pool file, the scheduler file and the desktop configuration and state (`PoolState.from_dict` and the like).
- Lease ids are a counter instead of random text; sorting a candidate list is modelled by its head.
- In the multiplexer one clock reading and one view of the credential files hold for a handled message. The thread id in a backend's message is not empty; an empty one would stop the server. Numbers used as ids other than integers are carried as their Python text.
- Server shutdown, which releases only the control reservation and leaves the other leases to dead-process pruning.
- The effect of a permanently refused refresh on the pool health is a failure of kind `auth` and is covered by the pool steps, not tied to the claims of `RefreshClaims`.
- HTTP handlers and headers, sockets, selectors, subprocesses, systemd units, launchers and file permissions; the upgrade handshake of the WebSocket, whose size limit depends on how the stream is cut.
- JSON, JWT and base64 parsing, SHA-256, temporary files: a credential file is its fields, an atomic replace is one step. The layout of a credential file is not modelled, so rewriting one with the same fields counts as no change.
- Claude metadata sidecars, directory bindings, defaults, import and export: simple maps.
- `cli.py`, `complete.py`, `sync.py`, `hermes_codex_sync.py`, `pool_config.py`, `desktop_pool.py`: argument parsing, text edits and other tools' stores.
- Floating-point rounding, clocks that go backwards, and file reads that fail between two steps.

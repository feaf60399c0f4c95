# A verified model of the agent daemon

The daemon keeps tasks on remote agents for a terminal. This project models its governed core and proves what that
core guarantees over whole runs:

- **The control plane**: requests that are admitted at most once, approvals bound to one exact request, delegation
  chains, leases with fencing numbers, quarantine, continuations, acknowledged event channels, paged lists, and the
  hash-chained log.
- **The event stream of a subscription**: the incremental decoder, and the fold of its updates into the stored task,
  with the trail of events that every task leaves.
- **The frontend** that reads an event channel, prints and acknowledges it.
- **The codecs**: base64 with a 32-bit accumulator, percent-encoding and query building.

`dafny verify dfyconfig.toml` checks everything.

## How it is built

`Records` holds the durable records, requests and journal events. `Protocol` says, as functions, what each transaction
does to the database and what it answers. `ControlPlane.Plane` is the object that does it, with the record tables and
the log as fields that its methods reassign; every method is proved to do exactly what the function says. `Runs` puts
labelled steps above it: any number of threads between their two transactions, dispatches that return late or never,
crashes, restarts with either policy, and events from the task manager. The theorems quantify over all sequences of
labels, so over all interleavings. One module per topic follows: `Admission`, `Effects`, `Refusals`, `Outcomes`,
`UnknownOutcomes`, `Delegation`, `Approvals`, `Grants`, `Leases`, `Channels`, `Journal`, `Quarantine`,
`Continuations`, `OwnerRecords`, `Audit`. What an operation, an answer or a decision means is stated there by tables
and predicates of their own, which the functions of `Protocol` are proved to follow.

`Paging` and `Listings` are about lists, `EventsClient` about the frontend's loop, `EventStream`, `EventFraming`,
`EventBlocks` and `EventStops` about server-sent events, `Tasks`, `TaskTrail` and `TaskRuns` about tasks, `EventFold`
about what events and answers mean for a task, `Subscription` about the way from the chunks of a stream to the stored
task, `Routing` about the agent that a request names and the agent that its dispatch contacts, `Base64` and `Query`
about the codecs. `Common` and `Ordering` are shared.

What the code does is followed where its documentation says more. `docs/briefing-enhancements.md:21` says that record
changes and their events commit together; channel records have no events (`daemon/src/ControlPlane.cpp:265-302`), so
the journal theorem leaves them out. `docs/architecture.md:49` says that every connection has its own thread; the
accept thread serves each connection to its end before it takes the next (`daemon/src/IpcServer.cpp:124-146`).
`docs/briefing-enhancements.md:24` says that a quarantined agent receives no new mutating dispatch; `Routing` shows
that this holds for the agent that a dispatch contacts, named or filled in, with one exception: a submit that no
project rule gave an agent.

Five properties one might expect do not hold. Each is stated with an input that breaks it and with its exact condition:

- a continuation can be dispatched twice before its first delivery, by two calls at once or one after the other
  (`OneContinuationTwoDispatches`, `UnknownOutcomesLeaveItOpen`, `OpenUntilDelivered`);
- a submit without an agent that no project rule matches when it is checked contacts an agent when a rule matches at
  dispatch, even a quarantined one (`LateRuleSlipsThrough`, `NamesTargetExactly`);
- terminal task states can be left again (`CompletedTasksReopen`, `StatesAreCarriedExactly`);
- what a stopped stream delivers depends on the chunks (`StopDependsOnChunking`, `ChunkingMattersExactly`);
- a paged list is not the plain list for every kind and filter (`PagesCanMissRecords`, `PagesArePlainListExactly`); for
  executions it is (`ExecutionPagesArePlainList`).

## Assumptions

- A transaction is atomic (`daemon/src/ControlPlane.cpp:47-53`) and one process owns the database
  (`daemon/src/main.cpp:194-208`): a restart is one step, and forgets every thread.
- The clock is a function that gives the `k`-th reading within a transaction. Nothing is assumed of it, except in the
  results that mention `Timely`: it does not go backwards.
- `newId` is a parameter of each transaction. No control-plane result needs it to be fresh; the task results name the
  assumption `FreshIds`.
- The hash functions are parameters. `HeadCommitsToHistory` does not assume that SHA-256 has no collisions: its
  conclusion exhibits one otherwise. It needs the dumped events only as texts; two events that dump alike are one.
- A request is well typed: the fields that the code reads as texts, integers or booleans are that.
- Events of the task manager use type names of their own (`daemon/src/TaskManager.cpp:391`, `:675`, `:754`).
- The control plane is modelled for any number of threads, as its class allows. For `Routing` one request is served to
  its end before the next is read (`daemon/src/IpcServer.cpp:124-146`, `:196-203`), so no task is created between
  routing and dispatch; project rules are matched against the file system anew (`daemon/src/Config.cpp:18-22`).
- The frontend has its channel to itself where a result says `OthersLeave`: nobody else opens, reads or acknowledges a
  channel of that name while it is in use. With other readers (`OthersContinue`) events are printed in order and none
  twice in a session, but another reader can take some away.
- The query that lists ids in order is a parameter of the methods that loop over it, required to be the ascending ids.

## Model

| member | source | states |
|---|---|---|
| ControlPlane.Plane.constructor | daemon/src/ControlPlane.cpp:116-125 | opening the database leaves exactly the recovered contents |
| ControlPlane.Plane.MarkOpen | daemon/src/ControlPlane.cpp:117-124 | the recovery loop marks every listed open dispatch uncertain and journals it, in order |
| ControlPlane.Plane.AppendEvent | daemon/src/ControlPlane.cpp:144-151 | the log grows by one row linked to the last hash |
| ControlPlane.Plane.NoteOutside | daemon/src/ControlPlane.cpp:152-154 | an event of the task manager changes nothing but the log |
| ControlPlane.Plane.ServeContinuation | daemon/src/ControlPlane.cpp:183-194 | new contents and reply of continuation.create, error cases included |
| ControlPlane.Plane.ServeSession | daemon/src/ControlPlane.cpp:195-201 | new contents and reply of session.create |
| ControlPlane.Plane.ServeAcquire | daemon/src/ControlPlane.cpp:202-213 | new contents and reply of lease.acquire |
| ControlPlane.Plane.ServeExtend | daemon/src/ControlPlane.cpp:213-222 | new contents and reply of lease.renew and lease.release |
| ControlPlane.Plane.ServeRevoke | daemon/src/ControlPlane.cpp:223-229 | new contents and reply of approval.revoke |
| ControlPlane.Plane.ServeDecide | daemon/src/ControlPlane.cpp:230-243 | new contents and reply of approval.decide |
| ControlPlane.Plane.ServeHealth | daemon/src/ControlPlane.cpp:244-253 | agent.health answers the record and changes nothing |
| ControlPlane.Plane.ServeQuarantine | daemon/src/ControlPlane.cpp:244-253 | new contents and reply of agent.quarantine |
| ControlPlane.Plane.ServeRelease | daemon/src/ControlPlane.cpp:244-253 | new contents and reply of agent.release |
| ControlPlane.Plane.ServeProvenance | daemon/src/ControlPlane.cpp:254-264 | new contents and reply of provenance.record |
| ControlPlane.Plane.ServeOpen | daemon/src/ControlPlane.cpp:265-274 | new contents and reply of channel.open |
| ControlPlane.Plane.ReadRows | daemon/src/ControlPlane.cpp:284-291 | the loop returns the first rows behind the cursor, up to the limit, and the next cursor |
| ControlPlane.Plane.ServeEvents | daemon/src/ControlPlane.cpp:275-294 | events.read answers a page and changes nothing |
| ControlPlane.Plane.ServeRead | daemon/src/ControlPlane.cpp:275-294 | channel.read answers the page behind the cursor and moves only `delivered` |
| ControlPlane.Plane.ServeAck | daemon/src/ControlPlane.cpp:295-302 | channel.ack moves the cursor within `cursor..delivered` or refuses |
| ControlPlane.Plane.AuditVerify | daemon/src/ControlPlane.cpp:374-383 | audit.verify accepts exactly the logs whose every row is linked and hashed, and answers their length and head |
| ControlPlane.Plane.EffectSet | daemon/src/ControlPlane.cpp:64-73 | the set of named effects, or failure exactly when a name is unknown |
| ControlPlane.Plane.Requested | daemon/src/ControlPlane.cpp:419-423 | the named effects with the one that the operation implies |
| ControlPlane.Plane.AncestorsHold | daemon/src/ControlPlane.cpp:433-437 | the loop accepts exactly the chains whose every ancestor holds a live approval |
| ControlPlane.Plane.CheckLineage | daemon/src/ControlPlane.cpp:424-440 | the delegation checks, in order, and the new identity chain |
| ControlPlane.Plane.AnswerRepeat | daemon/src/ControlPlane.cpp:390-395 | a repeat gets the stored response, a conflict, or word that the outcome is unknown |
| ControlPlane.Plane.CheckLease | daemon/src/ControlPlane.cpp:396-403 | the lease comparison, with the failure of the first text or field that does not pass |
| ControlPlane.Plane.CheckGrant | daemon/src/ControlPlane.cpp:450-455 | the judgement of an existing approval |
| ControlPlane.Plane.CheckRequest | daemon/src/ControlPlane.cpp:388-442 | every check before the approval, with the reply of the first that fails |
| ControlPlane.Plane.CheckApproval | daemon/src/ControlPlane.cpp:443-456 | a missing approval is asked for; an existing one is judged and left alone |
| ControlPlane.Plane.StartDispatch | daemon/src/ControlPlane.cpp:457-464 | the execution is recorded and journalled |
| ControlPlane.Plane.BeginDispatch | daemon/src/ControlPlane.cpp:387-465 | the whole first transaction: new contents and refusal, if any |
| ControlPlane.Plane.RecordOutcome | daemon/src/ControlPlane.cpp:468-476 | the outcome fields of the execution, and no other |
| ControlPlane.Plane.Close | daemon/src/ControlPlane.cpp:477-483 | a successful answer closes its continuation and journals it |
| ControlPlane.Plane.CountOutcome | daemon/src/ControlPlane.cpp:484-491 | the failure count and automatic quarantine |
| ControlPlane.Plane.FinishDispatch | daemon/src/ControlPlane.cpp:466-494 | the whole second transaction |
| ControlPlane.Plane.SettleDispatch | daemon/src/ControlPlane.cpp:524-529 | an exception becomes an uncertain result; the reply carries the execution id |
| ControlPlane.Plane.HandleMutation | daemon/src/ControlPlane.cpp:511-529 | a mutating request from end to end when nothing comes between its transactions |
| Admission.AdmissionExactly | daemon/src/ControlPlane.cpp:387-465 | a request is dispatched if and only if one flat condition on the database holds, and then exactly its execution is recorded |
| Effects.AdmittedAsAsked | daemon/src/ControlPlane.cpp:419-463 | an admitted request is recorded with its own fields, and with exactly the effects that it names or that its operation implies, by a table of operations |
| Effects.ApprovalAsAsked | daemon/src/ControlPlane.cpp:444-449 | an approval that a request leaves behind is pending and shows the owner that request, implied effects included |
| Effects.ExecutionsWereAdmitted | daemon/src/ControlPlane.cpp:387-465 | over any run, every stored execution is the record of a request that was admitted under its id |
| Effects.ChainsHoldImpliedEffects | daemon/src/ControlPlane.cpp:419-439 | no execution, and no ancestor at any depth, is without the effect that its own operation or its descendant's implies |
| Effects.ParentMustHoldEffects | daemon/src/ControlPlane.cpp:429-431 | a child is admitted only if its parent holds every effect that the child names or that its operation implies |
| Refusals.RefusalsAreTruthful | daemon/src/ControlPlane.cpp:387-456 | whatever is answered instead of an admission is true of the request and the database, failure by failure, and only a new approval is written |
| Refusals.CallsAreAnswered | daemon/src/ControlPlane.cpp:511-529 | a whole call is refused without an id when governed, refused for a true reason with every execution as it was, or dispatched once, answered with what the dispatch returned under its id, and concluded by the kind of that |
| OwnerRecords.CreatedSessionsStay | daemon/src/ControlPlane.cpp:195-201 | a session that was created is known from then on, and its id is not given twice |
| OwnerRecords.ProvenanceExactly | daemon/src/ControlPlane.cpp:254-264 | provenance is recorded exactly when it names an agent, a source and a digest of 64 lower-case hexadecimal digits |
| Runs.RunEvolves | daemon/src/ControlPlane.cpp:129-151 | between any two moments of any run: no record of any kind disappears, an execution leaves DISPATCHING at most once, an approval keeps its binding, fences and cursors never decrease, the log only grows |
| Runs.RunBasics | daemon/src/ControlPlane.cpp:495-529 | every thread between its transactions owns an open execution; `0 <= cursor <= delivered` |
| Runs.NewExecutionsComeFromBegin | daemon/src/ControlPlane.cpp:457-464 | an execution appears only when its request is admitted |
| Runs.RecoverFrame | daemon/src/ControlPlane.cpp:116-125 | recovery changes open executions to uncertain and no other record |
| Outcomes.AtMostOneDispatch | daemon/src/ControlPlane.cpp:387-395 | over any run with crashes and restarts, no two admissions carry one request id |
| Outcomes.RunOutcomes | daemon/src/ControlPlane.cpp:466-476 | a response is stored exactly for definite outcomes, and agrees with the state |
| Outcomes.RepeatsGetTheFirstResponse | daemon/src/ControlPlane.cpp:390-395 | after a definite outcome every later repeat gets the first response, or a conflict if its hash differs, and changes nothing |
| Outcomes.RepeatsOfOpenOutcomes | daemon/src/ControlPlane.cpp:393-394 | repeats of an open or unknown outcome are turned away, never dispatched |
| Outcomes.RestartLeavesNothingOpen | daemon/src/ControlPlane.cpp:116-125 | after a restart nothing is in flight and no execution is DISPATCHING |
| Outcomes.RetriesPointAtOlderFailures | daemon/src/ControlPlane.cpp:411-416 | a retry link points at an older execution that has failed and stays failed |
| Outcomes.RetryPath | daemon/src/ControlPlane.cpp:411-416 | following retry links ends, through strictly older failed executions |
| UnknownOutcomes.FinishConcludes | daemon/src/ControlPlane.cpp:466-476 | by the kind of the answer: unreachable, not understood or broken off leaves UNCERTAIN and no response; any other stores the response, DELIVERED exactly if it is ok, else FAILED |
| UnknownOutcomes.SettleConcludes | daemon/src/ControlPlane.cpp:524-529 | a dispatch that raises leaves UNCERTAIN and no response; one that returns is answered with what it returned, under its execution id |
| UnknownOutcomes.ConclusionsStay | daemon/src/ControlPlane.cpp:466-476 | what an answer concludes stays for the rest of the run, restarts included |
| UnknownOutcomes.OnlyAnsweredFailuresAreRetried | daemon/src/ControlPlane.cpp:411-416 | a request that retries a returned dispatch is admitted only if the agent certainly answered that it failed |
| UnknownOutcomes.UnknownIsNeverRepeated | daemon/src/ControlPlane.cpp:390-416 | a dispatch that may have acted is neither repeated nor retried in the rest of the run |
| UnknownOutcomes.StreakCountsByKind | daemon/src/ControlPlane.cpp:484-491 | an answer makes the streak of its agent grow, ends it, or leaves it, by its kind |
| Delegation.RunChains | daemon/src/ControlPlane.cpp:419-464 | in every reachable state every chain ends in its execution, extends its parent's, has at most 16 links, and every prefix is the stored chain of the ancestor at its end; delegating and delegated executions have an approval with their own hash |
| Delegation.ChainsHaveNoRepeats | daemon/src/ControlPlane.cpp:424-440 | no execution is its own ancestor |
| Delegation.EffectsOnlyShrink | daemon/src/ControlPlane.cpp:429-431 | from any ancestor to any descendant effects only shrink, and every proper ancestor holds DELEGATE and its approval |
| Grants.DeadGrantsAdmitNothing | daemon/src/ControlPlane.cpp:223-243 | once an approval is revoked, denied or expired, no later step admits the gated request or anything delegated below it, at any depth |
| Grants.AdmittedChain | daemon/src/ControlPlane.cpp:440-461 | the chain that the previous result speaks of is the one that is recorded |
| Grants.ApprovalBindsRequest | daemon/src/ControlPlane.cpp:443-456 | a gated dispatch carries exactly the hash that its approval records, at any moment |
| Approvals.DecisionTakesEffect | daemon/src/ControlPlane.cpp:230-243 | deciding a pending approval approves it exactly if allowed and denies it exactly if not, until now and the time to live; any other decision changes nothing |
| Approvals.InForceExactly | daemon/src/ControlPlane.cpp:223-243 | over any run, an approval is in force until a time if and only if the owner allowed it until then and never revoked it since |
| Approvals.DispatchNeedsOwnerExactly | daemon/src/ControlPlane.cpp:443-456 | a request under policy, with effects or with a parent is dispatched if and only if it passes the other checks and an earlier decision of its owner allows its hash past this moment, unrevoked; others need none |
| Approvals.AncestorsWereAllowed | daemon/src/ControlPlane.cpp:433-437 | the owner allowed every ancestor past the moment at which it is looked up, and did not revoke that |
| Approvals.ApprovalsShowRequests | daemon/src/ControlPlane.cpp:444-449 | every stored approval shows a request that was asked under its id and not admitted then |
| Approvals.HashBindsRequest | daemon/src/ControlPlane.cpp:78-81 | requests that differ in their ids alone have one hash; two others with one hash are a collision |
| Approvals.OwnerSawTheRequest | daemon/src/ControlPlane.cpp:443-456 | what is dispatched under an approval is field by field what the owner was shown, or the two requests are a collision of the hash |
| Approvals.RecordedAsShown | daemon/src/ControlPlane.cpp:446-463 | so the recorded effects, operation, agent and task are those that the approval lists |
| Leases.FencesCountAcquisitions | daemon/src/ControlPlane.cpp:202-222 | acquisitions of a resource have the fences 1, 2, 3, ... and the stored lease is the last of them, with the owner of its command, a new token, and the end that the last acquisition, renewal or release set |
| Leases.AcquireExactly | daemon/src/ControlPlane.cpp:208-213 | a free resource, and no other, is acquired: next fence, new token, until now and the time to live |
| Leases.ExtendExactly | daemon/src/ControlPlane.cpp:213-218 | only the holder of a live lease extends it by the time to live or ends it now; another owner, another token or a call after the end changes nothing |
| Leases.LeaseStepsAreJournalled | daemon/src/ControlPlane.cpp:219-220 | the journal tells acquisitions, renewals and releases apart, with owner and fence |
| Leases.PeriodsNeverOverlap | daemon/src/ControlPlane.cpp:208-218 | while the clock does not go backwards, live periods of different fences never overlap, after release and renewal too |
| Leases.DispatchFencesNeverDecrease | daemon/src/ControlPlane.cpp:396-403 | dispatches admitted under leases on a resource carry non-decreasing fences; one fence has one owner and token |
| Leases.EndedLeasesAdmitNothing | daemon/src/ControlPlane.cpp:396-403 | while the clock does not go backwards, no request is dispatched under a lease that has ended, whatever comes in between |
| Leases.ReleasedLeasesAdmitNothing | daemon/src/ControlPlane.cpp:213-218 | after an answered release no request with that fence is dispatched any more |
| Leases.ReleasedResourceIsFree | daemon/src/ControlPlane.cpp:208-218 | after an answered release a well-formed acquisition succeeds under the next fence, unless somebody acquired the resource in between |
| Channels.DeliveredWasShown | daemon/src/ControlPlane.cpp:275-294 | `delivered` passes only over events that a committed read of the channel has returned |
| Channels.AcknowledgedWasShown | daemon/src/ControlPlane.cpp:295-302 | between two moments the cursor never moves back or past `delivered`, and every event between the earlier delivered mark and the later cursor was returned by a committed read in between |
| Channels.ChannelsStartClean | daemon/src/ControlPlane.cpp:265-274 | a channel starts only when it is opened, with nothing delivered |
| Channels.NothingIsSkipped | daemon/src/ControlPlane.cpp:265-302 | every event between the starting point of a channel and its cursor was returned by a committed read since the opening |
| Channels.ReadsExactly | daemon/src/ControlPlane.cpp:275-294 | in every reachable state a read is answered exactly for an existing channel and a limit of 1 to 500: the rows right behind the cursor, and whether the page is full |
| Channels.EventsExactly | daemon/src/ControlPlane.cpp:275-294 | events.read answers such a page from any place and changes nothing |
| Journal.ReachableLogsVerify | daemon/src/ControlPlane.cpp:144-151 | every reachable log passes audit.verify |
| Journal.LogIsACompleteJournal | daemon/src/ControlPlane.cpp:116-494 | in every reachable state, replaying the log rebuilds the executions (state, agent, session, hash, effects, chain, final task), approvals (state, effects, agent, expiry), leases (owner, fence), continuations, sessions, provenance digests and agent health, automatic quarantine included |
| Quarantine.FailuresCountStreak | daemon/src/ControlPlane.cpp:484-491 | the failure count is the number of uncertain finishes since the last delivered one or release; three mean quarantine |
| Quarantine.QuarantineLasts | daemon/src/ControlPlane.cpp:244-253 | quarantine lasts until the owner releases the agent, over restarts and deliveries |
| Quarantine.QuarantinedAgentsGetNothing | daemon/src/ControlPlane.cpp:417-418 | nothing is admitted for a named agent between its quarantine and its release |
| Quarantine.QuarantinedExactly | daemon/src/ControlPlane.cpp:484-491 | an agent is quarantined if and only if, since its last release, the log holds an order of the owner or three unknown outcomes in a row |
| Quarantine.OrdersTakeEffect | daemon/src/ControlPlane.cpp:244-253 | the owner's order quarantines the agent and keeps its count; a release clears both |
| Quarantine.OrderedQuarantineHolds | daemon/src/ControlPlane.cpp:244-253 | after such an order nothing is dispatched to the agent until it is released |
| Quarantine.HealthIsTold | daemon/src/ControlPlane.cpp:244-253 | agent.health answers the streak and the quarantine that the log shows, and changes nothing |
| Routing.QuarantineCoversTargets | daemon/src/main.cpp:376-395 | with routing in front, no dispatch contacts an agent that was quarantined when its request was admitted, whatever the operation and whether or not the sender named an agent, unless a submit got none |
| Routing.NamesTargetExactly | daemon/src/main.cpp:379-386 | a dispatch can contact only the agent that was checked if and only if a submit got one by routing, or no other agent is configured |
| Routing.LateRuleSlipsThrough | daemon/src/main.cpp:247-252 | a submit for which no rule matches is admitted without an agent and contacts a quarantined one when a rule matches at dispatch |
| Continuations.OpenUntilDelivered | daemon/src/ControlPlane.cpp:404-410 | a continuation of the task may be answered if and only if no dispatch bound to it has been delivered |
| Continuations.CreatedIsOpen | daemon/src/ControlPlane.cpp:183-194 | a new continuation may be answered for its own task and for no other |
| Continuations.NoDispatchAfterDelivery | daemon/src/ControlPlane.cpp:477-483 | after a delivered answer no request is dispatched for the continuation |
| Continuations.OneContinuationTwoDispatches | daemon/src/ControlPlane.cpp:404-410 | two request ids bound to one pending continuation are both dispatched |
| Continuations.UnknownOutcomesLeaveItOpen | daemon/src/ControlPlane.cpp:470-483 | the continuation is dispatched again, serially, after a first answer whose outcome stayed unknown |
| Audit.FrameInjective | daemon/src/ControlPlane.cpp:148 | the hashed text determines previous hash, time and body |
| Audit.AppendKeepsChain | daemon/src/ControlPlane.cpp:144-151 | appending keeps a verified log verified |
| Audit.HeadCommitsToHistory | daemon/src/ControlPlane.cpp:374-383 | two verified logs with one head have the same rows, or two of their rows are a collision of the digest |
| Paging.List | daemon/src/ControlPlane.cpp:322-368 | the reply of a list: plain, one page, or refused |
| Paging.ListAll | daemon/src/ControlPlane.cpp:325-337 | the plain list, filtered for executions only |
| Paging.ListPage | daemon/src/ControlPlane.cpp:338-368 | one page: the first matching records behind the cursor, and a next cursor exactly when more follow |
| Paging.TakePage | daemon/src/ControlPlane.cpp:353-364 | the row loop keeps a full page and notices one row more |
| Paging.SelectRows | daemon/src/ControlPlane.cpp:343-352 | the query returns the first selected ids in order |
| Paging.PagesConcatenate | daemon/src/ControlPlane.cpp:338-368 | the pages along the cursor are exactly the ordered matching records, for any limit |
| Paging.PagesArePlainListExactly | daemon/src/ControlPlane.cpp:322-368 | the pages are the plain list if and only if the filter means the same to both and no matching id is empty |
| Paging.LimitsExactly | daemon/src/ControlPlane.cpp:338-342 | a list is refused exactly for a limit outside 1 to 500; a page without a limit holds at most 100 records |
| Paging.FiltersShowExactly | daemon/src/ControlPlane.cpp:343-345 | pages, and the plain list of executions, hold exactly the records of the session and the task asked for |
| Ordering.LessExactly | daemon/src/ControlPlane.cpp:346 | an id comes before another if and only if it is a proper prefix or has the smaller character where they first differ |
| Paging.PagesCanMissRecords | daemon/src/ControlPlane.cpp:327-345 | for a kind other than executions, a filter hides from the pages what the plain list shows |
| Paging.CrawlNeverRepeats | daemon/src/ControlPlane.cpp:338-368 | whatever happens to the records between pages, no id is returned twice |
| Paging.CrawlReturnsStored | daemon/src/ControlPlane.cpp:338-368 | what is returned was stored and matched when its page was read |
| Paging.CrawlMissesNothing | daemon/src/ControlPlane.cpp:338-368 | a record that matches throughout is returned once the reader has passed it |
| Listings.SessionListingIsComplete | daemon/src/ControlPlane.cpp:343-368 | over a run, paging through a session returns every execution it had at the start, none twice |
| Listings.SessionListingIsSound | daemon/src/ControlPlane.cpp:343-368 | and nothing that is not an execution of the session |
| Listings.ExecutionPagesArePlainList | daemon/src/ControlPlane.cpp:322-368 | in every reachable state the pages of the executions are the plain list, for every filter and limit |
| Listings.ExecutionPagesShowExactly | daemon/src/ControlPlane.cpp:338-368 | in every reachable state they hold exactly the executions of the session and the task that are asked for |
| EventsClient.PrintRows | kitten/a2a.py:286-287 | the rows of a page are printed in order until the client is cut off |
| EventsClient.ReadPage | kitten/a2a.py:283-285 | the page behind the cursor, which other readers may have moved on |
| EventsClient.AckPage | kitten/a2a.py:288-290 | a page is acknowledged, or refused because another reader acknowledged more |
| EventsClient.Round | kitten/a2a.py:283-292 | one read, print and acknowledge, cut off anywhere, beside other threads and other readers |
| EventsClient.Session | kitten/a2a.py:278-295 | a session prints events of the log in order and none twice, and ends by itself on a log that stops growing; alone on its channel it prints exactly the log behind its cursor and never acknowledges what it has not printed |
| EventsClient.WholeSuffix | kitten/a2a.py:278-295 | on a log that holds nothing further, what was printed is the whole suffix |
| EventsClient.Sessions | kitten/a2a.py:278-295 | whatever others do before and during each session, no resumed session starts before the cursor that the one before left; alone on the channel it starts exactly there |
| EventsClient.NothingSkipped | kitten/a2a.py:278-295 | over any sessions cut off anywhere, every event up to the last one reached was printed |
| EventsClient.RepeatsOnlyUnacknowledged | kitten/a2a.py:286-290 | an event is printed again only if it was not acknowledged: at most one page |
| EventsClient.RunLeavesChannel | daemon/src/ControlPlane.cpp:265-302 | steps of other threads and restarts leave a channel alone that they do not name |
| EventsClient.RunContinuesChannel | daemon/src/ControlPlane.cpp:265-302 | any steps at all, of other readers too, only extend the log and move the channel on |
| EventStream.Decoder.Consume | daemon/src/A2AClient.cpp:657-683 | one chunk: new buffer, deliveries and stop flag |
| EventStream.Decoder.RequestStop | daemon/src/A2AClient.cpp:732-733 | a stop from outside is seen at the next chunk, and nothing else changes |
| EventStream.Decoder.Drain | daemon/src/A2AClient.cpp:661-681 | the loop delivers every complete block and keeps the rest |
| EventStream.Decoder.BlockData | daemon/src/A2AClient.cpp:665-673 | the line loop joins the data lines of a block |
| EventStream.DecoderRefinesWholeStream | daemon/src/A2AClient.cpp:656-683 | after any chunks, empty ones included, the decoder stands where the whole-stream decoder stands after the text taken |
| EventStream.StoppedStreamIsAPrefix | daemon/src/A2AClient.cpp:658-682 | a stopped stream delivers a prefix that holds a stopping text; a stream stops if and only if it holds one |
| EventStream.ChunkingDoesNotMatter | daemon/src/A2AClient.cpp:656-683 | while nothing asks to stop, two chunkings of one text deliver the same |
| EventStream.OutsideStopIsAPrefix | daemon/src/A2AClient.cpp:658-682 | a stop from outside between chunks keeps what was delivered, a prefix of the whole, and admits no more |
| EventFraming.SurvivesExactly | daemon/src/A2AClient.cpp:665-674 | a framed payload is decoded to itself if and only if it is non-empty, free of CR, does not start with a newline and is not `[DONE]` |
| EventFraming.FramesSurviveChunking | daemon/src/A2AClient.cpp:656-683 | any list of such payloads, framed with LF or CRLF and cut anywhere, is delivered as sent |
| EventBlocks.BlocksDeliver | daemon/src/A2AClient.cpp:665-673 | for any lines of a block: data lines count with or without the blank, are joined by newlines, and all other lines are ignored |
| EventFraming.StopDependsOnChunking | daemon/src/A2AClient.cpp:658-682 | the event behind one that asks for the stop is delivered when both come in one chunk, and not when it comes in the next |
| EventStops.ChunkingMattersExactly | daemon/src/A2AClient.cpp:656-683 | every cutting of a stream delivers all of its events if and only if no event but the last asks to stop |
| Tasks.MergeUpdate | daemon/src/TaskManager.cpp:156-176 | the callback's merge of an update into the stored task |
| Tasks.MergeArtifacts | daemon/src/TaskManager.cpp:164-169 | the artifact loop: append, replace or add |
| Tasks.FindArtifact | daemon/src/TaskManager.cpp:165 | the first artifact with the id |
| Tasks.ArtifactContents | daemon/src/TaskManager.cpp:164-169 | after any chunks of any ids an artifact holds the parts of its last replacing chunk and all parts appended later, in order; or the stored parts and all appended ones |
| Tasks.DistinctIdsCommute | daemon/src/TaskManager.cpp:164-169 | chunks of distinct ids commute on contents |
| Tasks.OnlyOwnChunksMatter | daemon/src/TaskManager.cpp:164-169 | what is found under an id depends on the chunks with that id alone |
| Tasks.ReorderingIdsKeepsContents | daemon/src/TaskManager.cpp:164-169 | so any reordering across ids keeps all contents |
| Tasks.IdsStayUnique | daemon/src/TaskManager.cpp:164-169 | artifact ids stay unique |
| Tasks.PartialUpdatesFold | daemon/src/TaskManager.cpp:157-171 | partial updates fold their artifacts in order and only add messages at the end |
| Tasks.ContentsSinceSnapshot | daemon/src/TaskManager.cpp:156 | a whole task replaces artifacts and messages, and later updates fold into its own |
| EventFold.UpdatesMean | daemon/src/A2AClient.cpp:735-773 | the update made of an event does, once merged, what the event means: a snapshot replaces, a status sets state, text and time and adds its messages, a message adds itself, an artifact is added, continued or replaced by its own flag |
| EventFold.EventsArrive | daemon/src/TaskManager.cpp:153-179 | an event does that to its task, and nothing to any other |
| EventFold.ArtifactsArrive | daemon/src/TaskManager.cpp:164-169 | under the id of a streamed artifact one then finds the stored one with its parts added, or the one sent |
| EventFold.LinksArrive | daemon/src/TaskManager.cpp:171-177 | a snapshot brings the remote id, any other event fills it in only where there is none, and the time of writing is noted |
| EventFold.AnswersArrive | daemon/src/TaskManager.cpp:402-517 | an answer does to the content of its task what it means, call by call |
| EventFold.CreationsOpen | daemon/src/TaskManager.cpp:333-400 | a new task has the content that the agent answered, or is completed with one message when it answered without a task |
| EventFold.ContentsAreCarriedExactly | daemon/src/TaskManager.cpp:153-179 | at every step of a run a task has exactly the content that its creation, an answer or an event gives it |
| EventFold.EventsFold | daemon/src/A2AClient.cpp:752-771 | after any events but snapshots, the artifacts are the sent ones placed in order by their own flags, the messages are added, and the state is the last one told |
| EventFold.EventsFoldSinceSnapshot | daemon/src/A2AClient.cpp:735-741 | a snapshot starts anew |
| Subscription.StoredTaskIsTheFold | daemon/src/TaskManager.cpp:153-179 | after the callback has had any texts, with any operations on other tasks in between, the stored task is the fold of their updates |
| Subscription.StoredTaskFollowsEvents | daemon/src/TaskManager.cpp:153-179 | and its content came about by these events, each doing what it means, while the local fields stayed |
| Subscription.ChunksReachTheTask | daemon/src/A2AClient.cpp:727-773 | whatever the chunks, the content of the stored task comes about by all events of the stream, if none but the last asks to stop |
| Subscription.ChunksFoldArtifacts | daemon/src/A2AClient.cpp:742-771 | without snapshots, the stored artifacts then are those before with the events' artifacts placed in order by their own flags, the messages of the events are added, and the state is the last one told |
| Subscription.AnswersAndEventsFold | daemon/src/TaskManager.cpp:153-179 | with responses, refreshes, cancellations and reconciliations in between, artifacts and messages are the fold of answers and events in the order they came |
| TaskTrail.TitleIsOneShortLine | daemon/src/TaskManager.cpp:46-58 | the title of a new task is one short line and never empty |
| TaskTrail.TitleIsFirstLine | daemon/src/TaskManager.cpp:46-58 | it is the first line of the message without the blanks around it, cut after 48 bytes, or a fixed text when there is none |
| TaskTrail.TaskManager.CreateTask | daemon/src/TaskManager.cpp:333-400 | what a new task stores and which event it emits; nothing on failure |
| TaskTrail.TaskManager.RespondToTask | daemon/src/TaskManager.cpp:402-452 | what a response stores and emits |
| TaskTrail.TaskManager.CancelTask | daemon/src/TaskManager.cpp:454-484 | what a cancellation stores and emits |
| TaskTrail.TaskManager.RefreshTask | daemon/src/TaskManager.cpp:486-517 | what a refresh stores and emits |
| TaskTrail.TaskManager.ReconcileTask | daemon/src/TaskManager.cpp:292-331 | what startup reconciliation does to one task |
| TaskTrail.TaskManager.OnStreamEvent | daemon/src/TaskManager.cpp:153-179 | what the subscription callback stores and emits |
| TaskTrail.TaskManager.EmitStateChanged | daemon/src/TaskManager.cpp:750-759 | an event exactly when the state changed |
| TaskRuns.TrailsConnect | daemon/src/TaskManager.cpp:750-759 | each task's events are one connected path without self-loops from its created to its stored state |
| TaskRuns.IdentityStays | daemon/src/TaskManager.cpp:172-175 | a task stays, with its id, agent, title, directory and creation time |
| TaskRuns.StoredStatesHaveASource | daemon/src/TaskManager.cpp:360-391 | every stored state was brought by an operation of the run: its creation, a successful answer, an event, or a direct reply |
| TaskRuns.StatesAreCarriedExactly | daemon/src/TaskManager.cpp:422-445 | at every step of a run a task takes exactly the state that a successful answer, an event or a direct reply brings, and keeps its own otherwise; so a terminal state is left exactly when another is brought |
| TaskRuns.FailedCallsChangeNothing | daemon/src/TaskManager.cpp:350-355 | a failed call leaves tasks and trail as they were; a failed reconciliation only notes its error |
| TaskRuns.CompletedTasksReopen | daemon/src/TaskManager.cpp:430-445 | terminal states are not final |
| Base64.DecodeBase64 | daemon/src/TaskManager.cpp:72-86 | the loop with the wrapping accumulator returns the bytes of the letters before the first `=`, or none when another character comes first |
| Base64.ShiftIn | daemon/src/TaskManager.cpp:82-83 | the wrap-around at 32 bits never reaches the bits that the next byte needs |
| Base64.DecodeUndoesEncode | daemon/src/TaskManager.cpp:72-86 | decoding undoes encoding for any bytes, with or without padding and with white space anywhere |
| Base64.RejectsExactly | daemon/src/TaskManager.cpp:79-81 | decoding fails if and only if another character comes before the first `=` |
| Base64.ValuesFollowTheTable | daemon/src/TaskManager.cpp:73-76 | the value of a letter is its place in the alphabet |
| Query.UrlEncode | daemon/src/A2AClient.cpp:56-64 | the loop's output, byte by byte |
| Query.AddQuery | daemon/src/A2AClient.cpp:66-72 | one more pair behind `?` or `&`, or nothing for an empty value |
| Query.DecodeUndoesEncode | daemon/src/A2AClient.cpp:56-64 | percent-decoding undoes the encoding of any bytes |
| Query.EncodedIsUnreserved | daemon/src/A2AClient.cpp:60-61 | encoded text holds nothing but unreserved characters and percent signs |
| Query.KeptExactly | daemon/src/A2AClient.cpp:60 | a text is left as it is if and only if it holds only unreserved characters; otherwise it grows |
| Query.ParseUndoesBuild | daemon/src/A2AClient.cpp:66-72 | for any base, parsing gives the pairs of the base and then exactly the pairs with a non-empty value, in order |
| Query.ParseGivesTheParams | daemon/src/A2AClient.cpp:66-72 | for a base without `?` the path is the base and the pairs are exactly those |

## Left out

- Storage, sockets, the network, gRPC, child processes and files: atomic tables and arbitrary answers stand for them.
- JSON text: requests, replies and events are datatypes; what is printed or hashed is a parameter.
- Descriptive fields that nothing reads back: reasons, created and recorded times, dispatch
  deadlines, SBOM links; and ill-typed requests, which the code refuses as control errors.
- 64-bit overflow of times, fences, sequence numbers and counts.
- policy.info, execution.get and session.get: they return a stored record or a constant.
- What comes after the decoded text of a stream event: JSON parsing, and dropping an event that fails to parse.
- Threads of the task manager racing on one task row: each operation is one step, and the loop of startup
  reconciliation is one step per listed task.
- Reading a task back from its row: `Part.data` that is a text loses its quotes there (`daemon/src/Database.cpp:211`).
- Metadata of parts, messages and artifacts, message extensions, and updates whose metadata is no object.
- Agent cards, discovery, credentials, configuration, notifications and the terminal interface; the rule that maps a
  directory to an agent is a parameter.
- Query.AddQuery: does not print values that are not texts; their printed form is given, and never empty.
- EventsClient.Session: does not wait between rounds in follow mode; the session may be cut off at any action instead.

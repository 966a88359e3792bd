# Orion Belt, modelled and proved in Dafny

Orion Belt is an SSH gateway: users reach machines through it on grants that are given by
administrators or asked for and approved, agents connect machines to it, and it keeps a record
of who could do what and when. This project models the stateful parts of the gateway, its
agent and its client, and proves what they promise over every run. Network calls, SQL, HTTP and
cryptography are abstract steps; every module header says which file it models.

`dafny verify dfyconfig.toml` checks everything.

## The modules

- `GatewayLink`: one SSH connection shared by many forwarders, with two mutexes, a
  double-checked dial, watchers that retire the connection, and a close. A transition system
  over thread program counters; each critical section is one step, and the gaps between
  sections are interleaving points. The class `Link` has the sections as methods.
- `AgentWork`, `LiveSessions`: two shutdown protocols, refuse new work, snapshot, wait.
- `RateLimiter`, `Challenge`, `OneTimeStores`: in-memory stores that forget lazily, proved to
  decide as a store that never forgets.
- `LinkGet`, `LinkClose`, `LinkProgress`: what get of that connection hands its callers and what
  becomes of a lost connection, what close waits for, and that its wait ends whatever the schedule.
- `Grants`, `GrantReview`: grants with their version history, and the access review computed
  from that history for a past instant.
- `RiskPolicy`, `AccessRequests`: routing a request by risk, and the life of a request.
- `ApprovalRace`, `ChallengeRace`, `BackupRace`: several people deciding one request, several
  calls verifying challenges, several requests presenting backup codes, each in two steps with
  anything between them.
- `Capabilities`, `CapabilityCatalog`: the builder of the "what can I ask for" list, and what
  the list guarantees.
- `NotificationPolicy`: the administrator's bounds, the user's preferences, and the rewrites
  that are meant to make the stored preferences the whole answer.
- `Revocation`: the revocation cache against the full revocation record.
- `ShellQuote`, `Percentile`, `BackupCodes`, `HourRanges`: four self-contained algorithms.
- `Text`, `StableSort`, `Wrappers`: Go's string helpers and stable sort, and an option type.

A method is proved against a function of the old state, and the lemmas are about that function
or about runs made of it. A run is a sequence of events, each enabled where it happens.

## What the proofs found

- `close` of the gateway link waits for its goroutines, yet a thread between the section of
  `adopt` (or `lost`) and its `wg.Add` starts one after that wait is over. `CloseWaitedForAll`
  gives the exact condition and `CloseCanOutrunAdopt` a run. `forward` (pkg/client/tunnel.go:68-127)
  waits for its callers before it closes the link, which is enough (`CloseAfterCallersIsComplete`).
- A session id registered twice loses the first session to the tracker: no drain stops it, and
  its end leaves the count wrong (`DuplicateIdLosesASession`, `CountNeedsDistinctIds`). No caller
  does that: the ids are fresh UUIDs (pkg/common/types.go:401).
- A grant is stamped before it is stored. A review for an instant between the two shows a grant,
  or a change of one, that was not in force yet (`EarlyStampMisreports`). Where no version is
  replaced at the very instant it is written, that is the only way a review is wrong about
  anything but the grantor (`ExactIffClean`).
- The grantor column of a review is right if and only if that grantor was not deleted afterwards
  while the grant stood unchanged (`GrantorExactIffNotCleared`, `DeletedGrantorIsLost`).
- Two people who both read a pending request before either has decided both store a decision,
  and two approvals write two grants; exactly then (`BothWriteIffBothReadFirst`, `TwoGrants`).
  An approval stored before such a rejection leaves the request rejected and its grant in place
  (`RejectedWithGrantIff`).
- The report calls an approval with no recorded reviewer one of the risk policy, but deleting a
  user clears the reviewer (`NoReviewerMeansPolicyOrDeleted`, `DeletedReviewerReadsAsPolicy`).
- A lifetime over 9223372036 seconds wraps in 64-bit nanoseconds (`LifetimeIsExact`). A direct
  grant accepts one (pkg/api/api.go:1389-1392, pkg/api/permissions_bulk.go:22); an approval does
  the same arithmetic, but the duration column of a request ends at 2147483647
  (pkg/database/postgres.go:100).
- Verifying a challenge reads the clock before it takes the lock. A challenge is used a second
  time if and only if, in that gap, another call that read the clock past its expiry collected
  the expired nonces of a full store (`AcceptedAgainIff`, `UsedTwice`); never by a call that
  takes the lock before the expiry (`InTimeIsSingleUse`).
- A request that spends a backup code on a list it read before another acceptance puts spent
  codes back. The codes are conserved if and only if no request does that
  (`ConservedIffNoneStale`), and one code works for two requests exactly if both read it first
  (`SpentTwiceIffBothReadFirst`).
- Normalizing a policy may drop a mandatory channel when two event names trim to the same text.
  `NormalizeKeepsMandatory` has the exact condition over all map orders.
- Clamping may widen what is delivered (`ClampMayWiden`). `ClampAddsExactly` says what it adds,
  and `WidensNothingIffSettled` for which policies and preferences it adds nothing.
- A revocation that falls between a refresh's listing and its swap is forgotten until the next
  refresh, after it was reported done (`LateSwapForgets`). A certificate revoked here stays
  refused while it is valid if and only if no refresh stood between those two when the store was
  written, or one listed or swapped before the cache was (`RevokedHereIsRefused`); for any
  reachable state `RefusedForGoodIffTold` says which certificates can be accepted again.
- Revoking a serial that another process has revoked answers "not found" and leaves it accepted
  here until the next refresh (`RevokeCallRefuses`, `AnotherProcessFirst`).
- The catalog keys entries by `machine|login`; this names machine and login exactly if no machine
  id continues another with a bar (`TargetsNameMachines`). Ids made by the gateway never do; with
  ids that do, a granted machine may be missing from the catalog (`ConfusedMachineIsMissing`).

## Model

| member | source | states |
|---|---|---|
| GatewayLink.Link.Current | pkg/client/link.go:52-57 | the section of current: the connection as it is |
| GatewayLink.Link.Adopt | pkg/client/link.go:92-103 | the section of adopt: refuses after close, else makes the connection current, and says whether this is a reconnect |
| GatewayLink.Link.Lose | pkg/client/link.go:123-129 | the section of lost: retires the connection exactly if it is current and the link is open |
| GatewayLink.Link.MarkClosed | pkg/client/link.go:181-187 | the section of close: closed for good, nothing current, and what was current is handed over to be closed |
| GatewayLink.StepInv | pkg/client/link.go:61-140 | every step of every thread keeps the inductive invariant on locks, connections, watchers and the wait group |
| GatewayLink.RunInv | pkg/client/link.go:61-192 | so every interleaving of any number of callers, watchers and closers keeps it |
| GatewayLink.OneDialler | pkg/client/link.go:65-71 | at most one dial is in progress at any time |
| GatewayLink.AdoptFindsNoClient | pkg/client/link.go:92-103 | adopt never overwrites a current connection |
| GatewayLink.ClosedKeepsNothing | pkg/client/link.go:181-187 | a closed link has no current connection |
| GatewayLink.NothingLeaks | pkg/client/link.go:92-192 | with every thread past the Close it owes, every dialled connection is closed or current, and none is open once the link is closed |
| GatewayLink.EndIsNoticed | pkg/client/link.go:104-117 | if the current connection has ended, some thread is able to retire it |
| GatewayLink.RetiredOnce | pkg/client/link.go:123-140 | over any run each connection is retired by at most one lost, and its loss is announced at most once and only if retired |
| LinkGet.GetHandsWhatItFound | pkg/client/link.go:61-88 | over every run and thread, a call of get hands over the connection it found current at one of its two looks or dialled itself, and none exactly if it gave up dialling |
| LinkGet.EmptyHandedMeansGaveUp | pkg/client/link.go:72-88 | a call that hands over nothing had, since its first look, a dial that failed for good or stopped waiting to dial again |
| LinkGet.LossIsAnnounced | pkg/client/link.go:123-134 | once the thread that retired a connection is done with it, the loss was announced, unless the link was going down |
| LinkGet.AnnouncingRedials | pkg/client/link.go:134-139 | with each announcement a new counted goroutine starts at get |
| LinkGet.KeepaliveOutlivesNothing | pkg/client/link.go:195-232 | a keepalive stops only with its connection at an end |
| LinkGet.ForwarderMayReport | pkg/client/link.go:145-178 | a forwarder may report the connection it was handed as failed, which retires it exactly if it is current and the link open |
| LinkGet.WasUpIffAdopted | pkg/client/link.go:98-103 | adopt says "reconnected" exactly if a connection was adopted before |
| LinkClose.WaitFindsNone | pkg/client/link.go:181-192 | when the wait of close is over, no goroutine counted in the wait group runs |
| LinkClose.CloseWaitedForAll | pkg/client/link.go:181-192 | that stays so for ever if and only if no thread then stood between a section and the wg.Add after it |
| LinkClose.CloseAfterCallersIsComplete | pkg/client/tunnel.go:68-127 | if every other caller left before close, as forward sees to, then after its wait no counted goroutine ever runs |
| LinkClose.CloseCanOutrunAdopt | pkg/client/link.go:104-106 | a reachable state where a thread does stand there |
| LinkProgress.CloseCanFinish | pkg/client/link.go:181-192 | from every reachable state in which a closer waits, the goroutines under way can end its wait by themselves, without new calls, network events or further dials |
| LinkProgress.OwnStepsAreBounded | pkg/client/link.go:61-192 | over every run of a link that is down, whoever takes part, the goroutines take at most as many own steps as there was work left and as calls, retries and closers brought |
| LinkProgress.CloseFinishes | pkg/client/link.go:181-192 | a schedule of own steps is no longer than the work left, and where it cannot go on the wait of close is over |
| LinkProgress.SomebodyMoves | pkg/client/link.go:61-192 | once the link is down, whoever has something left to do is not blocked, or the holder of the lock, or closer of the connection, that it waits for is not |
| AgentWork.Agent.Begin | pkg/agent/manage.go:49-71 | refused while draining; otherwise a fresh id is active, and the closure knows it |
| AgentWork.Agent.End | pkg/agent/manage.go:58-70 | removes the item; the last end under a drain closes the idle channel |
| AgentWork.Agent.Drain | pkg/agent/manage.go:75-85 | drains, and makes a new idle channel exactly if something runs |
| AgentWork.Agent.Undrain | pkg/agent/manage.go:110-116 | accepts work again and forgets the idle channel |
| AgentWork.Agent.WorkStatus | pkg/agent/manage.go:119-123 | whether it drains, and how many items run |
| AgentWork.RunInv | pkg/agent/manage.go:39-123 | every interleaving of begin, end, drain, undrain and waiters keeps the invariant |
| AgentWork.IdleMeansWaiting | pkg/agent/manage.go:75-85 | an idle channel is there exactly while draining with active work |
| AgentWork.ClosedOnce | pkg/agent/manage.go:62-68 | no idle channel is closed twice |
| AgentWork.BeginIsFresh | pkg/agent/manage.go:49-57 | ids are never reused, and a refused begin changes nothing |
| AgentWork.EndAgainIsHarmless | pkg/agent/manage.go:58-70 | an end closure may be called again at any time |
| AgentWork.OnlyTheLastEndReleases | pkg/agent/manage.go:62-68 | a channel is closed exactly by the end that empties the active set while it is current, and it is then the newest |
| AgentWork.SupersededNeverReleased | pkg/agent/manage.go:75-107 | the waiter of a replaced or abandoned drain is never released by work ending; only its timer wakes it |
| AgentWork.NewestDrainIsReleased | pkg/agent/manage.go:75-107 | while it drains, the newest drain's channel is closed exactly if nothing runs |
| AgentWork.TimeoutClosesWhatItFound | pkg/agent/manage.go:89-106 | a waiter whose timer fired ends only after closing every item it found |
| AgentWork.DrainAdmitsNothing | pkg/agent/manage.go:49-57 | from a drain to the next undrain nothing begins and the active set only shrinks |
| AgentWork.RefusesIffDrainStands | pkg/agent/manage.go:49-116 | after any run work is refused if and only if some drain has no undrain after it |
| AgentWork.ActiveIsBegunNotEnded | pkg/agent/manage.go:49-70 | after any run an item is active if and only if it was begun and never ended |
| AgentWork.NobodyBlocks | pkg/agent/manage.go:49-116 | no call ever blocks; a waiter wakes exactly once its channel is closed, and its timer may go off at any time before, finding what runs then |
| AgentWork.TimedOutWaiterEnds | pkg/agent/manage.go:89-106 | a waiter whose timer went off ends by itself, in one step for each item left and one more |
| LiveSessions.Tracker.Begin | internal/livesessions/livesessions.go:22-35 | refused once closing; otherwise registers the stop function and counts the session |
| LiveSessions.Tracker.Delete | internal/livesessions/livesessions.go:38-41 | the locked half of End |
| LiveSessions.Tracker.Done | internal/livesessions/livesessions.go:42 | the other half of End, outside the lock: one session less to wait for, nothing else changed |
| LiveSessions.Tracker.Close | internal/livesessions/livesessions.go:47-55 | the locked part of Drain: refuse new sessions, and snapshot every registered stop function |
| LiveSessions.RunInv | internal/livesessions/livesessions.go:22-70 | every interleaving of Begin, both halves of End, and any number of Drains keeps the invariant |
| LiveSessions.NoAddAfterWait | internal/livesessions/livesessions.go:22-35 | once a Drain waits, Begin is refused, so no Add follows a Wait |
| LiveSessions.WaitOverIffAllEnded | internal/livesessions/livesessions.go:56-70 | a waiting Drain can return nil exactly when every accepted session has ended |
| LiveSessions.DrainedForever | internal/livesessions/livesessions.go:47-70 | after a Drain returned nil nothing is in flight and nothing is accepted ever again |
| LiveSessions.RefusedIffDrainBegan | internal/livesessions/livesessions.go:22-55 | after any run a session is refused if and only if a Drain has begun, and otherwise live and counted |
| LiveSessions.DrainCanReturn | internal/livesessions/livesessions.go:47-70 | from every state a Drain can come to return nil, by its own stop calls and the sessions ending |
| LiveSessions.DrainMayGiveUp | internal/livesessions/livesessions.go:60-70 | while it waits its context may end it |
| LiveSessions.EveryLiveSessionStopped | internal/livesessions/livesessions.go:47-59 | past its stop calls a Drain has stopped every session still live |
| LiveSessions.WaitCount | internal/livesessions/livesessions.go:10-43 | the wait count is the registered sessions plus the ends in progress |
| LiveSessions.CountNeedsDistinctIds | internal/livesessions/livesessions.go:22-35 | an accepted Begin keeps that count if and only if its id was not registered |
| LiveSessions.DuplicateIdLosesASession | internal/livesessions/livesessions.go:22-59 | the next Drain finds every live session if and only if the id was not registered |
| RateLimiter.Limiter.Sweep | pkg/api/jwt_agents.go:71-77 | drops exactly the keys whose newest request is not after the cutoff |
| RateLimiter.Limiter.Filter | pkg/api/jwt_agents.go:54-60 | written over the front of the array it is still reading, the filter leaves there the requests after the cutoff, in order |
| RateLimiter.Limiter.Allow | pkg/api/jwt_agents.go:44-67 | the decision and the whole new state of one call |
| RateLimiter.DecidesLikeFullLog | pkg/api/jwt_agents.go:44-77 | on every sequence of calls in time order it decides as a limiter that never forgets |
| RateLimiter.AllowedAreSpaced | pkg/api/jwt_agents.go:44-67 | for each key the allowed request number i + limit is at least one window after number i |
| RateLimiter.MemoryIsBounded | pkg/api/jwt_agents.go:44-77 | after any call every list is sorted with 1 to limit entries, and every key had a request allowed in the last two windows |
| Challenge.Store.Issue | pkg/api/challenge.go:71-79 | a payload of the nonce and the expiry, tagged for the username; the store itself does not change |
| Challenge.Store.Gc | pkg/api/challenge.go:125-131 | forgets exactly the nonces that have expired |
| Challenge.Store.Verify | pkg/api/challenge.go:87-121 | the verdict and the new redeemed set, the cap included |
| Challenge.PayloadRoundTrip | pkg/api/challenge.go:71-79 | the nonce and the expiry are read back from the payload as they were written |
| Challenge.MacMessageInjective | pkg/api/challenge.go:62-68 | no two (username, payload) pairs are tagged over the same bytes |
| Challenge.SingleUse | pkg/api/challenge.go:71-131 | over any run of calls that lock when they read the clock, a payload is accepted at most once, only for its username and before it expires, and the redeemed set stays within its cap |
| Challenge.IssuedIsAcceptedOnce | pkg/api/challenge.go:71-121 | with distinct nonces an issued challenge, presented by its user within the minute, is accepted unless it was before or 100000 others that have not expired fill the store |
| Challenge.EveryIssueCounts | pkg/api/challenge.go:71-79 | and every issuing of a run is such an issue, of that nonce and a minute's lifetime |
| ChallengeRace.AcceptedAgainIff | pkg/api/challenge.go:102-120 | with the reading of the clock and the section apart, a call accepts a challenge used before if and only if there is room and, for each earlier use, a collection past the expiry came after the call's reading; its nonce is its own |
| ChallengeRace.InTimeIsSingleUse | pkg/api/challenge.go:102-120 | a call that takes the lock before the challenge expires never accepts it again |
| ChallengeRace.UsedTwice | pkg/api/challenge.go:125-131 | a run in which a challenge is used twice |
| Challenge.DecidesLikeFullHistory | pkg/api/challenge.go:87-131 | with distinct nonces every verdict is that of a store that keeps every acceptance |
| Challenge.IssuingChangesNothing | pkg/api/challenge.go:71-79 | taking any issuing out of a run changes no later outcome |
| OneTimeStores.Collect | pkg/api/browser_bootstrap.go:76-83 | collecting leaves exactly the unexpired entries |
| OneTimeStores.BootstrapStore.Issue | pkg/api/browser_bootstrap.go:42-58 | collects, then stores the entry under the code |
| OneTimeStores.BootstrapStore.Redeem | pkg/api/browser_bootstrap.go:62-74 | the user of an unexpired code; the code is gone either way |
| OneTimeStores.TicketStore.Issue | pkg/api/password.go:33-48 | collects, then stores the ticket |
| OneTimeStores.TicketStore.Consume | pkg/api/password.go:50-60 | the user of an unexpired ticket for that username; a wrong username leaves it in place |
| OneTimeStores.CollectingIsInvisible | pkg/api/browser_bootstrap.go:42-83 | every sequence in time order gets the answers of a store that never collects, colliding codes included |
| OneTimeStores.RedeemedAtMostOnce | pkg/api/password.go:50-60 | no issue is redeemed twice |
| OneTimeStores.TakeYieldsIssuedUser | pkg/api/browser_bootstrap.go:62-74 | a redemption names one issue of that code, not redeemed before and not expired, and yields its user |
| OneTimeStores.TakeSucceedsIff | pkg/api/browser_bootstrap.go:42-74 | after every sequence in time order, a take gets the user of the latest issue of its code if that is not used up and the take fits it, within five minutes or two, and nothing otherwise |
| Grants.AuthService.FindActivePermission | pkg/database/postgres.go:1586-1610 | the newest unexpired grant of user, machine and type, or none |
| Grants.AuthService.GrantPermission | pkg/auth/auth.go:245-281 | puts exactly the asked-for row in place, over an active grant of the trio if there is one |
| Grants.UpsertStaysInItsTrio | pkg/auth/auth.go:253-276 | the row replaced is an unexpired one of the same user, machine and type, a new row means there was none, and no other row changes |
| Grants.AuthService.RevokePermission | pkg/auth/auth.go:284-302 | removes and archives the row, or reports that there is none |
| Grants.AuthService.UpdatePermission | pkg/api/api.go:1446-1510 | an edit keeps what it leaves out, is refused without targets, and stamps the row only for a known caller |
| Grants.EditChangesWhatItNames | pkg/api/api.go:1446-1510 | an edit changes just the columns it names, and never user or machine; the caller and the time are recorded together |
| Grants.TargetsNeeded | pkg/api/api.go:1378-1384 | every type needs accounts but rdp and vnc, which need nothing, and k8s, which needs good scopes |
| Grants.RunSound | pkg/database/postgres.go:1322-1345 | after any run, current rows are open versions and archived ones closed, in time order |
| Grants.VersionToRow | pkg/common/types.go:210-217 | a version that covers an instant was the row of its grant at that instant |
| Grants.RowToVersion | pkg/common/types.go:210-217 | every row the table ever held at an instant is a version that covers it |
| Grants.RunChained | pkg/database/postgres.go:1322-1345 | the versions of one grant follow one another without overlap |
| Grants.EndOfVersion | pkg/database/postgres.go:1322-1345 | the version that covers an instant ended, when and how, by the first later write to its grant, or is still current |
| Grants.GrantorOfVersion | pkg/database/postgres.go:653 | the version that covers an instant has the grantor of then, unless that user was deleted later while the version was current |
| GrantReview.PickOk | pkg/api/reports_compliance.go:603-626 | for each grant with an active version, one active version that ends last |
| GrantReview.BuildGrantReviewRows | pkg/api/reports_compliance.go:603-655 | the report is the picked versions, shown and sorted |
| GrantReview.RowsArePicks | pkg/api/reports_compliance.go:603-655 | one row for each picked grant, in a sorted order; rows that tie stay in the order first seen |
| GrantReview.ReviewInOrder | pkg/api/reports_compliance.go:640-655 | standing grants come first, then those that end sooner, then by user and machine |
| GrantReview.ReviewReconstructsTable | pkg/api/reports_compliance.go:603-655 | at an instant with no premature version the report has one row for each grant then present and unexpired, and in it, column by column, what the table had then, the first write that ended it since, and no grantor exactly where that was cleared since |
| GrantReview.CutReview | pkg/api/reports_compliance.go:576-598 | cut to the 5000 newest versions, the report has just those rows of the full one whose version was fetched; what is left out was stamped no later than all that was fetched; a report not marked as cut is the full one |
| GrantReview.GrantorExactIffNotCleared | pkg/database/postgres.go:653 | the grantor column is right if and only if nobody deleted that grantor after the instant and before the grant was next changed or removed |
| GrantReview.DeletedGrantorIsLost | pkg/database/postgres.go:653 | a run in which it is wrong, though every write is stamped when stored |
| GrantReview.StampedIsAlwaysExact | pkg/common/types.go:219-228 | if every write stamps its row at the instant it is stored, the review is exact up to the grantor at every instant |
| GrantReview.ExactIffClean | pkg/common/types.go:219-228 | where no version was replaced at the instant it was written, the review is exact up to the grantor if and only if no version unexpired then was stamped by the instant but stored after it |
| GrantReview.EarlyStampMisreports | pkg/auth/auth.go:266-270 | a grant stamped at 10 and stored at 11 is shown by the review as of 10 |
| RiskPolicy.ContainsIsAWalk | pkg/common/risk_policy.go:30-35 | a valid range is the hours met on a walk of its length from its start, round the clock |
| RiskPolicy.IpIn | pkg/common/risk_policy.go:128-139 | whether a parsed address lies in one of the networks |
| RiskPolicy.CheckCidrs | pkg/common/risk_policy.go:118-126 | no errors exactly if every network parses |
| RiskPolicy.Validate | pkg/common/risk_policy.go:84-116 | no errors exactly for a valid policy |
| RiskPolicy.ValidIff | pkg/common/risk_policy.go:84-116 | a policy is valid if and only if each rule that is on has a cap of low or medium, 1 to 86400 seconds, hours that hold an hour, networks that parse, and levels that exist |
| RiskPolicy.InSomeNetwork | pkg/common/risk_policy.go:128-139 | an address is in a list of networks if and only if one that parses spans it |
| RiskPolicy.EscalationReasons | pkg/common/risk_policy.go:152-168 | the reasons are exactly the escalation conditions that hold |
| RiskPolicy.AutoFailures | pkg/common/risk_policy.go:173-196 | the reasons are exactly the auto-approval conditions that fail |
| RiskPolicy.EvaluateRisk | pkg/common/risk_policy.go:146-203 | escalation wins, auto-approval needs every condition, everything else is manual, and the reasons are exact |
| RiskPolicy.UnattendedLimits | pkg/common/risk_policy.go:84-116 | what a valid policy approves by itself is a low or medium target, for 1 to 86400 seconds, inside every limit, and nothing it escalates |
| RiskPolicy.ApprovedIff | pkg/common/risk_policy.go:146-203 | a valid policy approves by itself if and only if the target is within its cap by name, every other limit it names is kept, and it has no reason to escalate |
| RiskPolicy.EscalatedIff | pkg/common/risk_policy.go:151-168 | a policy that escalates does so if and only if one of its four conditions holds |
| RiskPolicy.RoutedOtherwise | pkg/common/risk_policy.go:146-203 | without policy or signals a person decides; escalation is exactly that condition; anything neither escalated nor approved goes to a reviewer |
| AccessRequests.Service.CreateAccessRequest | pkg/api/api.go:685-730 | refuses bad targets and negative durations; otherwise stores a pending request routed by the policy in force |
| AccessRequests.Service.PutRiskPolicy | pkg/api/risk.go:107-137 | only an admin, and only a policy that validates |
| AccessRequests.Service.ApproveAccessRequestWithTTL | pkg/auth/auth.go:328-380 | a pending request becomes approved and one grant is written with its user, machine, type, logins and lifetime; anything else changes nothing |
| AccessRequests.Service.RejectAccessRequest | pkg/auth/auth.go:383-404 | a pending request becomes rejected; anything else changes nothing |
| AccessRequests.Service.Approve | pkg/api/api.go:807-869 | the reviewer is the caller, an escalated request needs an admin, and every refusal changes nothing |
| AccessRequests.LifetimeIsExact | pkg/api/api.go:1389-1392 | the lifetime is the seconds asked for exactly up to 9223372036; a direct grant may ask for more, a request cannot |
| AccessRequests.RunInv | pkg/api/api.go:685-911 | any run of creations, routings, approvals, rejections, policy changes, expiries and deletions keeps the invariant |
| AccessRequests.PendingIsDecidedBy | pkg/auth/auth.go:328-404 | over every run a pending request is decided by exactly an approval not refused, the policy's approval, a rejection or its expiry, recording who and when, with a grant for its user, machine and logins written exactly for an approval; or it goes with its user or machine; or nothing about it changes |
| AccessRequests.ApprovalsGrantWhatWasAsked | pkg/auth/auth.go:370-380 | over every run each request keeps what it was created with, and each approval grants just the type and logins asked for, in the approver's name |
| AccessRequests.PolicyIsTheLastPut | pkg/api/risk.go:107-137 | the policy in force is the valid one an admin put last |
| AccessRequests.PolicyApprovalIsDue | pkg/api/risk.go:28-52 | a request waits for the policy's approval exactly if it was routed so at its creation and that was not yet applied |
| AccessRequests.DecidedStaysDecided | pkg/auth/auth.go:328-404 | a request leaves pending at most once, then only a deleted reviewer is forgotten, and it causes no further grant write |
| AccessRequests.OneGrantWritePerRequest | pkg/auth/auth.go:328-380 | at most one grant write for each request, and one for every request shown as approved |
| AccessRequests.EscalatedNeedsAdmin | pkg/api/api.go:824-829 | what the policy at creation escalates is approved by admins only, however the policy changed since |
| AccessRequests.UnattendedApprovalsAreBounded | pkg/api/risk.go:32-78 | an approval nobody reviewed was routed under a valid policy, inside its limits, and its grant ends at most a day after its stamp |
| AccessRequests.NoReviewerMeansPolicyOrDeleted | pkg/api/reports_compliance.go:553-565 | no reviewer on record if and only if the policy approved or the reviewer was deleted |
| AccessRequests.DeletedReviewerReadsAsPolicy | pkg/database/postgres.go:660-662 | a run after which a person's approval reads as the policy's |
| ApprovalRace.GrantsWrittenBy | pkg/auth/auth.go:328-380 | a grant is written exactly by those who read the request before anybody finished with it or it expired, and approved before it was deleted |
| ApprovalRace.BothWriteIffBothReadFirst | pkg/auth/auth.go:328-380 | two approvals of one request that is not deleted both write a grant if and only if both had read it before anybody finished or it expired |
| ApprovalRace.OneByOneGrantsOnce | pkg/auth/auth.go:328-404 | when each finishes right after reading, at most one grant is written |
| ApprovalRace.TwoGrants | pkg/auth/auth.go:328-380 | a run in which two are |
| ApprovalRace.LastDecisionStands | pkg/database/postgres.go:1163-1180 | the request ends up as the last decision stored says, and those who read it early all store theirs |
| ApprovalRace.RejectedWithGrantIff | pkg/auth/auth.go:328-404 | of one approval and one rejection, the request ends up rejected with a grant written if and only if both read it first and the approval was stored first |
| Capabilities.CoversIsContainment | pkg/common/access.go:15-23 | one normalized access type covers another exactly if it allows all the other does |
| Capabilities.NormalizeKeepsKnown | pkg/api/capabilities.go:495-506 | ssh, scp, rdp, vnc and k8s stay themselves in any case and with blanks around them, and anything else is both |
| Capabilities.Outranked | pkg/api/capabilities.go:245-256 | whether some kept entry on the target makes the newcomer pointless |
| Capabilities.Builder.Add | pkg/api/capabilities.go:223-259 | keeps the filled-in candidate unless its machine is unknown or it is outranked, and keeps the index right |
| Capabilities.Builder.NoteEvidence | pkg/api/capabilities.go:263-281 | records a known machine and counts each login |
| Capabilities.Builder.SuggestedRemoteUser | pkg/api/capabilities.go:285-297 | the login BestOf picks, or root |
| Capabilities.Builder.AddGrants | pkg/api/capabilities.go:299-318 | offers every grant, login by login, and notes it |
| Capabilities.Builder.AddRequests | pkg/api/capabilities.go:320-346 | offers pending requests, then the others |
| Capabilities.Builder.AddSessions | pkg/api/capabilities.go:348-379 | offers each machine and login once, with its newest start |
| Capabilities.Builder.TagOrigins | pkg/api/capabilities.go:416-434 | the tags of known machines, each with the machine it is borrowed from |
| Capabilities.Builder.AddTagPeers | pkg/api/capabilities.go:384-412 | offers unknown machines that share a tag, by the first such tag |
| Capabilities.Builder.AddDirectory | pkg/api/capabilities.go:436-448 | offers every machine, by name |
| Capabilities.RemoteUsersOrAny | pkg/api/capabilities.go:482-493 | the trimmed non-blank logins, or one blank one |
| Capabilities.BuildCapabilities | pkg/api/capabilities.go:178-207 | the catalog sorted; when longer than 500, its first 500 and the truncated flag; ReturnedInOrder says in what order |
| Capabilities.EveryCandidateIsServed | pkg/api/capabilities.go:223-259 | every candidate on a known machine is served by a kept entry on its target that is no weaker |
| Capabilities.KeptAreNonRedundant | pkg/api/capabilities.go:245-256 | no kept entry is covered by an earlier one on its target |
| CapabilityCatalog.EveryGrantIsCovered | pkg/api/capabilities.go:299-318 | every login of every grant on a known machine is covered by a granted entry of that machine and login, if machine ids cannot be confused; on the same key in any case |
| CapabilityCatalog.EveryRequestIsCovered | pkg/api/capabilities.go:320-346 | in the same sense every login of every request is covered by a grant or a request, a pending one by a granted or pending entry |
| CapabilityCatalog.EverySessionIsCovered | pkg/api/capabilities.go:348-379 | in the same sense every session is covered by an entry for ssh and scp from a grant, a request or a session |
| CapabilityCatalog.EveryPeerIsOffered | pkg/api/capabilities.go:381-412 | in the same sense a machine the user has no dealings with that shares a tag with one they have is offered, and not from the directory |
| CapabilityCatalog.EveryMachineIsOffered | pkg/api/capabilities.go:436-448 | in the same sense, in scope all, every machine of the inventory is in the catalog with the suggested login |
| CapabilityCatalog.ConfusedMachineIsMissing | pkg/api/capabilities.go:244-256 | with ids that can be confused, a catalog in which a granted machine has no entry |
| CapabilityCatalog.EntryHasOrigin | pkg/api/capabilities.go:178-207 | every entry comes from a grant, request, session, shared tag or machine that is there |
| CapabilityCatalog.EntryTells | pkg/api/capabilities.go:299-382 | what an entry says, by its source: the grant, the request with its status and the reason for it, or the newest session, that it comes from, and the machine as in the inventory |
| CapabilityCatalog.LatestIsNewest | pkg/api/capabilities.go:348-365 | the last-used stamp is the newest start of such a session |
| CapabilityCatalog.OriginsAreKnown | pkg/api/capabilities.go:414-434 | a tag is known exactly if a known machine has it, and its origin is the first such machine by name |
| CapabilityCatalog.TagEntriesSayWhy | pkg/api/capabilities.go:384-412 | a machine offered for a tag is unknown and shares that tag with the known machine named |
| CapabilityCatalog.CatalogIsNonRedundant | pkg/api/capabilities.go:223-259 | no entry is covered by an earlier one on its target, and no two entries share an id |
| CapabilityCatalog.DiscoveriesStandAlone | pkg/api/capabilities.go:251-255 | an entry found by a shared tag or in the directory shares its target with no other |
| CapabilityCatalog.TargetsNameMachines | pkg/api/capabilities.go:244 | the target key names one machine and login if and only if no known id continues another with a bar and no space |
| CapabilityCatalog.ScopeAllOnlyAdds | pkg/api/capabilities.go:189-195 | scope all is scope related followed by directory entries |
| CapabilityCatalog.ReturnedInOrder | pkg/api/capabilities.go:197-206 | granted entries come first, then pending, then requestable; within a status grants, requests, sessions, tags, directory; then by machine name, login and type; it is all that was kept or the first 500, and nothing left out could come before anything returned |
| CapabilityCatalog.SuggestedIsMostUsed | pkg/api/capabilities.go:283-297 | the suggested login is the one used most, first in the alphabet among equals, and root without history |
| CapabilityCatalog.EvidenceIsDealings | pkg/api/capabilities.go:261-281 | the known machines are those in the inventory that a grant, request or session names |
| NotificationPolicy.NormalizeChannels | pkg/common/notification_policy.go:266-287 | the known channels named, each once, in the fixed order |
| NotificationPolicy.Policy.Normalize | pkg/common/notification_policy.go:223-262 | clean mandatory events, as some order of the keys leaves them, and an allow-list with every mandatory channel if it names any channel |
| NotificationPolicy.Policy.ClampPrefs | pkg/common/notification_policy.go:177-217 | the preferences as clamped, and true exactly if that changed them |
| NotificationPolicy.Policy.Deliver | pkg/common/notification_policy.go:158-166 | mandatory first, then disallowed, then the wish; no preferences read as a new user's |
| NotificationPolicy.NewUserIsToldInApp | pkg/common/notification_prefs.go:17-25 | a user without preferences gets every event in the app if that may be enabled, and elsewhere only what is mandatory |
| NotificationPolicy.AllowedChannels | pkg/common/notification_policy.go:70-83 | only the app and mail exist, and a policy that lists any channel allows just those it lists |
| NotificationPolicy.Policy.ChannelAllowed | pkg/common/notification_policy.go:70-83 | a known channel on the list, or any when the list is empty |
| NotificationPolicy.Policy.IsMandatory | pkg/common/notification_policy.go:103-132 | whether the event is pinned to the channel |
| NotificationPolicy.Policy.MandatoryEventsForChannel | pkg/common/notification_policy.go:136-148 | exactly the events pinned to the channel, sorted |
| NotificationPolicy.NormalizedIsNormal | pkg/common/notification_policy.go:219-262 | whatever map order Go picks, the stored policy does not contradict itself |
| NotificationPolicy.NormalizeIsIdempotent | pkg/common/notification_policy.go:223-262 | normalizing a normal policy changes nothing |
| NotificationPolicy.NormalizeKeepsMandatory | pkg/common/notification_policy.go:238-249 | a mandatory delivery survives every map order if and only if its event is named without blanks around it and no other key that trims to it leaves the channel out |
| NotificationPolicy.ClampedWishesDecide | pkg/common/notification_policy.go:168-217 | for a normalized policy and clamped preferences, Deliver is the preference on every known channel and every event |
| NotificationPolicy.ClampedDecidesIffConsistent | pkg/common/notification_policy.go:251-261 | that holds of a policy, for all preferences, if and only if no mandatory channel is disallowed |
| NotificationPolicy.ClampIsIdempotent | pkg/common/notification_policy.go:177-217 | clamping twice is clamping once |
| NotificationPolicy.ClampKeepsDeliveries | pkg/common/notification_policy.go:177-217 | clamping never takes a delivery away, whatever the policy |
| NotificationPolicy.ClampAddsExactly | pkg/common/notification_policy.go:177-217 | clamping adds an event on a channel if and only if it is not mandatory there, the channel may be enabled and is on or had to be switched on, the clamped list lets it through, and before the channel was off or the list left it out |
| NotificationPolicy.WidensNothingIffSettled | pkg/common/notification_policy.go:177-217 | it adds nothing on a channel, whatever the event, if and only if the policy and the preferences before the call leave nothing to add there |
| NotificationPolicy.ClampMayWiden | pkg/common/notification_policy.go:196-201 | and it does add events that are not mandatory |
| Revocation.ExpiredRecordMeansExpiredCert | pkg/ca/ca.go:296-319 | once the store takes a certificate for expired its own validity is over, rounding included |
| Revocation.Authority.IssueUserCert | pkg/ca/ca.go:281-324 | the certificate and its record for the clamped lifetime; none when the serial is taken |
| Revocation.ClampedIs | pkg/ca/ca.go:266-274 | the lifetime asked for, or the longest allowed if that is less; the default without asking |
| Revocation.ConfiguredHours | pkg/ca/ca.go:244-264 | a configured number of hours, else the default number |
| Revocation.ValidForItsLifetime | pkg/ca/ca.go:292-306 | the certificate is valid from the second a minute before its issue to just before the second in which its lifetime ends |
| Revocation.Authority.IssueHostCert | pkg/ca/ca.go:330-371 | the same for a host, with the default lifetime when none is asked for, and none without a principal |
| Revocation.Authority.RevokeCertificate | pkg/ca/ca.go:376-384 | revokes an unrevoked certificate in the store and the cache; otherwise changes neither |
| Revocation.Authority.ListRevokedCertSerials | pkg/database/postgres_ca.go:168-185 | exactly the revoked serials that have not expired |
| Revocation.Authority.RefreshRevocationCache | pkg/ca/ca.go:390-403 | the cache becomes exactly that set |
| Revocation.RunInv | pkg/ca/ca.go:376-403 | any run of issues, revocations here and elsewhere, listings and swaps keeps the cache a mirror up to what it was not told |
| Revocation.DiffersExactlyOnUnseen | pkg/ca/ca.go:386-410 | at every instant the cache answers as the full record, except exactly for a revocation it was not told of while the certificate is valid |
| Revocation.RefusedForGoodIffTold | pkg/ca/ca.go:373-410 | in every reachable state, a certificate valid at an instant is refused on every way there if and only if it is revoked, the cache was told, and no older listing is still to come |
| Revocation.RefusedForGood | pkg/ca/ca.go:373-384 | one half of that, for each run: once told, it is refused in every later state |
| Revocation.RevokedHereIsRefused | pkg/ca/ca.go:376-403 | a certificate revoked here stays refused while valid if and only if no refresh stood between its listing and its swap then, or one listed or swapped before the cache was written |
| Revocation.RevokingHereTells | pkg/ca/ca.go:376-384 | a revocation made here, with anything between its two halves, is told in that sense if and only if no refresh had listed before it, or one swapped or listed again between the halves |
| Revocation.RevokeCallRefuses | pkg/ca/ca.go:376-384 | after a call the certificate is refused if and only if the call revoked it, the cache held it already, or it is not valid then |
| Revocation.AnotherProcessFirst | pkg/database/postgres_ca.go:188-200 | a run in which the call finds nothing to revoke and the certificate stays accepted |
| Revocation.LateSwapForgets | pkg/ca/ca.go:390-403 | a run in which a revoked certificate is accepted again |
| ShellQuote.ShellWord | pkg/client/client.go:648-660 | the string itself when plain, else quoted |
| ShellQuote.PlainCharsAre | pkg/client/client.go:648-654 | plain are letters, digits and eleven other characters |
| ShellQuote.QuotedIsOneWord | pkg/api/terminal.go:633-635 | a quoted NUL-free string reads back as one word, itself, every character quoted |
| ShellQuote.QuotedArgument | pkg/api/terminal.go:633-635 | also after and before any other complete words |
| ShellQuote.ShellWordIsOneWord | pkg/client/client.go:648-660 | shellWord reads back as one word, itself, open to tilde expansion exactly if plain and starting with a tilde |
| ShellQuote.QuotedIsInjective | pkg/api/terminal.go:633-635 | different strings have different quoted forms |
| ShellQuote.NulIsRefused | pkg/api/terminal.go:633-635 | a string with a NUL makes no complete command |
| Percentile.PercentileIsOnTheLine | pkg/api/dashboard_usage.go:155-176 | every branch agrees with the line through the samples |
| Percentile.PercentileMonotone | pkg/api/dashboard_usage.go:155-176 | a higher percentile is never smaller |
| Percentile.PercentileInRange | pkg/api/dashboard_usage.go:155-176 | it lies between the smallest sample and the largest |
| Percentile.PercentileHitsSamples | pkg/api/dashboard_usage.go:155-176 | at the k-th of n-1 equal steps it is the k-th sample |
| Percentile.PercentileSharesTheGap | pkg/api/dashboard_usage.go:155-176 | between two samples they count with the fraction of the gap and its complement |
| Percentile.SummarizeLatency | pkg/api/dashboard_usage.go:136-153 | zeros without samples, else the size, average and both percentiles of the sorted samples |
| Percentile.PercentilesInRange | pkg/api/dashboard_usage.go:136-153 | min <= P50 <= P95 <= max |
| Percentile.AverageInRange | pkg/api/dashboard_usage.go:136-153 | the average lies in the same range |
| Percentile.OrderDoesNotMatter | pkg/api/dashboard_usage.go:141 | the order of the samples does not matter |
| BackupCodes.GenerateBackupCodes | pkg/auth/mfa.go:44-60 | the store holds exactly the hashes of the codes |
| BackupCodes.ConsumeBackupCode | pkg/auth/mfa.go:63-84 | accepts exactly a stored code, in any case and with blanks around it, and takes one copy out; a rejected code changes nothing |
| BackupCodes.TypedAnyhow | pkg/auth/mfa.go:86-89 | a code in any case and between blanks has the hash of the code in upper case |
| BackupCodes.ValidateMFACode | pkg/auth/mfa.go:91-107 | a time-based code leaves the store, a backup code is removed, and failure returns an empty store |
| BackupCodes.Account.Present | pkg/api/mfa.go:202-211 | the handlers' rule: what comes back is stored only for a good code |
| BackupCodes.LinesOfJoin | pkg/auth/mfa.go:63-84 | joined hashes split and trim back into themselves |
| BackupCodes.CodesAreConserved | pkg/auth/mfa.go:63-107 | over any attempts, what is left and what was spent make up what was there |
| BackupCodes.EachCodeWorksOnce | pkg/auth/mfa.go:63-107 | of attempts one after another, each stored code is accepted as often as presented, up to the copies stored |
| BackupRace.ConservedIffNoneStale | pkg/api/mfa.go:202-211 | with reading and storing apart, codes are never lost, and what is left and what was accepted make up what was there if and only if no request was accepted on a list read before another acceptance |
| BackupRace.NoneStaleWorksOnce | pkg/api/mfa.go:202-211 | then no code is accepted more often than it was stored |
| BackupRace.SpentTwiceIffBothReadFirst | pkg/api/mfa.go:202-211 | of two requests with one code the second is accepted as well if and only if it had read the account before the first finished |
| HourRanges.FormatHours | pkg/anomaly/anomaly.go:111-131 | the text is that of ascending ranges, none overlapping or touching, that hold exactly the hours |
| HourRanges.ParseRender | pkg/anomaly/anomaly.go:121-130 | the text reads back as the same ranges |
| HourRanges.CompactIsUnique | pkg/anomaly/anomaly.go:111-131 | a set of hours has one such list |
| HourRanges.TextDeterminesHours | pkg/anomaly/anomaly.go:111-131 | the text says which set it came from |
| HourRanges.ApartIsTheShortWay | pkg/anomaly/anomaly.go:97-102 | the distance used is the least number of hours from one to the other, either way round the clock |
| HourRanges.OffHours | pkg/anomaly/anomaly.go:89-108 | flags a start more than an hour, the short way round the clock, from each of at least ten earlier ones, and quotes their hours |

## Left out

Assumptions and parts that are not modelled, one line each.

- GatewayLink: backoff lengths, errors of the dialler and keepalive timing are nondeterministic choices; `openStream` is a caller that may call get and lost in any order.
- AgentWork: reload and self-update use drain but are not modelled; a timer may fire at any time after its drain.
- RateLimiter: a call filters in an array; between calls the list of a key is a value, so that the next call finds the same array, and its spare capacity, is not modelled.
- LiveSessions: the context of Drain is a step that may end a wait at any time.
- Challenge.Store.Verify: samples the clock before it takes its lock; here the two are one step, and ChallengeRace takes them apart.
- Challenge.SingleUse: is about calls that lock when they read the clock; InTimeIsSingleUse and AcceptedAgainIff are about all.
- DecidesLikeFullHistory: needs distinct nonces, and AcceptedAgainIff one of its own; they are 16 random bytes, and that two never collide is not proved.
- Challenge: the tag is equal exactly for equal messages; HMAC itself is not modelled.
- Grants: SQL is taken by contract, with no store errors, and each handler's read and write as one step; authorizer tuples are left out.
- Grants.AuthService.GrantPermission: the readings of the clock inside one call are one instant, and the store's write is a later one.
- GrantReview: formatted instants are compared as instants, which needs four-digit years.
- AccessRequests: notifications, hooks and audit records around a decision are left out; the read and the write of one decision are one step here, and ApprovalRace takes them apart for one request.
- RiskPolicy: networks are intervals of addresses, and the texts of the reasons are values.
- Capabilities: the lists hold no nil pointers; the fetch limits of the handler are left out, and the cut at 500 is modelled.
- Text.ToLower: exact for characters whose lower case is an ASCII letter, which is all the comparisons need.
- NotificationPolicy: a nil policy is left out of the methods, and its effect is that of the absent bounds in the functions; the fixed channel list is two constants.
- Revocation: key handling and signing are left out; serials are numbers, not their decimal text; the SSH library's own validity check is taken as between ValidAfter and ValidBefore in whole seconds.
- ShellQuote: double quotes, expansions, operators, reserved words and aliases are not read: the reader gives up on them.
- Percentile: over the reals, so rounding of float64 is not modelled; q times a count is written as a repeated sum, and TimesIsProduct says it is the product.
- BackupCodes: the outcome of checking a time-based code is an input; the letter mapping is any that keeps spaces and is done after one time, and the hash is any function to non-blank lines.
- BackupCodes.EachCodeWorksOnce: is about attempts one after another; BackupRace is about requests at the same time.
- BackupRace: other writes of the user row, which carry the codes along as they were read, are left out.
- HourRanges: the hours of sessions are inputs; time zones are left out.
- Not modelled: the command line, tables and wizards, exports to PDF, CSV and JSON, metrics, tracing, configuration and the web plumbing.
- Not modelled: SSH, TCP and HTTP themselves, terminals, relays, process execution and cryptography.

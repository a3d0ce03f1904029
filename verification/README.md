# TimeEcho state machines

TimeEcho keeps the state of anonymous matching, paper-plane letters, rooms,
messages, sessions and friendships in database rows, and mirrors parts of it in
Redis. Most of its functions are short; what users rely on are invariants that
hold only because of what all the other functions do. This project models those
state machines and proves the invariants, and what follows from them, over
every history of calls.

Each machine has three layers:

- a *model* (`MatchingModel`, `LetterModel`, `IdentityModel`, `MessageModel`,
  `SessionModel`, `RefreshFlight`, `SocialModel`): the committed rows and Redis
  keys as one value, and for every call the value it leads to. A call that
  raises leaves the rows as they were;
- *proofs* about every step and every run of that model;
- a *service class* whose fields are the tables and whose methods update them in
  place, branch by branch as the source does. Each public method is proved to
  take exactly the model's step and to keep the machine's invariant, so what is
  proved about runs holds of the code-shaped methods. For letters the invariant
  in the class is that of letters, queue and pools; the quota invariant, which
  depends on the configured limits, follows from the steps (`LetterQuota`).

| Files | Machine |
|---|---|
| `MatchingModel`, `MatchingChoice`, `MatchingInvariant`, `MatchingHistory`, `MatchingOutcomes`, `MatchingService` | IDLE / WAITING / ACTIVE users, the waiting queue, rooms, matches, recent pairs, exclusions; also the room worker, the generic room exit and blocking |
| `LetterModel`, `LetterInvariant`, `LetterFlow`, `SalvageOrder`, `LetterQuota`, `LetterService` | RISK_REVIEW / SEALED / AVAILABLE / SALVAGED / DESTROYED letters, the release queue, the availability pools, the daily quotas of writing and salvaging, and the dormancy worker that deletes them |
| `RateLimit` | the fixed-window limiter, with deletions of its counters from outside |
| `IdentityModel`, `IdentityProofs`, `IdentityService` | relationship-scoped anonymous identities and the exchange of cards |
| `LetterIdentities` | the letter and identity machines side by side |
| `MessageModel`, `MessageProofs`, `MessageWipes`, `MessageService` | message saves with interleaved lookup, insert and room end, by requests and over chat sockets |
| `SessionModel`, `SessionSplit`, `RefreshFlight` | refresh-token rotation as one step, as two steps of overlapping requests, and under the mobile client's single-flight refresh |
| `SocialModel`, `SocialProofs`, `SocialService` | requests, friendships, remarks, blocks |
| `Basics` | options, ordered enumeration of a set, the stable descending sort, unordered pairs, the block relation |

Time is a real number of seconds; a call carries the server's clock value, and
clocks never run backwards along a history. Random draws (the salvage
candidate, the appearance of an identity) and the answers of content checks are
arbitrary: the results hold for every outcome.

## Where the code differs from what one would expect

These are proved, with the exact condition:

- The limiter admits up to 2L - 1 calls in an interval as long as its window,
  not L, and every deletion of the counter inside the interval adds L
  (`RateLimit.TraceBound`). For every number of deletions that many calls are
  reached (`RateLimit.BoundIsReached`).
- The dormancy worker deletes the daily counters of users it puts to sleep, who
  can go on writing and salvaging. So two times the limit fits into one day
  (`LetterQuota.RelapseDoublesTheLimit`; `LetterQuota.SleepBreaksTheBound` is a
  history from an empty database). A deletion happens exactly when a worker pass
  finds the user active and a week without login
  (`LetterQuota.SleepDeletesExactly`); within a week after a login the bound is
  2L - 1 (`LetterQuota.BoundAfterLogin`).
- "An ACTIVE user sits in a live room" is kept by every call except a generic
  exit from a match room, which strands exactly that room's users
  (`MatchingOutcomes.StrandsExactly`, `MatchingOutcomes.NobodyStranded`). No call
  but the user's own status query frees a user from there
  (`MatchingHistory.StrandedUntilStatus`, `MatchingHistory.StatusFrees`).
- Pool reconciliation looks only at the pool of all letters. After a crash
  between the commit of a release and the end of its index writes, it repairs the
  index exactly when the crash came before the first or after the last write
  (`LetterInvariant.CrashThenReconcile`).
- "An ended room holds no text" is false in two ways: a save can pass the room
  check and insert after the end (`MessageWipes.WipeCanBeOutrun`), and a chat
  socket goes on with the room row its session read first, so that even a message
  begun after the end is stored (`MessageWipes.SocketOutlivesTheRoom`). A wiped
  room stays wiped along every continuation if and only if every save in flight
  already has a row for its client id or still has to meet a block, and no
  connected socket still takes the room for live within its lifetime and without
  a block (`MessageWipes.StaysWipedExactly`).
- A refresh token is accepted twice if and only if two requests for it had both
  passed their check before the first of them wrote (`SessionSplit.TwiceExactly`;
  `SessionSplit.TwoRefreshesOverlap` is a history), and a revoked session rotates
  again if and only if such a request is still to write
  (`SessionSplit.RevokedRotatesExactly`). A single client never posts
  one token twice, so it is safe even so (`RefreshFlight.SingleFlight`).
- "A remark implies a friendship" is kept by every call but the admin removal of
  a friendship that carries a remark (`SocialProofs.RemarksNeedFriendship`).
- The reply to a join tells the stored request except when a wait that was going
  on under another request ends in a match: then it echoes the arguments, while
  the score and the participant rows use the stored ones
  (`MatchingOutcomes.EchoExactly`, `MatchingOutcomes.MatchOutcome`).

## Model

| member | source | states |
|---|---|---|
| MatchingHistory.ReachableSound | backend/app/services/matching_service.py:108-421 | Every world reached from an empty database by any timely history of joins, heartbeats, cancels, disconnects, ends, exits, blocks, status queries, room timeouts and room openings satisfies the whole matching invariant: rows, queue, rooms and matches agree, pairs are counted and dated, rematches are spaced, and no match is missed |
| MatchingHistory.RunSound | backend/app/services/matching_service.py:108-421 | The same from any sound world, so the invariant survives every continuation |
| MatchingHistory.StepSound | backend/app/services/matching_service.py:131-421 | Each single call keeps the whole invariant and moves the clock to its own time |
| MatchingInvariant.StepKeeps | backend/app/services/matching_service.py:108-421 | Each call keeps: the Redis queue is the set of WAITING users; a waiting row carries purpose, topic, queue time and a past heartbeat; a room is recorded exactly for ACTIVE rows; both members of a live match room are ACTIVE in it; a match has exactly its room's two users, and is ended only with a dead room and both users gone |
| MatchingInvariant.RunKeeps | backend/app/services/matching_service.py:108-421 | The row, queue, room and match agreement holds along every run |
| MatchingInvariant.OneLiveRoomEach | backend/app/services/matching_service.py:144-145 | No user is in two live match rooms |
| MatchingInvariant.StrandedExactly | backend/app/api/chat.py:124-128 | In a consistent world a row points at a dead room exactly when that room was destroyed while its match row stayed open; which calls lead there is the subject of MatchingOutcomes.StrandsExactly |
| MatchingInvariant.PairingKeeps | backend/app/services/matching_service.py:244-283 | Seating two waiting users in a fresh room keeps the agreement of rows, queue, rooms and matches |
| MatchingInvariant.TimeoutKeeps | backend/app/workers/cleanup_worker.py:33-67 | The room timeout keeps the agreement although it never touches the Redis queue, because whoever sits in a room is not waiting |
| MatchingInvariant.EndRoomKeeps | backend/app/services/matching_service.py:338-407 | Ending a live match room keeps the agreement of rows, queue, rooms and matches |
| MatchingInvariant.CleanupKeeps | backend/app/services/matching_service.py:108-128 | After the cleanup exactly the fresh waiters still wait, with their rows untouched |
| MatchingChoice.ChooseIsBest | backend/app/services/matching_service.py:209-242 | The scoring loop and stable sort pick the eligible waiter of highest score, the smallest user id among equals, if that score is not negative; nobody is picked only when every eligible waiter scores below zero |
| MatchingChoice.BestIsUnique | backend/app/services/matching_service.py:238-240 | That description leaves one candidate: the choice does not depend on how the loop runs |
| MatchingChoice.RankedEntries | backend/app/services/matching_service.py:226-237 | The ranked list holds each non-excluded candidate once, with its score, in ascending id order |
| Basics.SortHeadIsFirstMaximum | backend/app/services/matching_service.py:238 | The head of a stable descending sort is the first of the maximal entries of the input |
| MatchingChoice.ScoreBounds | backend/app/services/matching_service.py:188-206 | Every score is -10000, exactly for a pair matched within ten minutes, or lies in [-45, 175]; a negative score means a match within one day |
| MatchingChoice.RematchNeedsCommonGround | backend/app/services/matching_service.py:188-206 | Within a day of a match, a non-negative score needs ten minutes' distance and equal or complementary purposes or an equal topic: waiting alone never outweighs the penalty |
| MatchingChoice.PurposeComesFirst | backend/app/services/matching_service.py:188-206 | Among peers not met recently none outscores one of complementary purpose, and only one of the same purpose and topic that has waited two minutes equals it; for a casual user another casual one always wins |
| MatchingChoice.WaitingCounts | backend/app/services/matching_service.py:200-201 | Of two equally suited peers the longer waiting is never behind, and is ahead until the other has waited two minutes |
| MatchingChoice.TopicIsWorth105 | backend/app/services/matching_service.py:198-201 | Of two unmet candidates of one purpose the one sharing the topic is ahead exactly while the other's wait, capped at 120 seconds, is less than 105 seconds longer than its own capped wait, and level at 105 |
| MatchingChoice.PurposeInNumbers | backend/app/services/matching_service.py:190-197 | A stranger who just queued under another topic scores 100 as the opposite of venting and listening, 80 as casual for casual, 25 for another equal purpose, else 0 |
| MatchingChoice.RematchInNumbers | backend/app/services/matching_service.py:202-206 | A match less than 600 seconds ago is a veto of -10000, one less than 86400 seconds ago costs 45, an older one nothing |
| MatchingChoice.ExtremesExactly | backend/app/services/matching_service.py:188-206 | 175 is scored exactly by an opposite purpose with the same topic after two minutes and without a match within a day; -45 exactly without any common ground and wait but with such a match |
| MatchingHistory.UnmatchedJoinMissesNobody | backend/app/services/matching_service.py:138-169 | After a join that found nobody, everyone else still waiting is excluded from the caller or was matched with the caller before |
| MatchingHistory.StepNoMissedMatch | backend/app/services/matching_service.py:108-239 | Each call keeps: two distinct waiting users are excluded from each other or already have a recent-match row |
| MatchingHistory.PairingRecent | backend/app/services/matching_service.py:271-279 | A new match keeps conservation: the pair's match count is the number of match rooms ever made for it, and the recorded time is that of the latest one |
| MatchingHistory.PairingSpaced | backend/app/services/matching_service.py:188-279 | A new match keeps the spacing of history: rooms of one pair start at least ten minutes apart, and within a day only with common ground between the recorded participants |
| MatchingHistory.StepRecord | backend/app/services/matching_service.py:244-279 | Only a join that finds a peer adds a room, match or recent row to the record; every other call leaves the record of matches as it is and loses no block or exclusion |
| MatchingHistory.ExcludedNeverMatched | backend/app/services/matching_service.py:172-185 | Over any history after an exclusion or block in either direction, no match room is created for the pair |
| MatchingHistory.NeverAgain | backend/app/services/matching_service.py:342-366 | After a room is ended with NO_REMATCH or BLOCK its two users are never matched again, whatever follows |
| MatchingHistory.ExitStrandsBoth | backend/app/api/chat.py:124-128 | The generic exit from a match room leaves both members ACTIVE in a destroyed room |
| MatchingHistory.StepStranded | backend/app/services/matching_service.py:144-145 | No call other than the user's own status query changes a stranded user's row |
| MatchingHistory.StrandedUntilStatus | backend/app/services/matching_service.py:95-105 | Over any history without the user's own status query a stranded user stays stranded |
| MatchingHistory.StatusFrees | backend/app/services/matching_service.py:95-105 | The status query frees the user, whose next join queues or seats in a live room |
| MatchingHistory.StepRoom | backend/app/services/chat_service.py:472-505 | One call keeps a room's users, kind and times; a dead room does not change; a friend room stays active |
| MatchingHistory.RoomsOneWay | backend/app/services/chat_service.py:472-505 | Over any history no room is deleted or revived, and friend rooms never leave ACTIVE |
| MatchingOutcomes.JoinOutcome | backend/app/services/matching_service.py:138-169 | Unless already seated, the caller ends up waiting in the queue or seated in a live room with a heartbeat of now; a wait that was going on keeps its request and queue time, a new one takes the arguments |
| MatchingOutcomes.MatchOutcome | backend/app/services/matching_service.py:209-288 | The peer of a match was a fresh, non-excluded waiter; both sit in a new live room that records for each of them, caller and peer, the request stored in the row, which for a wait that was going on is the one it began with; nobody but stale waiters is otherwise affected |
| MatchingOutcomes.PairingRecords | backend/app/services/matching_service.py:244-270 | A match makes one room of exactly two hours, lower id first, and one open match with both users joined now and not gone; no other room or match changes |
| MatchingOutcomes.ReplyOutcome | backend/app/services/matching_service.py:80-169 | The reply to a join tells the caller's status; a room in it is live and the caller sits in it, and none is told exactly while waiting or stranded in a dead room |
| MatchingOutcomes.StatusOutcome | backend/app/services/matching_service.py:80-105 | A status query answers with the row as the cleanup left it and with a room exactly if the user sits in a live one; of the caller's row only a dead room is then forgotten, and nobody else is touched |
| MatchingOutcomes.EchoExactly | backend/app/services/matching_service.py:144-169 | The reply to a join tells the purpose and topic stored after it if and only if it is not the case that a going wait under another request ends in a match; its queue time is always the stored one |
| MatchingOutcomes.HeartbeatOutcome | backend/app/services/matching_service.py:291-298 | A heartbeat protects its sender from every cleanup in the next minute and changes neither the request nor anyone else |
| MatchingOutcomes.SilenceEndsTheWait | backend/app/services/matching_service.py:108-128 | A wait survives a cleanup exactly if its last heartbeat is at most a minute old, in the rows and in the queue |
| MatchingOutcomes.LeaveOutcome | backend/app/services/matching_service.py:301-323 | After a cancel or disconnect the caller does not wait, in row or queue; a matched user stays matched; nobody else is affected |
| MatchingOutcomes.EndOutcome | backend/app/services/matching_service.py:326-418 | Ending a room frees exactly its two users, closes its match for both at one time, and excludes or blocks them exactly as asked |
| MatchingOutcomes.EndRecords | backend/app/services/matching_service.py:342-388 | Ending dates this room and match as ended now and by this action, adds exactly the block or exclusion asked for, and leaves every other room and match as it is |
| MatchingOutcomes.EndErrorExactly | backend/app/services/matching_service.py:330-341 | Ending fails with "not found" exactly for strangers and unknown rooms, else with "ended" exactly for dead rooms, else with "no match room" exactly for other kinds |
| MatchingOutcomes.BlockRoomOutcome | backend/app/services/matching_service.py:421-450 | Blocking from an anonymous room of either kind blocks its two users and leaves the room dead |
| MatchingOutcomes.BlockRoomRecords | backend/app/services/matching_service.py:421-437 | A block goes through from exactly the admitted anonymous rooms; it is an end with BLOCK in a match room, and in a letter room the block and the death of the room and nothing else |
| MatchingOutcomes.PlaceBlockOutcome | backend/app/api/users.py:172-175 | A block placed outside a room counts in both directions, bars both from their rooms and from being matched, and changes nothing else |
| MatchingOutcomes.TimeoutOutcome | backend/app/workers/cleanup_worker.py:33-68 | After the worker no room is overdue; exactly the overdue ones expired and exactly the users of overdue match rooms were freed; the queue is as it was |
| MatchingOutcomes.TimeoutRecords | backend/app/workers/cleanup_worker.py:33-55 | A room past its lifetime is dated as expired now, its match as timed out now with both users gone now; any other room and match is left as it is |
| MatchingOutcomes.ExitOutcome | backend/app/api/chat.py:124-128 | The generic exit goes through from exactly the admitted anonymous rooms, then kills the room, dated now, and changes nothing else at all |
| MatchingOutcomes.OpenRoomLives | backend/app/services/chat_service.py:109-125 | A letter room admits its two users for exactly its lifetime, a friends' room for as long as they are friends; both get the same answer and other rooms are untouched |
| MatchingOutcomes.StrandsExactly | backend/app/api/chat.py:124-128 | A call strands a user, ACTIVE in a dead room, if and only if it is a generic exit, gone through, from a match room of that user |
| MatchingOutcomes.NobodyStranded | backend/app/api/chat.py:124-128 | In every run without such an exit nobody is ever stranded |
| MatchingOutcomes.ActiveRoomOutcome | backend/app/services/chat_service.py:182-213 | A user is admitted to a room exactly as a member, while it is live, not blocked, and a friend there or within a lifetime that outlasts the room worker; each failure is told exactly in its case; in a match room both users then sit there; both members get the same answer |
| MatchingService.Service.CleanupStaleWaiters | backend/app/services/matching_service.py:108-128 | The loop resets exactly the waiters whose heartbeat is older than the cutoff, removes exactly them from the queue, and counts them |
| MatchingService.Service.MatchingStatus | backend/app/services/matching_service.py:80-105 | The status query takes its model step, heals a dead room, keeps the invariant, and answers with the status from before the healing |
| MatchingService.Service.PickPeer | backend/app/services/matching_service.py:209-240 | The candidate loop over the tables computes the choice that the best-candidate lemma describes |
| MatchingService.Service.SeatPair | backend/app/services/matching_service.py:244-283 | The writes of a match produce one room, one match with both participants, both users seated and dequeued, and the pair's recent row counted up |
| MatchingService.Service.TryMatchUser | backend/app/services/matching_service.py:209-288 | A room is made for the caller and the chosen peer exactly when a peer is chosen, else nothing changes |
| MatchingService.Service.JoinMatching | backend/app/services/matching_service.py:131-169 | Join keeps the invariant and takes its model step: a seated user is left alone, a waiting user keeps purpose, topic and queue time, and the reply is the documented one |
| MatchingService.Service.Heartbeat | backend/app/services/matching_service.py:291-298 | A heartbeat keeps the invariant and changes nothing but a waiting caller's heartbeat and queue score |
| MatchingService.Service.CancelMatching | backend/app/services/matching_service.py:301-311 | Cancel keeps the invariant; it fails exactly for an ACTIVE user and otherwise leaves the caller idle and out of the queue |
| MatchingService.Service.DisconnectWaiter | backend/app/services/matching_service.py:314-323 | A disconnect keeps the invariant and affects only a waiting user |
| MatchingService.Service.CloseMatch | backend/app/services/matching_service.py:369-388 | Ending a match stamps the match and every participant with the one end time |
| MatchingService.Service.ReleaseMembers | backend/app/services/matching_service.py:389-407 | Exactly the users sitting in the room become idle and leave the queue |
| MatchingService.Service.EndMatchRoom | backend/app/services/matching_service.py:326-418 | Ending a room keeps the invariant, records the block or exclusion asked for, and fails exactly for an unknown or foreign room, a dead room or a room of another kind, in that order |
| MatchingService.Service.ExitRoom | backend/app/api/chat.py:124-139 | The generic exit keeps the invariant and destroys the room without touching match rows or states |
| MatchingService.Service.BlockAnonymousRoom | backend/app/services/matching_service.py:421-450 | Blocking from a room ends it, records the block, keeps the invariant, and refuses friend rooms |
| MatchingService.Service.CleanupRooms | backend/app/workers/cleanup_worker.py:33-68 | The worker's loop, in any order, expires exactly the overdue rooms, times out their matches, frees their users, keeps the invariant and counts the rooms |
| MatchingService.TimeoutStep | backend/app/workers/cleanup_worker.py:36-68 | Expiring one more overdue room takes the loop from one partial result to the next, so the order of rooms does not matter |
| RateLimit.ServeSound | backend/app/core/rate_limit.py:9-18 | Each call keeps: windows of a key overlap only across a deletion, no window admits more than the limit, and of these at most limit - 1 after the call that opened it |
| RateLimit.DropSound | backend/app/workers/dormant_user_worker.py:31 | A deletion of any counters keeps that too: it parts the admissions before it from the windows after it |
| RateLimit.TraceSound | backend/app/core/rate_limit.py:9-26 | That holds along every trace of calls and deletions in time order with limits up to L |
| RateLimit.IntervalBound | backend/app/core/rate_limit.py:9-26 | In a sound state an interval of the window's length that saw k deletions of a key's counter saw at most (k + 2) L - 1 admissions of the key, none if L is 0 |
| RateLimit.TraceBound | backend/app/core/rate_limit.py:9-26 | Over every trace of calls and deletions, in any interval of the window's length, the same bound: 2L - 1 without a deletion in it |
| RateLimit.OverrunNeedsAWindow | backend/app/core/rate_limit.py:9-26 | More than L admissions in such an interval mean that a window opened in it after an earlier window had admitted a call in it |
| RateLimit.BoundIsReached | backend/app/core/rate_limit.py:9-26 | For every limit, window and k there is a trace with k deletions and (k + 2) L - 1 admissions in one interval, so the bound is sharp |
| RateLimit.ReachingTraceIsOrdered | backend/app/core/rate_limit.py:9-26 | That trace is one of those the bound speaks of |
| RateLimit.BurstAdmitted | backend/app/core/rate_limit.py:16-18 | A burst that fits into the live window is admitted whole |
| RateLimit.Limiter.IncrWithExpire | backend/app/core/rate_limit.py:9-13 | Incrementing and setting the expiry only on the first increment gives the counter of the current window, and touches no other key |
| RateLimit.Limiter.CheckRateLimit | backend/app/core/rate_limit.py:16-18 | The call is allowed exactly when the counted-up value is within the limit; a refused call is counted too |
| RateLimit.Limiter.EnforceRateLimit | backend/app/core/rate_limit.py:21-26 | With the switch off everything is allowed and nothing is counted |
| RateLimit.Limiter.Delete | backend/app/workers/dormant_user_worker.py:31 | A deletion forgets the key's window, so that the next call opens a new one, and touches no other key |
| LetterInvariant.LetterStepKeeps | backend/app/services/salvage_service.py:34-170 | Each call keeps: every AVAILABLE letter is in all pools of its emotion and city, pools name only letters carrying that emotion and city, every SEALED letter is queued with its release time as score, destroyed means emptied, and a salvager is never the author |
| LetterInvariant.LetterRunKeeps | backend/app/services/salvage_service.py:34-170 | The letter, queue and pool agreement holds along every run |
| LetterInvariant.RemovalIsComplete | backend/app/services/salvage_service.py:65-68 | Removing a letter by its own keys leaves it in no pool and touches no other letter |
| LetterInvariant.PoolsSelectByContent | backend/app/services/salvage_service.py:34-62 | An available letter is in the pool of an emotion, a city or both exactly when these are its own, and always in the pool of all letters |
| LetterInvariant.RebuildIsExact | backend/app/services/salvage_service.py:71-84 | From any pools whatever a rebuild leaves exactly the AVAILABLE letters under exactly their keys |
| LetterInvariant.SalvageVisitsTheIndex | backend/app/services/salvage_service.py:34-54 | A salvage visits exactly the pools that a letter of that emotion and city is indexed in, all letters last |
| LetterInvariant.ReconcileRestoresExactly | backend/app/services/salvage_service.py:87-94 | Reconciliation completes the index if and only if no letter is in the pool of all letters but missing elsewhere; the pool of all letters is always completed |
| LetterInvariant.CrashThenReconcile | backend/app/workers/release_letter_worker.py:43-48 | After a crash between commit and index writes, reconciliation repairs the index if and only if none or all of the writes were done |
| LetterInvariant.LetterStepLater | backend/app/services/salvage_service.py:137-142 | One call moves a letter forward only, keeps author, pools' names and release time, and never changes a salvager or a destroyed letter |
| LetterInvariant.LetterOneWay | backend/app/services/salvage_service.py:137-142 | Over any run status rank never falls, a letter has at most one salvager for ever, and DESTROYED is final |
| LetterFlow.PassProgress | backend/app/workers/release_letter_worker.py:17-54 | A pass with limit n takes exactly min(n, due) due entries out of the queue, namely its batch |
| LetterFlow.PassesDrain | backend/app/workers/release_letter_worker.py:63-80 | Enough passes leave nothing due, and then no sealed letter is past its release time |
| LetterFlow.NeverReleasedEarly | backend/app/workers/release_letter_worker.py:36-43 | A pass changes a letter only from SEALED to AVAILABLE and only at or after its release time |
| LetterFlow.CreateOutcome | backend/app/services/letter_service.py:23-72 | A draft that is well-formed, not refused and within the limit of the running day becomes one letter, never open to salvage at once: under review outside the queue, or queued for release after exactly the requested delay; the author's emotion and city follow it and fill a missing city; any other draft leaves letters and profile alone; every well-formed draft counts against the daily limit |
| LetterFlow.ClosedUntilRelease | backend/app/workers/release_letter_worker.py:36-43 | In every run that ends before a letter's release time and in which no admin approves it for release at once, the letter stays closed |
| LetterFlow.DelayIsKept | backend/app/services/letter_service.py:39-47 | So a new letter stays closed until the whole delay its author asked for has passed, unless an admin approves it for release at once |
| LetterFlow.OpensOnTime | backend/app/workers/release_letter_worker.py:17-49 | The first pass large enough at or after the release time opens the letter and puts it into all its pools |
| LetterFlow.LifeOfASalvage | backend/app/workers/cleanup_worker.py:70-77 | A salvaged letter is destroyed by a pass exactly from 86400 seconds after its salvage on |
| LetterFlow.ReviewOutcome | backend/app/services/admin_service.py:163-189 | Approval opens a letter to salvage under all its keys or queues it for its release; rejection empties it and it is in no pool; neither touches another letter |
| LetterFlow.ModerationOutcome | backend/app/api/admin.py:471-476 | Removal after a complaint empties a letter and leaves all its pool entries; nobody can claim it, and the first draw of it clears every entry |
| LetterFlow.ExpireOutcome | backend/app/workers/cleanup_worker.py:70-77 | After the worker no salvaged letter is past its time; exactly those that were are empty and in no pool |
| LetterFlow.SalvageEffect | backend/app/services/salvage_service.py:102-170 | A salvage with quota left and both identities drawn moves exactly one letter to SALVAGED, with its content, and clears it from every pool; otherwise no letter changes; the counter grows by one either way; only dead ids and the salvaged one leave pools |
| LetterFlow.ScrubAllEffect | backend/app/services/salvage_service.py:125-129 | Draws of dead letters change nothing but remove pool entries of those letters |
| LetterQuota.ClaimLedger | backend/app/services/salvage_service.py:137-156 | A claim keeps: in any interval a user has no more salvages than admitted quota calls; a call rolled back after the quota has none |
| LetterQuota.CreateLedger | backend/app/services/letter_service.py:23-72 | The same for the letters a user writes, since a draft refused after the count leaves no letter |
| LetterQuota.QuotaRun | backend/app/services/salvage_service.py:102-156 | Both, and the limiter's invariant for both counters, hold along every run, dormancy passes included |
| LetterQuota.DailySalvageBound | backend/app/services/salvage_service.py:143-156 | In every run with daily limits up to L, what a user salvages in any interval of one day is at most (k + 2) L - 1 with k deletions of the user's counter in it |
| LetterQuota.DailyLetterBound | backend/app/services/letter_service.py:23-25 | The same for the letters a user writes |
| LetterQuota.SleepDeletesExactly | backend/app/workers/dormant_user_worker.py:18-34 | A call deletes a user's counters if and only if it is a dormancy pass that finds the user active and not logged in for a week |
| LetterQuota.SleepOutcome | backend/app/workers/dormant_user_worker.py:18-34 | A pass puts to sleep exactly the active users who joined over 604800 seconds ago and did not log in since, and touches no other account and no letter |
| LetterQuota.LoginProtects | backend/app/workers/dormant_user_worker.py:19-31 | In every run within a week after a login no counter of the user is deleted |
| LetterQuota.BoundAfterLogin | backend/app/workers/dormant_user_worker.py:19-31 | So within a week after a login at most 2L - 1 letters are salvaged, and written, in any interval of one day |
| LetterQuota.RelapseDoublesTheLimit | backend/app/workers/dormant_user_worker.py:29-31 | For every limit: a lapsed user with enough letters on offer spends the limit, is put to sleep, spends it again, and has salvaged two times the limit in one day |
| LetterQuota.SleepBreaksTheBound | backend/app/workers/dormant_user_worker.py:29-31 | A concrete history from an empty database that exceeds 2L - 1 |
| LetterService.Service.AddToAvailablePools | backend/app/services/salvage_service.py:57-62 | The loop adds exactly the letter's pool entries, and none for a letter that is not AVAILABLE |
| LetterService.Service.RemoveFromAvailablePools | backend/app/services/salvage_service.py:65-68 | The loop removes exactly the letter's own pool entries |
| LetterService.Service.RebuildPools | backend/app/services/salvage_service.py:71-84 | The rebuild loop gives exact pools, counts the AVAILABLE letters and keeps the invariant |
| LetterService.Service.ReconcilePools | backend/app/services/salvage_service.py:87-94 | The reconciliation loop adds exactly the missing letters, counts them and keeps the invariant |
| LetterService.Service.CreateLetter | backend/app/services/letter_service.py:23-72 | The call takes its model step and keeps the invariant; it answers a new letter exactly for a well-formed draft within the daily limit whose content is not refused |
| LetterService.Service.ApproveLetter | backend/app/services/admin_service.py:163-178 | Approval succeeds exactly for a letter under review and releases it at once, or queues it, keeping the invariant |
| LetterService.Service.RejectLetter | backend/app/services/admin_service.py:181-189 | Rejection succeeds exactly for a letter under review, which is destroyed and emptied |
| LetterService.Service.RemoveContent | backend/app/api/admin.py:471-476 | Removal after a complaint empties the letter and keeps the invariant although pools and queue are not told |
| LetterService.Service.ExpireLetters | backend/app/workers/cleanup_worker.py:70-77 | The loop destroys exactly the salvaged letters past their time, removes them from their pools and counts them |
| LetterService.Service.DueBatch | backend/app/workers/release_letter_worker.py:19-20 | The query answers min(limit, due) distinct due ids, lowest scores first, none left out that scores lower |
| LetterService.Service.ReleaseLetter | backend/app/workers/release_letter_worker.py:26-49 | One queued id is dropped if its letter is gone or not sealed, released if due, and left alone otherwise |
| LetterService.Service.ProcessDueLetters | backend/app/workers/release_letter_worker.py:17-54 | A pass keeps the invariant, works through a batch that Redis may answer, and returns the number of letters that became AVAILABLE |
| LetterService.Service.SalvageLetter | backend/app/services/salvage_service.py:102-170 | Whatever is drawn: pools are visited in order, each left only after twenty draws or when empty, and a good letter drawn is taken at once; if the pool of all letters holds just one letter, and a good one, it is the one claimed; "nothing" leaves letters and quota untouched; a claimed letter was AVAILABLE, of another and unblocked author, and is won exactly when quota was left and both identities could be drawn |
| LetterService.Service.DrawCandidate | backend/app/services/salvage_service.py:112-133 | Up to twenty draws from one pool: a drawn letter is in the pool, a dead one is scrubbed and not drawn again, a good one ends the draws |
| SalvageOrder.SurePoolWins | backend/app/services/salvage_service.py:108-133 | If any pool asked for holds a good letter, fewer than twenty dead ones and no other available one, a letter is found, there or in a pool asked before |
| SalvageOrder.FirstGoodPool | backend/app/services/salvage_service.py:108-133 | And it comes from the first such pool, if no pool before holds a good letter |
| SalvageOrder.TheOnlyLetter | backend/app/services/salvage_service.py:45-54 | If the pool of all letters holds just one letter, and a good one, that letter is found, whatever emotion and city were asked for |
| SalvageOrder.PoolsInOrder | backend/app/services/salvage_service.py:45-54 | The pools asked for are, in this order, those of emotion and city together, of the emotion, of the city, and of all letters, leaving out what was not asked for |
| SalvageOrder.BothAreMet | backend/app/services/salvage_service.py:45-54 | A user whose pool of emotion and city together is such a pool gets a letter of that emotion and city |
| SalvageOrder.EmotionIsMet | backend/app/services/salvage_service.py:45-54 | A user whose pool of the emotion is gets a letter of that emotion |
| SalvageOrder.CityIsMet | backend/app/services/salvage_service.py:45-54 | A user whose pool of the city is gets a letter of that city or of the emotion asked for |
| LetterService.Service.SleepUsers | backend/app/workers/dormant_user_worker.py:18-34 | The worker's loop puts exactly the lapsed users to sleep, deletes exactly their counters, counts them and keeps the invariant |
| IdentityProofs.IdentityStepKeeps | backend/app/services/anonymous_identity_service.py:24-204 | Each call keeps: identities belong to the two users of their scope and come in pairs, their looks differ, anonymous rooms have theirs, and both are revealed at one time, exactly when both consented |
| IdentityProofs.ReachableIdentities | backend/app/services/anonymous_identity_service.py:24-204 | In every reachable world that holds, and no scope has more than two identities |
| IdentityProofs.AtMostTwo | backend/app/services/anonymous_identity_service.py:30-96 | A scope has at most two identities, for letters because a letter is salvaged once |
| LetterIdentities.StepMatches | backend/app/services/salvage_service.py:137-156 | Every call of the letter machine is, on authors and salvagers, a run of the identity machine: a new letter, a salvage with its identities, or nothing |
| LetterIdentities.RunMatches | backend/app/services/salvage_service.py:137-156 | The two machines agree on authors and salvagers along every letter history |
| LetterIdentities.LetterScopeUsers | backend/app/services/anonymous_identity_service.py:82-87 | Over every letter history whoever has an identity under a letter is its author or its one salvager, and there are at most two |
| IdentityProofs.OtherIsThePeer | backend/app/services/anonymous_identity_service.py:188-189 | Any identity of the room's scope that is not the caller's is the room peer's |
| IdentityProofs.RoomIdentities | backend/app/services/anonymous_identity_service.py:90-96 | Both members of an anonymous room have an identity in its scope |
| IdentityProofs.ViewsMirror | backend/app/services/anonymous_identity_service.py:123-151 | The two members' payloads mirror each other: each always sees the own look and, before the reveal, the other's; a user id appears exactly when both consented; waiting on one side is invited on the other |
| IdentityProofs.PayloadOutcome | backend/app/services/anonymous_identity_service.py:123-151 | The payload of an anonymous room, whole, from the two identities of its letter or of the room: before the reveal the peer's look and who consented, after it the peer's user id and no look of the peer |
| IdentityProofs.FriendPayload | backend/app/services/anonymous_identity_service.py:106-121 | A friends' room shows the peer's user id and needs no card |
| IdentityProofs.SalvageOutcome | backend/app/services/salvage_service.py:137-156 | A salvage goes through exactly for an unsalvaged letter of another author with draws enough; then author and salvager get two fresh, different looks and nothing else changes |
| IdentityProofs.LetterRoomOutcome | backend/app/services/chat_service.py:85-130 | A reply opens a room exactly for the salvager of a letter without one, between author and salvager, who keep the looks of the letter |
| IdentityProofs.OtherRoomsOutcome | backend/app/services/matching_service.py:244-266 | A match room opens with two fresh, different looks or not at all, a friends' room without looks |
| IdentityProofs.EnsureBothKeeps | backend/app/services/anonymous_identity_service.py:82-96 | Drawing the two identities of a scope keeps them paired and distinct and changes none that exists |
| IdentityProofs.ConsentIsReveal | backend/app/services/anonymous_identity_service.py:161-200 | In a sound world a consent needs no draw and cannot fail: it records the consent and reveals both rows once both consented |
| IdentityProofs.ConsentsMeet | backend/app/services/anonymous_identity_service.py:154-204 | A first consent reveals nothing and invites the peer; when the peer consents too, at any later time, each sees the other's user id |
| IdentityProofs.StepIdentity | backend/app/services/anonymous_identity_service.py:30-41 | One call keeps an identity's look, its consent and its reveal |
| IdentityProofs.RunIdentities | backend/app/services/anonymous_identity_service.py:30-204 | Over any run identities are stable, consent is never taken back and a reveal is never undone |
| IdentityModel.FirstUnused | backend/app/services/anonymous_identity_service.py:55-67 | The retry picks a drawn look nobody in the scope wears, and fails only if all draws are worn |
| IdentityService.Service.EnsureIdentity | backend/app/services/anonymous_identity_service.py:30-79 | The retry loop creates the missing identity with the first unused look, or changes nothing and raises |
| IdentityService.Service.EnsureRoomIdentities | backend/app/services/anonymous_identity_service.py:90-96 | Both identities are ensured or neither |
| IdentityService.Service.SalvageIdentities | backend/app/services/salvage_service.py:137-156 | The salvage and both identities commit together or not at all, keeping the invariant |
| IdentityService.Service.RoomIdentityPayload | backend/app/services/anonymous_identity_service.py:99-151 | Viewing a room creates nothing and answers the mirrored view, or refuses a stranger |
| IdentityService.Service.RecordConsent | backend/app/services/anonymous_identity_service.py:192-200 | The caller's consent is recorded once and both rows are revealed together when both consented |
| IdentityService.Service.FindPeer | backend/app/services/anonymous_identity_service.py:161-191 | In whatever order rows are listed, the row that is not the caller's is the room peer's |
| IdentityService.Service.ConsentCardExchange | backend/app/services/anonymous_identity_service.py:154-204 | A consent keeps the invariant, is refused exactly for friend rooms and strangers, and reports whether it is new |
| MessageProofs.ChatStepKeeps | backend/app/services/chat_service.py:375-434 | Under any interleaving of requests and sockets each step keeps: one row per room, sender and client id; every answered call points at the row of its id; rows and creating calls correspond one to one; a text is missing exactly if a moderator removed it or its room ended after it was inserted; a session's copy of an ended room was read before the end |
| MessageProofs.ChatRunKeeps | backend/app/services/chat_service.py:375-434 | That holds along every interleaved run |
| MessageProofs.ReachableChat | backend/app/services/chat_service.py:375-434 | From an empty table there are always as many rows as calls told that they created one |
| MessageProofs.SameIdSameMessage | backend/app/services/chat_service.py:416-434 | Two answered calls with one client id got the same message, and at most one of them created it |
| MessageProofs.RetriesFindTheRow | backend/app/services/chat_service.py:375-384 | Once an id has a row every later save with it, however interleaved, answers that row and creates nothing |
| MessageProofs.SaveOutcome | backend/app/services/chat_service.py:375-434 | An uninterrupted save in a live room is answered; it adds exactly one row with its text if the id had none, and changes no message otherwise |
| MessageProofs.EnterExactly | backend/app/services/chat_service.py:193-213 | A request enters exactly a room that is neither ended nor lapsed nor blocked, with a text |
| MessageProofs.ConnectExactly | backend/app/main.py:176-184 | A socket opens into the same rooms only, with a copy of the row read at that step |
| MessageProofs.SendExactly | backend/app/main.py:199-221 | A message over a free socket is let in on the session's copy, or on a fresh read that becomes the copy; lifetime and blocks always count |
| MessageProofs.DuplicateForgets | backend/app/services/chat_service.py:416-431 | A duplicate over a socket costs the session its copy of the room, or the socket itself |
| MessageProofs.RoomEvents | backend/app/services/chat_service.py:486-499 | The end of a room empties the messages of that room only, a moderator that message only |
| MessageWipes.EndWipes | backend/app/services/chat_service.py:486-499 | Ending a room empties everything in it at that moment |
| MessageWipes.QuietEndStaysWiped | backend/app/services/chat_service.py:486-499 | A wiped room in which no save without a row is in flight and no socket can still send stays wiped, and stays so guarded, for ever |
| MessageWipes.StaysWipedExactly | backend/app/services/chat_service.py:361-434 | Along every continuation an ended, wiped room stays wiped if and only if every save in flight has a row for its client id or, not yet cleared, a block to meet, and no connected socket still takes the room for live, within its lifetime and without a block |
| MessageWipes.ThreatLands | backend/app/services/chat_service.py:361-434 | Any save in flight into an ended room whose client id has no row, and that has no block still to meet, has a continuation that leaves its text there |
| MessageWipes.BlockStopsTheEntered | backend/app/services/chat_service.py:361-362 | In a room with a block between its users a save that only passed the room check is never stored, whatever happens in between |
| MessageWipes.SenderLands | backend/app/main.py:199-221 | So has any free socket whose session still takes the room for live |
| MessageWipes.SocketOutlivesTheRoom | backend/app/main.py:178-221 | A concrete history: a socket opens, the room ends and is wiped with nothing in flight, and a message sent after that is stored with its text |
| MessageWipes.LateInsertSurvives | backend/app/services/chat_service.py:403-434 | A save that passed its lookup before the room ended puts a text into it exactly when its client id has no row |
| MessageWipes.WipeCanBeOutrun | backend/app/services/chat_service.py:403-434 | A concrete four-step interleaving leaves a text in an ended room |
| MessageService.Service.FindByClientId | backend/app/services/chat_service.py:375-381 | The lookup finds the row of the client id if there is one |
| MessageService.Service.OpenSocket | backend/app/main.py:176-184 | A socket is accepted exactly into a room that is live, within its lifetime and without a block, and its session keeps the row it read |
| MessageService.Service.ReceiveMessage | backend/app/main.py:199-221 | A message over a socket takes its model step and keeps the invariant; it is admitted on the session's copy of the room even after the room ended, unless lifetime or a block stops it |
| MessageService.Service.ClearMessage | backend/app/services/chat_service.py:361-362 | The save checks for a block again before it looks the id up, and turns the call away exactly if there is one; it takes its model step and keeps the invariant |
| MessageService.Service.InsertMessage | backend/app/services/chat_service.py:403-434 | The insert under the unique constraint takes the model's insert step, keeps the invariant and answers what the model records; it fails only after a violation whose expired rows cannot be read again |
| MessageService.Service.WipeRoom | backend/app/services/chat_service.py:486-499 | Ending a room takes the wiping step and keeps the invariant; a room already ended is left alone |
| MessageService.Service.RemoveContent | backend/app/api/admin.py:477-481 | Removing one message after a complaint empties it, keeps its row, and keeps the invariant |
| MessageService.ConsecutiveUnreadCount | backend/app/services/chat_service.py:329-348 | The count is the length of the longest run of newest messages, within twenty, that are unread and from the sender |
| MessageService.UnreadRunGrows | backend/app/services/chat_service.py:329-348 | A new unread message of the sender lengthens the run by one up to the window; any other message ends it |
| SessionModel.AuthStepKeeps | backend/app/services/auth_service.py:71-86 | Each call keeps: no two sessions share a current token, accepted tokens are behind their session's current one, and a session accepts tokens in rising order |
| SessionModel.AuthRunKeeps | backend/app/services/auth_service.py:71-86 | Over every run of atomic calls no refresh token is accepted twice |
| SessionModel.SpentForEver | backend/app/services/auth_service.py:78-85 | A token the server moved on from is refused at every later time |
| SessionModel.RevokedNeverRefreshes | backend/app/services/auth_service.py:328-342 | After a session is revoked it stays revoked and no token of it is accepted again |
| SessionModel.LoginOutcome | backend/app/core/security.py:53-66 | A login opens one session whose token is good for exactly 1209600 seconds, and touches no other session |
| SessionModel.RefreshOutcome | backend/app/services/auth_service.py:71-86 | After a refresh of the current token only the new one is good for the session, for another 1209600 seconds; any other refresh changes nothing |
| SessionModel.RevocationOutcome | backend/app/services/admin_service.py:140-144 | A ban or password change ends exactly the sessions of that user, a logout exactly the named one of its own user; every other token stays as good as it was |
| SessionSplit.SplitStepKeeps | backend/app/services/auth_service.py:71-86 | With check and write as separate steps each step keeps: the accepted tokens are those of the requests that wrote, each once, and no request passes its check for a token after that token was written |
| SessionSplit.TwiceExactly | backend/app/services/auth_service.py:75-86 | Over every run of overlapping requests a token is accepted twice if and only if two requests for it had both passed their check before the first of them wrote |
| SessionSplit.SpentAgainExactly | backend/app/services/auth_service.py:75-86 | Once a token was accepted, some continuation accepts it again if and only if another request that passed its check has not written yet |
| SessionSplit.RevokedRotatesExactly | backend/app/services/auth_service.py:75-86 | A revoked session rotates again along some continuation if and only if a request of it passed its check and has not written |
| SessionSplit.OverlapSpendsTwice | backend/app/core/security.py:67-71 | Two requests pending with one token are both accepted when they write, and the token handed to the first of them is dead at once |
| SessionSplit.TwoRefreshesOverlap | backend/app/services/auth_service.py:75-86 | A concrete history: a login and two overlapping refreshes with its token, both accepted |
| SessionSplit.AtomicIsCheckThenWrite | backend/app/services/auth_service.py:71-86 | A refresh that nobody interrupts is the atomic one |
| SessionModel.AuthService.MakeTokenPair | backend/app/core/security.py:53-76 | A fresh token becomes the current one of a new session or of the given one; other sessions are untouched |
| SessionModel.AuthService.LogIn | backend/app/core/security.py:58-66 | Login keeps the invariant and yields a token the server accepts |
| SessionModel.AuthService.RefreshAccessToken | backend/app/services/auth_service.py:71-86 | A refresh succeeds exactly for the current token of a live session of that user; then the new token is accepted and the old one is not |
| SessionModel.AuthService.RevokeSessions | backend/app/services/admin_service.py:140-144 | The bulk update revokes every session of the user and keeps the invariant |
| RefreshFlight.StepKeeps | mobile/lib/core/api_client.dart:44-125 | Each step of client, network and server keeps the protocol invariant: stored token, token in flight and the server's current token agree |
| RefreshFlight.RunKeeps | mobile/lib/core/api_client.dart:44-125 | The protocol invariant holds along every run |
| RefreshFlight.SingleFlight | mobile/lib/core/api_client.dart:44-125 | In every run, with a server that checks and writes separately and with abandoned requests: no token is accepted or posted twice, no call is sent more than twice, nobody waits without a refresh in flight, and with none in flight the stored token is the server's current one or absent |
| RefreshFlight.LandingResumes | mobile/lib/core/api_client.dart:64-79 | When the answer lands every call that waited goes on with the new token, or fails if there is none; the store holds the answer and no other call moves |
| RefreshFlight.RefreshRecovers | mobile/lib/core/api_client.dart:44-125 | A call denied once, with nobody else refreshing, joins a refresh, is resent with the new token and answered, and the client keeps that token; in a revoked session it fails and the store is empty |
| RefreshFlight.RetriesAreNewer | mobile/lib/core/api_client.dart:58-75 | Over every run a call about to be resent was sent once and carries a token newer than the one it failed with |
| RefreshFlight.LossFailsTheWaiting | mobile/lib/core/api_client.dart:121-124 | A lost request fails every call that waited and clears the store, while the server may still work on it |
| RefreshFlight.SignOutOutcome | mobile/lib/core/api_client.dart:93-98 | After a sign-out nothing is sent, and a refresh ends without a post and with every waiting call failed |
| RefreshFlight.RevokeOutcome | backend/app/services/auth_service.py:78-85 | A revoked session answers no post, and the client ends with an empty store |
| RefreshFlight.StepRevoked | backend/app/services/auth_service.py:71-86 | In a revoked session a step rotates only for a request that had passed its check |
| RefreshFlight.RevokedEnds | backend/app/services/auth_service.py:71-86 | After a revocation at most one more rotation happens, and none if no request had passed its check |
| RefreshFlight.ApiClient.HandleUnauthorized | mobile/lib/core/api_client.dart:58-65 | After its store read a rejected call retries with the stored token exactly if that differs from the one it failed with, else waits for a refresh in flight, keeping the protocol invariant |
| RefreshFlight.ApiClient.RefreshAccessTokenOnce | mobile/lib/core/api_client.dart:81-91 | A refresh is started only if none is in flight |
| RefreshFlight.ApiClient.FinishRefresh | mobile/lib/core/api_client.dart:85-125 | When the refresh completes the store holds its result, every call that waited goes on with that token or fails if there is none, no other call moves, and nothing is in flight |
| SocialProofs.SocialStepKeeps | backend/app/services/social_service.py:97-431 | Each call keeps: one request row per unordered pair, pending only between non-friends, friendships with an accepted row, and no request, friendship or remark across a block |
| SocialProofs.SocialRunKeeps | backend/app/services/social_service.py:97-431 | The relationship invariant holds along every run |
| SocialProofs.BlockExcludes | backend/app/services/block_service.py:60-124 | A block in either direction means no friendship, request or remark between the two; a pair has at most one row; pending and friends exclude each other; friends have a row that is not pending |
| SocialProofs.BlockedForEver | backend/app/services/block_service.py:60-124 | After a block, over any history, the two never again are friends or have a request or remark between them |
| SocialProofs.BlockOutcome | backend/app/services/block_service.py:60-124 | A block adds itself, counts in both directions, and clears friendship, request and remarks of exactly this pair |
| SocialProofs.SendOutcome | backend/app/services/social_service.py:200-269 | A request that goes through is the pair's one row, can be answered by the addressee only, and stops a second request from either side with the matching error |
| SocialProofs.AnswerOutcome | backend/app/services/social_service.py:325-377 | Acceptance makes exactly this pair friends, rejection nobody; either way nothing is pending and a second answer is refused |
| SocialProofs.RemovalUndoesAcceptance | backend/app/services/social_service.py:409-431 | Removing a friend undoes the acceptance, whoever removes, drops both remarks, and lets the pair start again |
| SocialProofs.SendErrorExactly | backend/app/services/social_service.py:200-216 | Each of the six failures of a request is told exactly in its case |
| SocialProofs.RespondErrorExactly | backend/app/services/social_service.py:325-336 | Each failure of an answer is told exactly in its case, and a block is never met, since blocked pairs have no request |
| SocialProofs.RemarkOutcome | backend/app/services/social_service.py:97-121 | A remark is the owner's own: setting or deleting it touches no other remark and nothing else, and nothing at all between strangers |
| SocialProofs.RemoveOutcome | backend/app/services/social_service.py:409-431 | Removing a friend drops this friendship and both remarks on it and nothing else; an admin's removal drops the friendship alone |
| SocialProofs.UserEvents | backend/app/services/social_service.py:205-207 | A banned user can neither be asked nor have a request answered until the ban is lifted |
| SocialProofs.RemarksNeedFriendship | backend/app/api/admin.py:700-707 | A call keeps "a remark implies a friendship" if and only if it is not an admin removal of a friendship that carries a remark |
| SocialService.Service.IsBlockedBetween | backend/app/services/block_service.py:12-31 | The query answers whether either blocked the other |
| SocialService.Service.BlockedUserIds | backend/app/services/block_service.py:34-50 | The listed ids are exactly those for whom the pair query answers yes |
| SocialService.Service.SendFriendRequest | backend/app/services/social_service.py:200-269 | Sending keeps the invariant, reuses the pair's row and fails with the first applicable of six errors |
| SocialService.Service.RespondFriendRequest | backend/app/services/social_service.py:325-377 | Responding keeps the invariant; acceptance makes the two friends; only the addressee of a pending request can answer |
| SocialService.Service.RemoveFriend | backend/app/services/social_service.py:409-431 | Removing a friend keeps the invariant, drops both remarks and fails exactly for non-friends |
| SocialService.Service.SetFriendRemark | backend/app/services/social_service.py:97-121 | A remark is set, replaced or deleted only between friends, keeping the invariant |
| SocialService.Service.CreateGlobalBlock | backend/app/services/block_service.py:60-124 | A block keeps the invariant, removes friendship, requests and remarks of the pair, and is refused only against oneself |

## Left out

Matching:

- Each call reads the clock once. The source reads it several times, so a waiter whose heartbeat passes the cutoff between the cleanup and the candidate query of one join is not covered by the no-missed-match property.
- Calls are atomic. The timeout of the global match lock, a failing Redis, `SKIP LOCKED` and the unlocked read-then-write of the cleanup inside a status query are not modelled.
- The database session that a matching socket keeps between its heartbeats: a heartbeat is one step that reads the state row afresh, and the healing it does not commit is gone after it.
- The preference keys in Redis, which nothing reads, WebSocket sends, and the payload of a room beyond its id.
- The branch for a candidate whose user row is missing: users are never deleted. A missing state row is taken as a new IDLE one.
- Scores are real numbers; floating-point rounding is not modelled.
- A match always gets its two identities here; running out of random draws, which rolls a match back, is modelled in `IdentityModel` only.
- MatchingService.Service.CheckActiveRoom: whether two users are friends is an argument here; friendship itself is the subject of `SocialModel`.
- Reactivating a friend room (`backend/app/services/chat_service.py:149-155`): the invariant shows that a friend room never leaves ACTIVE.

Letters and the limiter:

- LetterService.Service.CreateLetter: risk check and emotion classification are one verdict argument, and a failure of the database after the release queue was written is not modelled.
- LetterQuota.DailySalvageBound: speaks of deployments with rate limits switched on, of a limiter whose INCR and EXPIRE are one step, and of a dormancy pass that is one step.
- Which account states may call at all: any user may write or salvage here, so the bounds hold with or without those checks.
- LetterService.Service.SalvageLetter: does not claim that the outcome "nothing" means no letter was eligible, because the twenty draws per pool may repeat letters the user may not have; `SalvageOrder.SurePoolWins` says when a letter is certain.
- Pool names are values, not formatted strings, and the pools and the queue hold only numeric ids; the branches for raw ids that are not numbers are not modelled. `release_at` is never missing.
- LetterInvariant.CrashThenReconcile: the crash is the one between the commit of a release and its index writes; other partial failures are not modelled.

Identities, rooms and messages:

- Display names, remarks and avatars of revealed users, the branch for a missing peer row, and the error for incomplete identities, which the invariant rules out.
- IdentityModel rooms carry no status or lifetime; those are the subject of `MatchingModel`.
- MessageService.Service.InsertMessage: media ownership, the per-minute limit and the risk check are one step that may refuse the call; its content is an opaque non-empty token, and the length limit on client ids is not modelled. After a violated constraint the source goes on with rows the rollback expired; whether they can be read again is an argument, and the call answers or fails accordingly.
- Offline lists and the delivery of messages to the peer's socket.
- Read marks and history queries.

Sessions and the mobile client:

- Encoding, role, type and signature of tokens, access tokens and their expiry; a token is its session, user and a distinct number.
- SessionModel.AuthRunKeeps: takes the check and the write of a refresh as one step; `SessionSplit` has them apart.
- RefreshFlight follows one session of one client: a login during a refresh is left out, and the two tokens of a pair are saved in one step.

Relationships:

- Notifications, and the constraint violation of two simultaneous requests: calls are atomic.

Elsewhere: HTTP routing and schemas, the admin screens, feed, media, mail, encryption, migrations and the Flutter screens.

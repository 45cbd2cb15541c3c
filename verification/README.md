# Verified model of outrelay-relay

outrelay-relay is the edge relay of an overlay network: agents connect to it, it opens streams
between them under a policy, copies bytes or forwards UDP datagrams for them, and puts streams
back together when an agent comes back through another path. This project models the parts of
the relay whose correctness is hard to see, and proves what they promise.

`dafny verify dfyconfig.toml` checks everything.

| file | what it models |
|---|---|
| `Glob.dfy` | the policy pattern matcher, against the meaning of a pattern |
| `Policy.dfy` | rules, the target index, the hot-swapped engine over an unordered rule set |
| `Cache.dfy`, `Staleness.dfy` | the decision cache, and how stale an answer can be under every interleaving with the watcher |
| `Watcher.dfy` | the policy watch stream, session by session |
| `AllocIds.dfy` | the wrapping allocation-id counter |
| `Plane.dfy` | the UDP forwarding plane: five tables, one class, one joint invariant |
| `PlaneRuns.dfy`, `PlaneIdle.dfy`, `PlaneProvenance.dfy`, `PlaneHandshake.dfy` | whole runs of the plane: invariant, teardown, reverse index, idle sweep, where a binding comes from, and that an earned one is made |
| `Pairing.dfy`, `Resume.dfy`, `ForwardResume.dfy` | the two resume matchers and the handlers around them, as interleaved threads |
| `Splice.dfy` | the two concurrent copy loops |
| `StreamOpen.dfy` | one OPEN_STREAM from policy check to cleanup, and the pair table |
| `Fleet.dfy` | the successor list and the heartbeat |

How it is modelled. What one lock section does is a function on values; the classes update
their fields as the source does and are proved to do exactly that. A concurrent component is a
state machine whose steps are lock sections, channel operations and clock readings; a run is
any sequence of enabled steps, and the main theorems hold at the end of every run. Clock
readings, frames, verdicts, I/O results and map iteration order are parameters or arbitrary
choices. History that a theorem speaks about (who armed a row, which snapshot an answer came
from) is carried beside the state, and no step depends on it.

Where a promised property does not hold of the code, one lemma exhibits the failing case and
another states exactly when the property holds:

| property that fails | failing case | holds exactly when |
|---|---|---|
| a paired STREAM_RESUME handler is sure to wake | `StolenIsReachable`: its expiry thread reads the same one-place channel | `FirstHalfMayOversleepIff`: its timer no longer runs when the pair forms; seen from the end, `FirstHalfWakesIffNotStolen` |
| flushing the decision cache ends stale answers | `StraddlerLeavesStaleEntry` | `FlushEndsStalenessIff`: at the flush no evaluation holds an unexpired entry, a snapshot or a decision older than the current snapshot |
| the reverse source index is complete all through a run | `SharedSourceHappens` | `ReverseIndexExactIffUnshared`: no two live allocations ever share a source in it |
| a bound allocation that is not torn down or moved, whose source gets no further allocation and sends within the idle TTL before every sweep, is never reclaimed | `SharedActiveSourceIsReclaimed`, and even alone on its source `LoneActiveSourceIsReclaimed` | `ActiveMayBeReclaimedIff`: at the start the reverse index leads from the source to it, and no other live allocation is bound to that source |
| a new allocation that is not torn down outlives every sweep within the idle TTL of its issue | `StaleReadingIsReclaimed` | `SweptIffUnseenForIdleTTL`: the last reading that marked it as seen is within the idle TTL of the sweep; `NewAllocationSurvives`: for one, when no reading is older than the issue's |
| a watch session that reaches a SNAPSHOT_END leaves what its events say | `SnapshotRemovalIsLost`, `RepeatedEndDropsRule` | `SessionReadsItsEventsIff`: if the last SNAPSHOT_END is the only one, no id is added, then removed before it and left unmentioned after it; if there were others, no id whose last mention before it is an addition is left unmentioned after it |
| a direction of the splice that fails is not half-closed | `WriterEOFLosesBytes`, `UnabortableHidesFailure` | `CleanCloseIffDelivered`: the destination cannot be half-closed, or it can be reset and the error does not pass for EOF |
| the fleet determines the successor list | `SameIdLeavesAChoice` | `ListDeterminedIffUnambiguous`: no two listed relays of one group share an id but not an endpoint |
| the rule set determines decision and modes | `ListingOrderDecides` | `OrderIndependentIffTierAgrees`: the rules of the winning tier agree on them |
| from a state without a register row for the id, arming and punching commute | the same lemma, at one TTL or more | `HandshakeOrderIrrelevantIff`: they are less than the TTL apart, for one expiry is inclusive and the other exclusive |

Where code and documentation disagree, the model follows the code:

- The comment on rules (pkg/policy/matcher.go:104) says that `*` takes a non-empty run; the matcher lets it take an empty one.
- The header of pkg/forward/plane.go describes registration without a nonce and allocations without expiry; the code has both.
- A stream handed to another relay gets no signal from this relay's handler.

## Model

| member | source | states |
|---|---|---|
| Glob.StarStep | pkg/policy/matcher.go:275-305 | a leading star takes some leading run of the string, possibly empty, in both directions |
| Glob.CharStep | pkg/policy/matcher.go:275-305 | any other leading character takes exactly itself, in both directions |
| Glob.SplitKeepsMeaning | pkg/policy/matcher.go:288-304 | for every pattern and string, filling the stars so that the string results is possible exactly when the pieces between the stars can be placed in order, the first at the start and the last at the end |
| Glob.ScatteredMonotone | pkg/policy/matcher.go:294-301 | pieces that fit into a tail of a string fit into the whole string |
| Glob.LeftmostSuffices | pkg/policy/matcher.go:294-301 | taking a middle piece at its leftmost place neither loses nor invents a match (the exchange argument) |
| Glob.Index | pkg/policy/matcher.go:296-296 | the leftmost occurrence, or a negative result exactly when there is none |
| Glob.StarFreeMatchesOnlyItself | pkg/policy/matcher.go:282-284 | a pattern without stars matches itself and nothing else |
| Glob.LoneStarMatchesAll | pkg/policy/matcher.go:285-287 | the pattern of one star matches every string |
| Glob.MatchPieces | pkg/policy/matcher.go:289-304 | the greedy loop decides whether the pieces can be placed at all |
| Glob.MatchGlob | pkg/policy/matcher.go:278-305 | the matcher returns true exactly when some filling of the stars gives the string, for all patterns and strings |
| Policy.FirstMatchIsFirst | pkg/policy/matcher.go:143-160 | the specification of a scan: the answer applies and nothing before it does, and no answer means no rule applies |
| Policy.MatchFirst | pkg/policy/matcher.go:143-160 | the loop with its three pattern tests and the expiry test returns the first rule that is unexpired and matches by the meaning of its patterns |
| Policy.BuildSnapshot | pkg/policy/matcher.go:165-175 | each bucket is the ordered sublist of rules naming that target, no bucket is empty, and the wildcard list is the ordered sublist of the rest |
| Policy.SnapshotDecide | pkg/policy/matcher.go:127-141 | no snapshot denies with its own reason; otherwise decision, reason and modes all come from one rule, the first that applies in the target's bucket or, if none there does, in the wildcard list; and if none applies at all the answer is deny |
| Policy.BucketSuffices | pkg/policy/matcher.go:127-141 | scanning one bucket equals scanning all plain-target rules |
| Policy.IndexEqualsScan | pkg/policy/matcher.go:127-175 | for every rule list, query and time the index picks what a plain first-match scan of plain-target rules followed by wildcard-target rules picks |
| Policy.AnswerIsInWinningTier | pkg/policy/matcher.go:127-160 | under any listing order the answer is none exactly when no rule applies, and a wildcard-target rule wins only when no plain-target rule applies |
| Policy.FirstListedWins | pkg/policy/matcher.go:240-250 | a rule of the winning tier wins under any listing that puts it first |
| Policy.PossibleAnswers | pkg/policy/matcher.go:240-250 | the answers the engine may give over all listing orders are exactly the rules of the winning tier, or none when nothing applies |
| Policy.PossibleResults | pkg/policy/matcher.go:127-141 | the results the engine may return over all listing orders are exactly those whose fields come from a rule of the winning tier, or deny when nothing applies |
| Policy.AllowNeedsARule | pkg/policy/matcher.go:127-160 | closed world: allow needs an allowing rule of the winning tier; without an applying rule, or with a tier that only denies, the answer is deny |
| Policy.LoneRuleAnswersIff | pkg/policy/matcher.go:143-160 | alone in the set, a rule answers exactly the queries whose caller, target and method its patterns match, until the millisecond of its expiry; an expiry that is not positive never comes and an empty method pattern matches everything |
| Policy.OrderIndependentIffTierAgrees | pkg/policy/matcher.go:127-160 | decision and modes are independent of the listing order if and only if the rules of the winning tier agree on them |
| Policy.ListingOrderDecides | pkg/policy/matcher.go:240-250 | with two catch-all rules that disagree, allow and deny are both possible answers to every query |
| Policy.Engine.constructor | pkg/policy/matcher.go:225-229 | a new engine publishes the index of an empty working set |
| Policy.Engine.Rebuild | pkg/policy/matcher.go:240-250 | whatever order the map is listed in, the published snapshot indexes a listing of the whole working set, each rule once |
| Policy.Engine.Set | pkg/policy/matcher.go:254-263 | the working set becomes the last rule per id of the given list, and is published |
| Policy.Engine.Add | pkg/policy/matcher.go:266-268 | one rule is added or replaced, and the result is published |
| Policy.Engine.Remove | pkg/policy/matcher.go:271-273 | one id is removed, and the result is published |
| Policy.Engine.Decide | pkg/policy/matcher.go:232-234 | every field of the answer comes from one rule of the winning tier of the working set; if no rule applies the answer is deny |
| DecisionCache.KeptLeavesRoom | pkg/policy/cache.go:66-94 | whatever eviction keeps is part of the old table and leaves room for one more entry |
| DecisionCache.Cache.constructor | pkg/policy/cache.go:43-47 | a new cache is empty |
| DecisionCache.Cache.Get | pkg/policy/cache.go:50-64 | a hit is exactly an entry stored under the query that has not expired; a miss leaves no entry for the query and every other entry alone |
| DecisionCache.Cache.DropExpired | pkg/policy/cache.go:66-94 | exactly the unexpired entries stay |
| DecisionCache.Cache.TrimEighth | pkg/policy/cache.go:66-94 | exactly an eighth of the capacity is dropped and nothing else changes |
| DecisionCache.Cache.Evict | pkg/policy/cache.go:66-94 | below capacity nothing is lost; at capacity the expired entries go, and only if that frees nothing an arbitrary eighth too |
| DecisionCache.Cache.Put | pkg/policy/cache.go:66-94 | the entry is stored with its expiry; below capacity nothing else changes; at capacity every entry that stays is an unexpired old one, all of those stay if they leave room, and the table never exceeds its capacity |
| DecisionCache.Cache.Flush | pkg/policy/cache.go:97-101 | nothing stays |
| Staleness.StepKeepsInv | pkg/edge/edge.go:899-923 | every lock section, load, clock reading, swap and flush keeps every cached entry and every evaluation traceable to a snapshot that was current when loaded |
| Staleness.RunKeepsInv | pkg/edge/edge.go:899-923 | the same over every interleaved run |
| Staleness.FreshEntryAnswers | pkg/policy/cache.go:50-64 | uninterrupted, an unexpired entry is the answer and stays |
| Staleness.ExpiredEntryIsDropped | pkg/policy/cache.go:50-64 | uninterrupted, an expired entry is dropped and the query goes on to the engine |
| Staleness.MissIsJudgedNow | pkg/edge/edge.go:899-923 | uninterrupted, a miss is judged by the snapshot current now, and the answer is cached for the TTL |
| Staleness.EveryAnswerIsASnapshotAnswer | pkg/edge/edge.go:899-923 | every answer ever given is what a snapshot that was current at its load answers to that query, stored less than the TTL before the answer; the table stays within capacity |
| Staleness.OldSnapshotsDieOut | pkg/policy/cache.go:50-101 | from the TTL plus the longest load-to-store gap after a swap on, no older snapshot is answered |
| Staleness.StaleAfterFlushNeedsStraddler | pkg/policy/cache.go:97-101 | after a flush, a stale answer of an evaluation not answered before needs an evaluation that held something outdated across that flush: itself, or the one that stored the entry it read |
| Staleness.FlushEndsStalenessIff | pkg/edge/edge.go:899-923 | from any reachable state about to flush, some continuation without a further flush answers an evaluation from an older snapshot if and only if some evaluation then holds an unexpired entry, a snapshot or a decision older than the current snapshot |
| Staleness.EngineAnswersFromItsSnapshots | pkg/edge/edge.go:899-923 | with the policy engine as judge, every field of every answer comes from the first applying rule of a snapshot that was current, or is the deny of a snapshot in which none applies |
| Staleness.StraddlerLeavesStaleEntry | pkg/edge/edge.go:899-923 | a run in which an evaluation that asked only after the flush is answered from the snapshot before it |
| Watching.Watcher.constructor | pkg/policy/client.go:26-32 | a watcher works on the given engine and cache |
| Watching.Watcher.Handle | pkg/policy/client.go:69-97 | one event does to working set and buffer what the fold does, and every published change is followed by a flush |
| Watching.Watcher.RunOnce | pkg/policy/client.go:49-99 | the loop leaves the working set that folding the events gives, publishes an index of it, and flushes the cache whenever it published |
| Watching.Watcher.Run | pkg/policy/client.go:35-47 | reconnecting folds the sessions one after the other |
| Watching.BufferHoldsAdditions | pkg/policy/client.go:69-81 | before SNAPSHOT_END the buffer holds exactly the latest addition per id |
| Watching.SnapshotOnlyRemoves | pkg/policy/client.go:69-89 | before SNAPSHOT_END only removals reach the rules in force |
| Watching.LivePhase | pkg/policy/client.go:69-97 | after SNAPSHOT_END the last event that mentions an id decides it at once |
| Watching.SplitAtLastEnd | pkg/policy/client.go:60-98 | every session that reaches a SNAPSHOT_END splits at its last one |
| Watching.CompleteSessionSays | pkg/policy/client.go:49-99 | id by id, what a session with one SNAPSHOT_END leaves, whatever was in force before |
| Watching.SessionReadsItsEventsIff | pkg/policy/client.go:49-99 | a session with any number of SNAPSHOT_ENDs, at least one, leaves exactly the last-write-wins reading of its own events if and only if its last SNAPSHOT_END loses nothing: as the only one, no id added, then removed, and not mentioned after it; as a repeated one, no id that should be present and is not mentioned after it |
| Watching.OrderlySessionReadsItsEvents | pkg/policy/client.go:49-99 | a stream without removals before SNAPSHOT_END is always read correctly |
| Watching.SnapshotRemovalIsLost | pkg/policy/client.go:82-96 | an addition and its removal inside the snapshot leave the rule in force |
| Watching.RepeatedEndDropsRule | pkg/policy/client.go:90-96 | a repeated SNAPSHOT_END drops a rule that nothing removed |
| Watching.SecondEndForgetsEverything | pkg/policy/client.go:90-96 | after a second SNAPSHOT_END only what follows it counts |
| Watching.UnfinishedSessionKeepsRules | pkg/policy/client.go:49-99 | a session that never reaches SNAPSHOT_END and removes nothing changes nothing |
| Watching.LastCompleteSessionRules | pkg/policy/client.go:35-99 | over any number of sessions the rules in force are those of the last complete one alone |
| AllocIds.KthId | pkg/forward/plane.go:257-269 | the k-th id is ((k-1) mod (2^32-1)) + 1, and never 0 |
| AllocIds.SameIdIffWholeTurns | pkg/forward/plane.go:257-269 | two issues give one id exactly when a whole number of turns lies between them |
| AllocIds.NearIssuesDiffer | pkg/forward/plane.go:257-269 | any 2^32-1 consecutive issues are pairwise distinct |
| AllocIds.Issue | pkg/forward/plane.go:261-269 | alone on the counter, the skip loop ends after at most two rounds, on the next value that is not 0 |
| AllocIds.AddsReturnIdsInOrder | pkg/forward/plane.go:261-269 | however the threads interleave, the k-th add that is not skipped returns the k-th id |
| AllocIds.IssueAmongOthers | pkg/forward/plane.go:261-269 | with any number of adds by other threads between its rounds, the loop hands out the id that its own last add is in line for, and goes round at most twice unless the others take a whole turn in between |
| ForwardPlane.PendingTTL | pkg/forward/plane.go:190-193 | a configured TTL that is positive is in effect, any other stands for five seconds |
| ForwardPlane.InsertKeepsInvIff | pkg/forward/plane.go:257-287 | issuing an id keeps the joint invariant of the tables if and only if the id is free, or is the same agent's and no reverse-index entry names it |
| ForwardPlane.BindKeepsInv | pkg/forward/plane.go:582-592 | moving an allocation to a source keeps the joint invariant, shared sources included |
| ForwardPlane.ArmKeepsInv | pkg/forward/plane.go:186-241 | arming keeps the joint invariant for every id, owner, nonce and time |
| ForwardPlane.PunchKeepsInv | pkg/forward/plane.go:535-604 | a punch keeps the joint invariant, also for an id that was never issued |
| ForwardPlane.PunchNeverFindsOrphan | pkg/forward/plane.go:571-581 | under the invariant a punch that completes finds its allocation live, so the branch for a forgotten allocation is unreachable |
| ForwardPlane.TouchKeepsInv | pkg/forward/plane.go:434-458 | a datagram keeps the joint invariant |
| ForwardPlane.ReleaseKeepsInv | pkg/forward/plane.go:294-361 | releasing any set of ids keeps the joint invariant |
| ForwardPlane.CollectKeepsInv | pkg/forward/plane.go:485-522 | a sweep keeps the joint invariant |
| ForwardPlane.ReleaseTwice | pkg/forward/plane.go:294-361 | releasing in two batches is releasing the union, in all five tables |
| ForwardPlane.UnlinkOne | pkg/forward/plane.go:294-319 | the three local deletions of a teardown equal removing the id from the whole partition |
| ForwardPlane.UnlinkOwner | pkg/forward/plane.go:330-361 | dropping one owner's set equals removing all its ids from the partition |
| ForwardPlane.DropOwnerReleases | pkg/forward/plane.go:330-361 | under the invariant, dropping the owner's set and the live ids in it is releasing exactly what the agent owns, so no id of the set is ever found missing |
| ForwardPlane.Plane.constructor | pkg/forward/plane.go:137-165 | a new plane is empty and valid |
| ForwardPlane.Plane.Take | pkg/forward/plane.go:261-269 | outside the lock: the id is the next in line, so the counter stands at the number of issues made |
| ForwardPlane.Plane.Enter | pkg/forward/plane.go:270-284 | the lock section of an issue inserts the id under its owner and keeps validity if the id is free |
| ForwardPlane.Plane.Allocate | pkg/forward/plane.go:257-287 | the id is the counter's next value that is not 0, one more issue is counted, the entry is inserted under its owner, and the tables stay valid if the id was free |
| ForwardPlane.Plane.Rebind | pkg/forward/plane.go:582-592 | the allocation has the new source, its old source no longer leads to anything, and the new one leads to it |
| ForwardPlane.Plane.ArmPending | pkg/forward/plane.go:186-241 | an unknown id and another owner are told apart and leave the tables alone; otherwise a fresh matching queued punch is bound at once, and else the nonce replaces any earlier one; validity is kept |
| ForwardPlane.Plane.Register | pkg/forward/plane.go:535-604 | a punch is queued, dropped or bound according to the pending row, its expiry and its nonce; validity is kept |
| ForwardPlane.Plane.Datagram | pkg/forward/plane.go:434-458 | the payload goes to the peer's source if it has one, and the sender counts as seen |
| ForwardPlane.Plane.Unlink | pkg/forward/plane.go:294-319 | every trace of one live id is gone from all five tables, and nothing else |
| ForwardPlane.Plane.Forget | pkg/forward/plane.go:294-319 | the same for any id, live or not |
| ForwardPlane.Plane.DropEach | pkg/forward/plane.go:340-351 | the bulk loop removes exactly those of the given ids that are live from four tables and counts them |
| ForwardPlane.Plane.ForgetAgent | pkg/forward/plane.go:330-361 | in any state the owner's set and its live ids go; in a valid one everything the agent owned is released, and the result is how many ids that was |
| ForwardPlane.Plane.EvictIdle | pkg/forward/plane.go:485-505 | exactly the allocations last seen before the cutoff go; in a valid state with every trace of them |
| ForwardPlane.Plane.SweepPending | pkg/forward/plane.go:506-515 | exactly the expired pending rows go |
| ForwardPlane.Plane.SweepQueued | pkg/forward/plane.go:516-521 | exactly the expired queued punches go |
| ForwardPlane.Plane.GcOnce | pkg/forward/plane.go:485-522 | one sweep reclaims exactly the idle allocations and the expired rows, and keeps validity |
| PlaneRuns.RunKeepsInv | pkg/forward/plane.go:186-604 | in every run whose issued ids are free, owner partition, pending rows, queued rows and reverse index agree at every point |
| PlaneRuns.LiveWasInserted | pkg/forward/plane.go:257-287 | a live id was issued earlier in the run |
| PlaneRuns.FirstTurnIdsAreFree | pkg/forward/plane.go:257-287 | ids from the counter's first turn are free when inserted, whatever the order of insertion |
| PlaneRuns.ForgetAgentIsForgettingEach | pkg/forward/plane.go:294-361 | bulk teardown reaches the state that forgetting the agent's ids one by one reaches, in any order |
| PlaneRuns.ForgetAgentSparesOthers | pkg/forward/plane.go:330-361 | other agents' allocations, pending rows and queued punches are unchanged |
| PlaneRuns.HandshakeOrderIrrelevantIff | pkg/forward/plane.go:205-234 | arm then punch and punch then arm at the same two times end in the same tables if and only if they are less than the TTL apart |
| PlaneRuns.ReverseIndexExactIffUnshared | pkg/forward/plane.go:582-592 | all through a run the reverse index is the exact inverse of the bound sources if and only if no two live allocations ever share a source |
| PlaneRuns.SharedSourceHappens | pkg/forward/plane.go:582-592 | a legal run after which two live allocations share a source and the reverse index finds only one of them |
| PlaneIdle.SweepIsExact | pkg/forward/plane.go:485-522 | id by id, a sweep keeps what was seen within the idle TTL and the unexpired rows of survivors, and nothing more |
| PlaneIdle.SweptIffUnseenForIdleTTL | pkg/forward/plane.go:257-522 | over every run, from its issue on: a sweep takes an allocation that is not torn down if and only if it is more than the idle TTL after the last reading that marked it as seen, by its issue, a binding or a datagram it was found for |
| PlaneIdle.NewAllocationSurvives | pkg/forward/plane.go:271-275 | in every run an allocation is live, under its owner, after every sweep within the idle TTL of its issue, bound or not, if it is not torn down and no reading is older than the issue's |
| PlaneIdle.UnusedAllocationIsReclaimed | pkg/forward/plane.go:485-505 | an allocation that nothing marked as seen since its issue is taken by the first sweep more than the idle TTL after it |
| PlaneIdle.StaleReadingIsReclaimed | pkg/forward/plane.go:535-604 | a clock reading from before the issue can undo that: a reachable point at which a punch that read early has a new allocation reclaimed within the idle TTL of its issue |
| PlaneIdle.NothingSeenInFuture | pkg/forward/plane.go:434-458 | no allocation is ever marked as seen later than now |
| PlaneIdle.ActiveSourceIsNeverReclaimed | pkg/forward/plane.go:434-522 | the safe half at full length: from a lead on, and at every step while no other live allocation is bound to the source, an allocation that is not torn down or moved and whose source sends within the idle TTL before every sweep stays alive, is as recent as the last datagram, and keeps its lead |
| PlaneIdle.SharedActiveSourceIsReclaimed | pkg/forward/plane.go:434-522 | with a shared source, a reachable point at which the source sends and a sweep at that moment still reclaims the allocation |
| PlaneIdle.LoneActiveSourceIsReclaimed | pkg/forward/plane.go:294-319 | the same for an allocation alone on its source, whose former sharer was forgotten and took the reverse-index entry along |
| PlaneIdle.ActiveMayBeReclaimedIff | pkg/forward/plane.go:434-522 | for every legal run that ends with the allocation bound: some continuation that neither tears it down nor moves it, binds nothing further to its source and has the source send within the idle TTL before every sweep reclaims it all the same, if and only if the reverse index does not lead from the source to it or another live allocation is bound to that source |
| PlaneProvenance.RunKeepsHistory | pkg/forward/plane.go:186-604 | every pending row stems from the latest accepted arming of its id, every queued punch from the latest punch, every binding from one of each |
| PlaneProvenance.EveryBindingIsEarned | pkg/forward/plane.go:186-241 | in every run a live allocation with a source was armed by its owner after its issue, with a nonce that a punch from exactly that source carried, within the TTL in either order, and no later arming had retired that nonce |
| PlaneProvenance.EachHalfBindsOnce | pkg/forward/plane.go:535-604 | no arming and no punch accounts for two bindings |
| PlaneHandshake.RowStays | pkg/forward/plane.go:542-570 | the pending row outlasts every step that neither re-arms nor tears down its allocation nor comes late |
| PlaneHandshake.ArmedHandshakeCompletes | pkg/forward/plane.go:535-604 | over every run: after an accepted arming that found nothing to drain, and while the id is neither re-armed nor torn down and nothing late comes, any number of punches with other nonces leave the row in place, and the first punch with its nonce no later than the expiry binds the allocation to its source |
| PlaneHandshake.PunchedHandshakeCompletes | pkg/forward/plane.go:205-228 | over every run: a queued punch that no other punch, arming, teardown or late sweep disturbs is bound by the owner's next arming with its nonce, read before its expiry, even if the id was issued in between |
| PlaneHandshake.StrayPunchChangesNothing | pkg/forward/plane.go:565-570 | before the expiry, a punch with another nonce changes nothing |
| PlaneHandshake.StrayPunchDoesNotCancel | pkg/forward/plane.go:565-592 | an owner's arming, a punch with another nonce from anywhere and the owner's punch, all at once, leave the allocation bound to the owner's source |
| PlaneHandshake.LatePunchClearsRow | pkg/forward/plane.go:558-564 | a punch that finds an expired row takes it away, and that is all it does |
| Pairing.Matcher.constructor | pkg/edge/resume.go:49-53 | nobody is parked at first |
| Pairing.Matcher.Meet | pkg/edge/resume.go:61-76 | Submit's lock section takes out the parked half of that stream, or parks the caller |
| Pairing.Matcher.Expire | pkg/edge/resume.go:86-93 | the timer's lock section removes its own half and no later one of the same stream |
| Pairing.TakenOut | pkg/edge/resume.go:61-76 | taking a stream out of the map frees its half and no other |
| Resume.RunKeepsInv | pkg/edge/resume.go:57-97 | over every interleaving of submits, sends, receives, timers and splices, every half is in one of the states its role allows |
| Resume.NoPanics | pkg/edge/resume.go:57-97 | no interleaving sends on or closes a closed channel, or closes a nil one |
| Resume.PairsAreSplicedOnce | pkg/edge/edge.go:1404-1516 | pairs are disjoint and of one stream, the second arrival alone is the splicer and enters the splice at most once, and the first half's done is closed exactly when that splice has ended |
| Resume.OnlyOwnTimerEvicts | pkg/edge/resume.go:79-96 | a parked half leaves the map only by its own expiry or by being paired with a half of its stream |
| Resume.OneParkedPerStream | pkg/edge/resume.go:57-97 | at most one half of a stream is parked, and it belongs to no pair |
| Resume.SecondHalfAlwaysFinishes | pkg/edge/edge.go:1446-1516 | when a second half and its mate can move no more, the splice has run |
| Resume.SingleHalfExpires | pkg/edge/resume.go:79-96 | when a half that stayed alone can move no more, its handler has learnt that nobody came |
| Resume.FirstHalfWakesIffNotStolen | pkg/edge/resume.go:79-96 | when a pair can move no more, the first half's handler has been released if and only if its expiry thread did not take its value |
| Resume.FirstHalfMayOversleepIff | pkg/edge/resume.go:57-97 | when a pair has just formed, some continuation leaves the first half's handler waiting with nothing left to move if and only if its expiry timer is still running |
| Resume.StolenNeverWakes | pkg/edge/resume.go:79-96 | once the value is taken, no later step wakes the handler |
| Resume.StolenIsReachable | pkg/edge/resume.go:79-96 | a run in which the expiry thread takes the value |
| ForwardResume.RunKeepsInv | pkg/edge/forward_resume.go:83-121 | over every interleaving every half of a FORWARD_RESUME is in one of the states its role allows |
| ForwardResume.HalvesAreConserved | pkg/edge/forward_resume.go:83-121 | per stream, submitted equals parked plus twice the pairs plus expired, and no channel is closed twice or sent on after closing |
| ForwardResume.TimeoutIsToldApart | pkg/edge/forward_resume.go:83-121 | a finished handler reports a timeout exactly when its half expired, stands back exactly as the first of a pair and has driven exactly as the second; a closed channel carries the timed-out flag exactly when the half expired |
| ForwardResume.HandlersFinish | pkg/edge/edge.go:1311-1348 | when a half and its mate can move no more, its handler has timed out if it stayed alone, stood back if it was first, and driven if it was second |
| ForwardResume.DriversShareNoIssue | pkg/edge/edge.go:1350-1399 | over every interleaving no issue of the counter is used by two drivers |
| ForwardResume.DriverGrantsMirrorEachOther | pkg/edge/edge.go:1350-1399 | only the second half of a pair drives; it writes exactly two grants that name each other, from two issues that no other driver made; the two ids differ if and only if no whole number of turns lies between the issues |
| Splicing.CheckWrite | pkg/splice/splice.go:98-98 | the count is the writer's own if it is possible, error or not; the writer's own error wins, an impossible count is an invalid write, a short one without an error a short write |
| Splicing.CopyRound | pkg/splice/splice.go:98-98 | one read and one write advance position, output and count as specified, and the loop goes on exactly when neither failed nor ended |
| Splicing.CopyOne | pkg/splice/splice.go:94-118 | the count is the sum of what the writers reported, failed writes included, and the destination got that prefix of the source; the error is the one the last round ended with unless it passes for EOF; no error otherwise means the whole source; the destination is half-closed or reset accordingly |
| Splicing.JoinResults | pkg/splice/splice.go:76-88 | the counts are added and the first error that arrives is kept |
| Splicing.RunKeepsInv | pkg/splice/splice.go:61-118 | over every interleaving of reads, partial writes and failures both directions keep their invariant |
| Splicing.EachSideReceivesAPrefix | pkg/splice/splice.go:61-118 | at every moment each side has received a prefix of what the other sent |
| Splicing.CleanCloseIffDelivered | pkg/splice/splice.go:98-117 | for every kind of destination: half-closed if and only if it supports that and the whole source was delivered, the ending error passes for EOF, or it cannot be reset; reset if and only if it supports that and an error is returned; no error returned exactly on delivery or an error that passes for EOF |
| Splicing.TotalCountsAcceptedBytes | pkg/splice/splice.go:61-87 | the returned total is what both destinations accepted, and no error means two clean ends |
| Splicing.TotalIsWhatWritersReported | pkg/splice/splice.go:61-93 | at every moment each side holds as much of what the other sent as its writers reported, and the returned total is the sum of those reports, failed writes included |
| Splicing.HonestCleanCloseMeansDelivered | pkg/splice/splice.go:98-117 | when no read or write passes a failure off as EOF, no error means full delivery for every kind of destination, and anything less is a reset wherever the destination supports one |
| Splicing.WriterEOFLosesBytes | pkg/splice/splice.go:98-104 | a writer that reports EOF leaves undelivered bytes behind a clean half-close |
| Splicing.UnabortableHidesFailure | pkg/splice/splice.go:110-117 | a destination that cannot be reset is half-closed after a plain failure |
| StreamOpen.Handler.Signal | pkg/edge/edge.go:753-825 | a write keeps the log at one signal: a reject that mirrors the data stream's, or a ready or grant after accept, recording and both policy sides; callers must not have written before |
| StreamOpen.Handler.RejectConsumer | pkg/edge/edge.go:496-507 | a reject goes to the data stream and, for a stream with an id, to the control stream |
| StreamOpen.OwnIdIsNotOthers | pkg/forward/plane.go:257-287 | within one turn of the counter an id of the handler is nobody else's |
| StreamOpen.OneOther | pkg/forward/plane.go:257-604 | one take, one entry, one handshake half, one datagram, one teardown or one sweep by another thread makes live only ids handed out to other threads, and never turns the issue count back |
| StreamOpen.OthersRun | pkg/forward/plane.go:257-604 | the same for any sequence of such steps |
| StreamOpen.Server.RecordPair | pkg/edge/edge.go:278-289 | refused exactly when the id already belongs to a different pair; otherwise only that row changes |
| StreamOpen.Server.ForgetPair | pkg/edge/edge.go:305-312 | that row is gone and no other |
| StreamOpen.Server.PeerOf | pkg/edge/edge.go:290-338 | routing is symmetric: the answer is the one agent that the stream joins to the asking one, whichever slot each is stored in, and from that agent the stream leads back to the asking one and to nobody else |
| StreamOpen.Server.IssueOne | pkg/edge/edge.go:766-767 | the handler's allocation is an issue of its own, entered under the given agent, with other threads between taking and entering the id |
| StreamOpen.Server.IssueBoth | pkg/edge/edge.go:766-767 | two issues of the handler's own, the consumer's first, each entered under its agent |
| StreamOpen.Server.ReleaseBoth | pkg/edge/edge.go:768-769 | whatever other threads do between the two deferred teardowns and after them, the two ids differ and neither is live, unless the counter went all the way round since the oldest issue in flight |
| StreamOpen.Server.RunForward | pkg/edge/edge.go:758-813 | grants that name each other; and, whatever other threads do at every point up to the end of the handler, two different allocations neither of which is live, unless the counter went all the way round since the oldest issue in flight |
| StreamOpen.Server.Carry | pkg/edge/edge.go:753-832 | after the accept the consumer hears ready, a grant or a reject, according to the relay mode and the provider's control stream, and the provider hears ready or the mirrored grant |
| StreamOpen.Server.WhileRecorded | pkg/edge/edge.go:714-832 | what each provider answer leads to while the pair is recorded, and when the promotion timer starts |
| StreamOpen.Server.NotLocal | pkg/edge/edge.go:634-646 | an unknown provider and every failure to reach another relay end in one reject |
| StreamOpen.Server.Admit | pkg/edge/edge.go:615-696 | which reject keeps a stream from being recorded, and that without one both policy sides allow it |
| StreamOpen.Server.Serve | pkg/edge/edge.go:701-833 | from recording on: 409 exactly when refused, the row and what both agents hear, and cleanup |
| StreamOpen.Server.HandleConsumerStream | pkg/edge/edge.go:568-833 | for every outcome of the external steps and everything other threads do to the plane: at most one signal to the consumer, a ready or grant if and only if the pair was recorded and the provider accepted and could be served; the provider hears ready, or the mirrored grant once the consumer's was written, and otherwise nothing; the row held joins caller and provider; allocations exist exactly when the caller's policy forwards, entered for caller and provider in that order; every exit after recording leaves no pair row and releases them; each of the five reject codes exactly in its case, mirrored on the control stream; the promotion timer exactly when one side requires and neither forbids it |
| Fleet.SortedIsUnique | pkg/registry/fleet.go:39-49 | if only equal elements are ordered both ways, an ordered rearrangement is unique |
| Fleet.BelowIff | pkg/registry/fleet.go:39-47 | ids are ordered as usual: a proper prefix comes first, else the smaller character where they first differ |
| Fleet.SortByIdSorts | pkg/registry/fleet.go:39-49 | there is an ordered rearrangement, and the model's sort is one |
| Fleet.SplitByRegion | pkg/registry/fleet.go:27-38 | the two groups together are exactly the other relays with an endpoint, split by region |
| Fleet.Successors | pkg/registry/fleet.go:27-58 | the list names exactly the other relays with an endpoint, same region first, each group in id order |
| Fleet.RankingMeans | pkg/registry/fleet.go:27-58 | a ranking holds each other relay with an endpoint as often as the fleet does and nothing else, no relay of the region after one of another, ids ascending within either group |
| Fleet.SuccessorsIgnoreFleetOrder | pkg/registry/fleet.go:27-58 | any rearrangement of a fleet with distinct ids gives the same list |
| Fleet.ListDeterminedIffUnambiguous | pkg/registry/fleet.go:27-58 | the advertised list is determined by the fleet if and only if no two relays of one group share an id but not an endpoint |
| Fleet.SameIdLeavesAChoice | pkg/registry/fleet.go:27-58 | two relays of one region with one id and two endpoints can be listed either way |
| Fleet.RelaysOfARegionAgree | pkg/registry/fleet.go:27-58 | two relays of one region give the same order once each leaves the other out |
| Fleet.Heartbeat.constructor | pkg/registry/fleet.go:79-88 | nothing has been published |
| Fleet.Heartbeat.Beat | pkg/registry/fleet.go:114-141 | a failed upsert keeps the previous list; otherwise the new ranking is in force, and subscribers are called exactly when it differs from the last one |

## Left out

- QUIC, TLS, yamux, UDP sockets, ORP framing and protobuf conversion (`FromPB` and the like): frames are datatypes, stream operations are arbitrary results.
- Process wiring, draining, the audit emitter, the registry wrapper, the migration table and the relay connection pool: they would only add easy members.
- Tickers and wall clocks: time is an integer that steps advance, and the plane's two TTLs are fixed during a run.
- Logging and metrics, except the timed-out flag that the code itself reads.
- Concurrent callers of `Engine.Apply`: only the watcher calls it, so there is one writer.
- Pair rows while one stream id has two overlapping splices, and the row that a resume replaces: the source counts no owners.
- Whether the two halves of a resume come from different agents: the matchers do not check it.
- `evaluate` without a cache: it is the engine's answer itself.
- The reader and writer shortcuts of `io.CopyBuffer`: the generic read and write loop is modelled, one step per read and per write.
- Aliasing of table entries: the plane's entries are values in its maps, and a datagram's lookup and its later time stamp are one step.
- Strings are sequences of characters, not of bytes.
- Fleet.Successors: `slices.SortFunc` is represented by one ordered rearrangement; the lemmas beside it cover every other one.
- Splicing.CopyOne: a reset stands for cancelling both directions of the destination.

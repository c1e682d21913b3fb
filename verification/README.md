# Verified model of the port scanner's concurrent core

The repository is a port scanner written in Go. This project models the parts of it whose
correctness is not visible from any one function, and proves what they promise:

- **The SYN probe lifecycle** (`core/port/syn`). Scan calls, the receiver, the sweeper, the retry
  loop, the open-port handler, the fingerprint jobs, `Close` and the callers' cancellations share
  one table of pending probes. `ProbeTable` holds the table twice: as the class
  `WatchIpStatusTable` with the source's fields and methods, and as a value on which each method
  is specified. `SynProtocol` is the state machine of all actors over that value; one step is one
  locked section, channel operation, wait-group operation, packet write or event. Every
  reservation carries an identity (`id`), which the source does not have, because keys are reused.
  `SynOwnership`, `SynBudget` and `SynShutdown` are the invariants, `SynTheorems` what follows for
  every run, `SynStamps` the history of send stamps along a run, `SynOutcomes` the history of what
  took each instance out of the table and the outcome that must go with it, `SynRetries` what the
  retry samples say, `SynDuties` what no actor may leave undone, `SynSampling` the runs that sample
  too little to go wrong, `SynProgress` the proof that `Close` can always come to its end, and
  `SynCounterexample` the runs that show which promises are too strong.
- **The scan plan** (`PortRanges`, `ScanPlan`, `Shuffle`): the port-string parser, the merge with
  the priority list, including the 16-bit loop that does not always end, and the block-local shuffle.
- **The source-port allocator** over whole runs of reservations (`SourcePorts`).
- **The adaptive rate controller** (`Adaptive`).
- **Bounded resources**: the per-host limiter store (`HostLimiter`), the work pool (`WorkPool`) and
  the TCP scanner (`TcpScanner`).
- **Small hard functions**: UTF-8 repair (`Utf8`, against sections 3 and 4 of RFC 3629), keyword
  search (`Keywords`), the fingerprint attempt schedule (`Fingerprint`) and the round-trip
  estimator (`HostPacer`).

Where the code and its own words differ, the code was followed:

- The option's comment says an accepted probe's callback is called once (`core/port/port.go:255-257`).
  In the queue-full branch of `handleProbeTimeout` the result of the drop is ignored, and a probe can
  be reported twice (`SynCounterexample.OneProbeTwoEvents`), or a later one under the same key lost
  for good (`SynCounterexample.OneProbeLost`). Exactness holds if
  and only if every such drop finds the instance it had put back (`SynProtocol.Clean`): see
  `SynTheorems.OwnershipExactIffClean` and `SynTheorems.ExactlyOneEventAfterClose`. With at most 64
  sampled sends, and so always with sampling off, it does (`SynSampling.FewSamplesAreClean`); with
  65 it need not (`SynCounterexample.OneSampleTooMany`).
- The remark in `finishExpiredProbe` that closing always ends in Aborted is too strong
  (`SynCounterexample.LateNoResponse`). Once the table is closed one more NoResponse comes if and
  only if the sweeper was bound to say so at that moment, and never two
  (`SynTheorems.LateNoResponseIff`).
- A returned `Wait` does not mean that every event was emitted. It looks at the table, the channel
  and the wait group one after the other: a swept probe can be nowhere among them
  (`SynCounterexample.WaitCanReturnEarly`), and it can be back in the table after `Wait` saw that
  empty (`SynCounterexample.TableCanFillAgain`). When it passes the wait group after a clean run,
  everything has been reported if and only if the table is empty at that moment and nobody else
  holds a probe (`SynTheorems.WaitIsCompleteIff`; for any moment
  `SynTheorems.AllReportedIffVacant`).
- A retry that waited for its token can stamp the next owner of its key just before the queue-full
  branch drops it, and NoResponse then comes within the timeout of that stamp
  (`SynCounterexample.TouchCanHit`). `SynStamps.TouchIsHarmlessIff` gives the exact condition.
- The work pool relies on its producers stopping before it is closed (`core/port/worker_pool.go:55`).
  The SYN scanner sees to it (`SynTheorems.NoSubmitAfterPoolCloses`). The TCP scanner does not wait
  for a call that has passed the closed check and has not started its goroutine yet
  (`TcpScanner.OneLateSubmit`); `TcpScanner.LateSubmitIff` gives the exact condition.
- Two port ranges ending at 65535, or one when 65535 is already a top port, make the merge loop
  forever (`ScanPlan.TerminatesIff` gives the exact condition, `ScanPlan.TwiceLoops` and
  `ScanPlan.DashLoopsIff` accepted strings that do).
- A token with three dash-separated parts is read as its first number alone.
- `Get` of the shuffle leaves its block exactly when the last block wraps around 2^64
  (`Shuffle.BlockLocalIffNoWrap`).

## Model

| member | source | states |
|---|---|---|
| SynTheorems.OwnershipExactIffClean | core/port/syn/syn.go:519-583 | In every interleaving each reserved instance is held in exactly one place or was reported exactly once, if and only if no queue-full drop in the run missed the instance it had just put back |
| SynTheorems.ExactlyOneEventAfterClose | core/port/port.go:255-257 | Once `Close` has returned and all actors have ended, every reservation has been reported exactly once, if and only if the run was clean in that sense |
| SynTheorems.AtMostOneEvent | core/port/syn/watchIpStatus.go:85-246 | In a clean run no instance is ever reported twice, at any moment |
| SynTheorems.EventsGoToTheirInstance | core/port/syn/syn.go:311-390 | In every run, clean or not, each event goes to the callback, destination and start time of the reservation it names, although keys are reused and drops go by key |
| SynOutcomes.EventTellsTaker | core/port/port.go:273-310 | In every run an event other than NoResponse goes with what took its instance out of the table: Closed if and only if a reset did; Open only after a SYN+ACK did, with the caller not yet cancelled, and its result was queued; Error only after the drop that follows a failed send or retry under its key; Aborted only with its caller or the scanner cancelled, its retry's wait cancelled, or the table closed |
| SynOutcomes.TakerTellsEvent | core/port/syn/syn.go:976-1032 | In a clean run what took an instance determines its event: a reset Closed, a failed send Error, `Close` Aborted, a SYN+ACK Open, the sweep NoResponse, a failed retry Error, and the last three Aborted only with the cancellation or the shutdown that causes it, and always if that came before the taking |
| SynOutcomes.OnlyWantedJobs | core/port/syn/syn.go:612-660 | In every run the fingerprint pool has jobs only for probes whose caller asked for a service or an HTTP probe |
| SynRetries.SuccessIffReplied | core/port/syn/syn.go:983-1024 | In every run an instance counts as a successful retry if and only if it was put back and then a SYN+ACK or a reset took it, and it counts as no failure then |
| SynRetries.FailureIffSweptTwice | core/port/syn/syn.go:519-525 | In every run an instance counts as a failed retry if and only if the sweeper took it a second time and has reported NoResponse or is about to |
| SynDuties.FailuresAreDropped | core/port/syn/syn.go:370-389 | In every run a call whose send failed has not returned before it dropped its key, and the retry loop has not gone on before it dropped the key of a failed retry |
| SynDuties.OnlyFoundIsResent | core/port/syn/syn.go:549-556 | In every run the retry loop resends only a probe whose key it found in the table after the wait for its token |
| SynDuties.ClearedProbesAreComing | core/port/syn/syn.go:529-552 | In every run a probe in the table whose stamp was cleared, which no sweep would time out, is with the sweeper that put it back, in the retry queue, or with the retry loop |
| SynDuties.NobodyStopsEarly | core/port/syn/watchIpStatus.go:204-214 | In every run the sweeper has stopped only if the table was closed, and the retry loop only if the scanner was cancelled |
| SynTheorems.LifecycleBounded | core/port/syn/syn.go:519-564 | In every run each instance is put back at most once, transmitted at most twice, swept at most twice, and gives at most one retry sample, and none unless it was put back |
| SynStamps.NoResponseIsLate | core/port/syn/watchIpStatus.go:209-246 | In every run in which no fresh retry stamp hits an instance that is bound to be dropped, each NoResponse comes more than the timeout after the latest send stamp of the instance it names |
| SynStamps.TouchIsHarmlessIff | core/port/syn/syn.go:548-561 | That guard is exact: a retry's stamp leaves every NoResponse late enough, however the run goes on, if and only if it does not hit, within the timeout, an instance which the sweeper has put back and finds no room for in the retry queue |
| SynStamps.HitReportsEarly | core/port/syn/syn.go:534-540 | After such a hit the sweeper alone can go on to a NoResponse within the timeout of the latest stamp |
| SynStamps.RearmedWaitsForTouch | core/port/syn/watchIpStatus.go:148-158 | In every run a probe that was put back has no stamp until a retry stamps it afterwards, and so times out only after that, counted from its latest stamp |
| SynStamps.StepCopies | core/port/syn/watchIpStatus.go:100-101 | Every step keeps each copy that can still be timed out in step with the latest stamp of its instance |
| SynTheorems.WaitGroupCountsOpenProbes | core/port/syn/syn.go:1046-1059 | `portProbeWg` always equals the receiver's claims plus open probes queued, handled or in the pool, is never negative, is zero only when no matched probe is on its way, and the receiver cannot send on `openPortChan` once it is closed |
| SynTheorems.MatchedProbesAreCounted | core/port/syn/syn.go:976-1002 | In a clean run, while the scanner is not cancelled and the counter is zero, an unreported instance outside the table is with the sweeper, the retry loop, the reset branch, a failed send or `Close`: a probe matched by a SYN+ACK is never outside both the table and the counter |
| SynTheorems.AllReportedIffVacant | core/port/port.go:255-257 | At every moment of every run: if it was clean so far, each reservation has exactly one event if and only if nobody, table, actor or job, holds a probe; and when nobody does, if and only if it was clean |
| SynTheorems.WaitIsCompleteIff | core/port/syn/syn.go:392-412 | At the moment `Wait` passes `portProbeWg`, whatever it saw before: after a clean run every reservation has exactly one event if and only if the table is empty at that moment and neither the sweeper, the retry loop, the reset branch, a failed send nor `Close` holds a probe; and when that is so, if and only if the run was clean |
| SynTheorems.NoResponseIsOverdue | core/port/syn/watchIpStatus.go:217-222 | In every run, also one with hits, NoResponse is reported only of a copy that the sweep took with a stamp and more than the timeout after it |
| SynProgress.CloseCanAlwaysFinish | core/port/syn/syn.go:426-480 | From every reachable state some run brings `Close` to its return with every actor ended: no order of its waits can block for good |
| SynProgress.SomebodyGetsOn | core/port/syn/syn.go:426-480 | In every reachable state that is not the end, some actor has a step that brings the end nearer |
| SynSampling.FewSamplesAreClean | core/port/syn/syn.go:353-372 | A run with at most as many sampled sends as the retry queue has places is clean |
| SynSampling.FewSamplesReportedOnce | core/port/port.go:255-257 | After `Close` such a run has reported each reservation exactly once |
| SynTheorems.LateNoResponseIff | core/port/syn/watchIpStatus.go:231-246 | From any reachable state with the table closed, in every continuation, the NoResponse events reported plus the one the sweeper is bound to report stay the same number: a late one comes, once the sweeper is done, if and only if it was bound to |
| SynTheorems.NoSubmitAfterPoolCloses | core/port/syn/syn.go:472-478 | When `Close` comes to the fingerprint pool the open-port handler has stopped for good, so nothing is submitted to the closed pool |
| SynTheorems.LostForever | core/port/syn/syn.go:531-540 | An instance that is neither held nor reported is not reported in any continuation |
| SynTheorems.ExactStep | core/port/syn/syn.go:531-540 | A single step of any actor keeps ownership exact if and only if it is not a queue-full drop that misses its instance; a lost or doubled instance never comes back into balance |
| SynTheorems.StepInv | core/port/syn/syn.go:232-583 | All invariants together are kept by every step of every actor |
| SynOwnership.StepWeight | core/port/syn/syn.go:311-390 | The number of holders plus events of an instance changes by a reservation, which creates it, and by a queue-full drop, by nothing else |
| SynOwnership.StepTraced | core/port/syn/watchIpStatus.go:114-172 | Every copy of a probe, in the table or in any actor's hand, keeps what its reservation fixed, and sits under its own key |
| SynOwnership.SettledStep | core/port/syn/syn.go:526-540 | An instance that is lost or doubled is in no place from which it could be swept or put back again |
| SynBudget.StepPaid | core/port/syn/syn.go:548-561 | Transmissions made or still to come grow only with a reservation or a rearm |
| SynBudget.StepSwept | core/port/syn/watchIpStatus.go:215-224 | Times swept plus presence in the table grow only with a reservation or a rearm |
| SynBudget.StepSampling | core/port/syn/syn.go:983-985 | A retry sample is recorded at most once per instance and only as it leaves the table for good |
| SynBudget.StepFlags | core/port/syn/watchIpStatus.go:169-170 | The `retried` flag of a copy that can still be decided on tells exactly whether the instance was put back before |
| SynShutdown.StepClosing | core/port/syn/syn.go:426-480 | The order of `Close`: nothing starts a retry after the retry loop was joined, what is reserved after the table was drained belongs to a call that can no longer send and will drop it, the channel is closed only after the receiver stopped |
| SynShutdown.StepClaims | core/port/syn/syn.go:612-660 | Each step changes the wait group exactly as it changes the number of claimed, queued, handled and pooled open probes |
| SynShutdown.RunSays | core/port/syn/watchIpStatus.go:231-246 | With the table closed no run changes what the sweeper has said plus what it is bound to say |
| SynCounterexample.OneProbeTwoEvents | core/port/syn/syn.go:534-540 | A reachable state with two events for one reservation: the retry queue is full and a reset arrives between rearm and drop |
| SynCounterexample.OneProbeLost | core/port/syn/syn.go:534-540 | A reachable state from which one reservation is never reported: it took the key after the reset, and the drop meant for its predecessor removed it |
| SynCounterexample.TouchCanHit | core/port/syn/syn.go:548-555 | A reachable state in which an old retry may stamp the next owner of its key that is bound to be dropped |
| SynCounterexample.Fill | core/port/syn/syn.go:534-536 | From any calm state further probes can be timed out, put back and left waiting until the retry queue's 64 places are taken |
| SynCounterexample.LateNoResponse | core/port/syn/watchIpStatus.go:232-238 | A reachable state with the table closed and a NoResponse reported after that |
| SynCounterexample.WaitCanReturnEarly | core/port/syn/syn.go:392-412 | A reachable state in which the table, the channel and the wait group are empty and a reserved probe has no event yet |
| SynCounterexample.TableCanFillAgain | core/port/syn/syn.go:392-412 | A reachable state with an empty table, and a run from it after which the channel and the wait group are empty, nobody but the table holds a probe, and it has no event |
| SynCounterexample.OneSampleTooMany | core/port/syn/syn.go:534-540 | A run with 65 sampled sends that is not clean, so the bound of 64 cannot be raised |
| ProbeTable.WatchIpStatusTable.constructor | core/port/syn/watchIpStatus.go:61-68 | A new table is empty, open, and its cursor is at the first source port |
| ProbeTable.WatchIpStatusTable.RecordSentProbe | core/port/syn/watchIpStatus.go:70-79 | A given key is stored exactly when it was free, and an occupied one is left as it was |
| ProbeTable.WatchIpStatusTable.ReserveProbeContext | core/port/syn/watchIpStatus.go:85-112 | Succeeds if and only if one of the 10000 source ports is free for the destination; then takes the first free one in cyclic order from the cursor and moves the cursor just past it |
| ProbeTable.WatchIpStatusTable.TakeProbe | core/port/syn/watchIpStatus.go:114-134 | Take and drop: hands out what the key held and leaves every other key alone |
| ProbeTable.WatchIpStatusTable.StoreRetry | core/port/syn/watchIpStatus.go:136-146 | Stores a resend closure only with a probe that is still in the table |
| ProbeTable.WatchIpStatusTable.TouchProbe | core/port/syn/watchIpStatus.go:148-158 | Moves the send stamp of a probe that is still in the table, changes nothing else |
| ProbeTable.WatchIpStatusTable.RearmProbe | core/port/syn/watchIpStatus.go:160-172 | Puts a probe back exactly when the table is open, its caller has not cancelled and its key is free |
| ProbeTable.WatchIpStatusTable.Sweep | core/port/syn/watchIpStatus.go:215-224 | Removes exactly the cancelled and the timed-out probes and lists each of them once, in some order |
| ProbeTable.WatchIpStatusTable.Drain | core/port/syn/watchIpStatus.go:188-196 | Empties the table and lists each of its probes once |
| SourcePorts.GrantedAt | core/port/syn/watchIpStatus.go:96-108 | The n-th granted port is where the cursor's accumulated travel ends, whatever happened to the table in between |
| SourcePorts.SamePortIffWholeRounds | core/port/syn/watchIpStatus.go:89-106 | Two reservations get the same source port if and only if the cursor travelled a positive multiple of 10000 between them |
| SourcePorts.SkipFreeDistinct | core/port/syn/watchIpStatus.go:96-108 | Up to 10000 reservations in a row that skip no port use different ports |
| PortRanges.ParsePortRangeStr | core/port/port.go:353-379 | Accepts exactly the strings all of whose tokens are acceptable, and returns the ranges read before the first bad token |
| PortRanges.IsInPortRange | core/port/port.go:382-389 | True exactly for the ports inside some range |
| PortRanges.RenderThenParse | core/port/port.go:353-379 | Any non-empty list of single ports, ranges, chains of three numbers and "top1000" tokens reads back, in order, as what they ask for: the port alone, the range, the first number of the chain alone, nothing |
| PortRanges.TokenIff | core/port/port.go:364-376 | A token without a dash reads as a one-port range exactly if it is a number, one with one dash as the range of its two numbers, and one with more dashes exactly if its first part is a number, as that one port, whatever the other parts are |
| PortRanges.NumberIff | core/port/port.go:365-375 | A number is read from exactly its decimal numerals, leading zeros included, and only below 65536 |
| PortRanges.ContainsIff | core/port/port.go:415 | The search for the priority token finds it exactly if the string has it as a part |
| PortRanges.TopToken | core/port/port.go:361-363 | "top1000" alone is accepted and asks for no range |
| ScanPlan.TerminatesIff | core/port/port.go:421-439 | The 16-bit loop over the ranges ends if and only if 65535 ends at most one range and none when it is already a top port; then it has collected every other port |
| ScanPlan.TwiceLoops | core/port/port.go:408-439 | Whatever the top ports are, the string "65535-65535,65535-65535" is accepted and its loop does not end |
| ScanPlan.TwiceReads | core/port/port.go:353-379 | That string reads as the same one-port range twice |
| ScanPlan.DashLoopsIff | core/port/port.go:354-356 | The string "-" for all ports loops if and only if 65535 is a top port |
| ScanPlan.SelectedIs | core/port/port.go:414-420 | The priority part has no duplicates, holds exactly the wanted ports of the table and keeps the table's order, although the table may repeat ports |
| ScanPlan.OthersIs | core/port/port.go:421-439 | The collected ports have no duplicates and are exactly the non-zero ports of the ranges that are not top ports |
| ScanPlan.PlanIs | core/port/port.go:392-455 | Whatever the random source draws, the plan has no duplicates, begins with the top ports, and continues with a permutation of exactly the other selected ports, never port 0 |
| ScanPlan.PlanOfItems | core/port/port.go:392-455 | From the text to the plan: whatever single ports, ranges, chains and "top1000" tokens are written, the plan scans once each exactly the top ports, if asked for by name, and the asked ports that are top ports or not zero; top ports come first |
| ScanPlan.TailKeepsHundreds | core/port/port.go:448-453 | Each of the other ports stays inside its own hundred |
| ScanPlan.EveryTailIsDrawn | core/port/port.go:448-453 | Every arrangement that shuffles block by block comes from some draws |
| ScanPlan.ShuffleParseAndMergeTopPorts | core/port/port.go:392-455 | The whole operation: the error for a bad string, the error for an empty selection, all top ports for the empty string, and otherwise a plan of the kind described above, its tail arranged as drawn |
| ScanPlan.SelectTop | core/port/port.go:414-420 | The loop over the priority table computes the specified selection |
| ScanPlan.CollectRange | core/port/port.go:424-438 | The inner 16-bit loop adds the specified ports when the range does not end at an already taken 65535 |
| ScanPlan.CollectOthers | core/port/port.go:421-439 | On every input on which the source's loop ends, the loop computes the specified ports |
| ScanPlan.ShuffleTail | core/port/port.go:445-453 | The priority part is untouched and the tail is the block-wise arrangement that the draws give |
| ScanPlan.RestFits | core/port/port.go:421-439 | There are at most 65536 other ports, so the plan's shuffle never meets the wrap |
| Shuffle.GetIsBlockPermutation | util/shuffle.go:50-57 | Without the wrap `Get` is a bijection on [0, size) that keeps each index in its own block of at most 100, for all permutations the random source may produce |
| Shuffle.BlockLocalIffNoWrap | util/shuffle.go:53-56 | Staying inside the block holds for all shuffles if and only if the last block does not wrap around 2^64 |
| Shuffle.WrapEscapes | util/shuffle.go:53-56 | For each size that wraps, a shuffle that sends the first index of the tail out of its block |
| Shuffle.ShuffleInPlace | util/shuffle.go:32-44 | Swapping down the array gives the order that the draws specify, a permutation for every sequence of draws |
| Shuffle.EveryOrderIsDrawn | util/shuffle.go:32-35 | Every permutation comes from some draws: none is out of the shuffle's reach |
| Shuffle.OneOrderOneDraw | util/shuffle.go:32-35 | Two sequences of draws give the same order if and only if they are the same, so equally likely draws make equally likely orders |
| Shuffle.Shuffler.constructor | util/shuffle.go:15-47 | Builds the drawn permutation for full blocks and the drawn one for the incomplete last block |
| Shuffle.Shuffler.At | util/shuffle.go:50-57 | The 64-bit arithmetic of `Get` on the shuffler's arrays |
| Adaptive.RateStaysInBounds | core/port/syn/adaptive.go:94-133 | After any run of evaluations the rate is between the configured minimum and maximum |
| Adaptive.WindowCuts | core/port/syn/adaptive.go:104-119 | From every sound state a window with a new drop, a write error, or at least 70% of a positive capacity pending cuts the rate to seven tenths or the minimum; any other one with five or more retry samples, 30% of them successes, to eight tenths rounded down or the minimum; both start the healthy count anew |
| Adaptive.WindowRaises | core/port/syn/adaptive.go:120-128 | In every other window the rate does not fall: the third in a row below the maximum raises it by a twentieth of the maximum or by ten, whichever is more, up to the maximum, and any other one is only counted |
| Adaptive.CongestionShrinks | core/port/syn/adaptive.go:112-115 | k congested windows in a row leave the minimum, or at most 0.7^k of the rate before them |
| Adaptive.SixtySixWindowsRestore | core/port/syn/adaptive.go:120-128 | From every state reachable by any run of windows, 66 healthy windows in a row restore the maximum rate |
| Adaptive.SixtyFiveCanFallShort | core/port/syn/adaptive.go:120-128 | 65 are not always enough: a fresh controller taken to its floor by twelve congested windows is then still below the maximum, so the number is exact |
| Adaptive.ClaimsAreSpaced | core/port/syn/adaptive.go:81-92 | However `BeginEvaluation` is called, and in whatever order of times, the n-th window it grants comes at least n + 1 intervals after the start |
| Adaptive.AdaptiveLimiter.constructor | core/port/syn/adaptive.go:36-43 | The controller is enabled exactly for 0 < minimum < maximum and starts at the maximum rate |
| Adaptive.AdaptiveLimiter.ShouldSampleProbe | core/port/syn/adaptive.go:45-56 | An enabled controller samples every hundredth probe, a disabled one counts none |
| Adaptive.AdaptiveLimiter.BeginEvaluation | core/port/syn/adaptive.go:81-92 | A window is claimed only by an enabled controller and an interval after the last claim |
| Adaptive.AdaptiveLimiter.EvaluateClaimed | core/port/syn/adaptive.go:94-133 | One evaluation judges the window by new drops only, by write errors, pending probes and retry samples, forgets its samples, and leaves the rate and the healthy count that this window calls for |
| Adaptive.AdaptiveLimiter.Adjust | core/port/syn/adaptive.go:111-128 | Each branch moves the rate and the healthy count as specified and keeps the rate within its bounds |
| HostLimiter.Store.AcquireOrCreate | core/port/host_limiter.go:83-108 | Everybody waiting for a host holds one and the same stored entry, also while other waits end between its steps; an idle entry within the ttl is the one handed out; an entry is given up only if it is idle past the ttl, and more than the ttl less the length of its last wait after that wait ended |
| HostLimiter.Store.Create | core/port/host_limiter.go:91-107 | A missing or expired entry is replaced by the new one, already acquired; the branch that finds another entry already stored is unreachable |
| HostLimiter.Store.MakeRoom | core/port/host_limiter.go:91-96 | After the eviction the host's place is free and only expired idle entries are gone |
| HostLimiter.Store.DropIfExpired | core/port/host_limiter.go:91-93 | An expired entry can be deleted although the test and the deletion are two steps: nobody can be waiting on it, and no release revives it |
| HostLimiter.Store.SweepExpired | core/port/host_limiter.go:134-146 | A sweep removes all entries that were expired when it began and never one in use or within the ttl |
| HostLimiter.Store.SweepExpiredIfDue | core/port/host_limiter.go:148-155 | Sweeps at most once per ttl, and then completely |
| HostLimiter.Store.LoadFresh | core/port/host_limiter.go:110-132 | Finds the stored entry unless it is idle past the ttl |
| HostLimiter.Store.Release | core/port/host_limiter.go:25-32 | Ending a wait lowers the count of that entry alone and writes back the time read when the wait began, which falls short of its end by the length of the wait |
| HostLimiter.Store.LoadOrStore | core/port/host_limiter.go:102-106 | Keeps what is stored for the host, for any entry it is given, and stores only into a free place |
| WorkPool.JobsRunOnce | core/port/worker_pool.go:14-65 | In every run the counter equals submissions in progress plus jobs queued and running; no job runs twice, no rejected job runs, and whenever the counter is zero or the pool is closed every accepted job has run exactly once |
| WorkPool.ClosedIsStill | core/port/worker_pool.go:56-65 | After the job channel was closed only workers leave; nothing is sent on it |
| WorkPool.StepInv | core/port/worker_pool.go:22-47 | Every step of submitters, workers and `Close` keeps an accepted job in exactly one of the queue, a worker, and the finished jobs |
| WorkPool.PoolIsBounded | core/port/worker_pool.go:14-21 | In every run there are as many workers as asked for, at least one, and never more jobs queued than asked for |
| TcpScanner.SlotsAndResults | core/port/tcp/tcp.go:115-212 | Slots in use are exactly those of the calls that hold one and never exceed the limit; queued results are the Open events plus the results whose event is about to follow |
| TcpScanner.AtMostOneEvent | core/port/tcp/tcp.go:163-243 | A call that returned nil emits at most one event on every path, a call that returned an error emits none |
| TcpScanner.ExactlyOneEventAfterWait | core/port/tcp/tcp.go:245-259 | The two waits of `Wait` and `Close` one after the other: each call that had returned nil when the first was passed has emitted exactly one event when the second is |
| TcpScanner.SlotsComeBack | core/port/tcp/tcp.go:130-166 | Every slot taken is given back exactly once, on error paths as well |
| TcpScanner.TcpProbeOutcome | core/port/tcp/tcp.go:85-104 | Cancellation goes before everything, success before refusal, refusal before a timeout; what is none of these is an error |
| TcpScanner.EventTellsDial | core/port/tcp/tcp.go:163-243 | In every run an event goes with its call's dial: a connection gives Open with the result queued, or Aborted if the call was cancelled; without one it is Aborted if the call was cancelled by then, else Closed for a refusal, NoResponse for a timeout, Error for the rest |
| TcpScanner.LateSubmitIff | core/port/tcp/tcp.go:250-259 | Once the pool is closed some call can still come to submit to it if and only if one that wants a fingerprint had passed the closed check, has a context that does not know of the shutdown yet, and is not past its dial |
| TcpScanner.ProducersStopped | core/port/tcp/tcp.go:250-259 | If there is no such call when the wait for the scanner's goroutines is passed, nothing is ever submitted to the closed pool |
| TcpScanner.OneLateSubmit | core/port/tcp/tcp.go:156-164 | A run in which a call comes to submit to the closed pool |
| Utf8.DecodeIsGrammar | core/port/fingerprint/fingerprint.go:443-450 | The language's decoder, which computes a code point and then rejects bad ones, accepts exactly the UTF8-char grammar of section 4 of RFC 3629 and re-encodes what it accepts to the same bytes |
| Utf8.EncodeIsChar | core/port/fingerprint/fingerprint.go:447-449 | The encoding of section 3 of RFC 3629 yields one character of the grammar and decodes back to the same code point, whatever follows it |
| Utf8.ConvertIsClean | core/port/fingerprint/fingerprint.go:441-454 | The output is always valid UTF-8 and nowhere contains U+FFFD |
| Utf8.FixedIffClean | core/port/fingerprint/fingerprint.go:441-454 | A text is left alone if and only if it is valid UTF-8 without U+FFFD |
| Utf8.ConvertIsIdempotent | core/port/fingerprint/fingerprint.go:441-454 | Repairing twice is repairing once |
| Utf8.BadByte | core/port/fingerprint/fingerprint.go:443-447 | A byte that begins no character of the grammar becomes the two bytes that encode its own value, and the repair goes on after it |
| Utf8.ReplacementCharacter | core/port/fingerprint/fingerprint.go:443-450 | U+FFFD in the text becomes the two bytes that encode the value of its first byte |
| Utf8.OtherCharacter | core/port/fingerprint/fingerprint.go:447-450 | Every other character of the grammar stays as it is |
| Utf8.Convert2Utf8 | core/port/fingerprint/fingerprint.go:441-454 | The loop of the source computes the specified conversion |
| Keywords.ContainsKeyword | core/port/fingerprint/webfinger/matchfinger.go:21-43 | A short ASCII keyword is found if and only if some occurrence, overlapping ones included, has no letter or digit on either side; any other keyword if and only if it occurs |
| Keywords.ShortFound | core/port/fingerprint/webfinger/matchfinger.go:27-66 | One to four ASCII letters and digits are found if and only if the string has them with no ASCII letter or digit next to them |
| Keywords.LongFound | core/port/fingerprint/webfinger/matchfinger.go:21-26 | Any other keyword is found if and only if the string has it as a part |
| Keywords.IsKeyword | core/port/fingerprint/webfinger/matchfinger.go:5-19 | Exactly "any" or "all" over a non-empty keyword list and a non-empty string |
| Keywords.ShouldUseBoundaryMatch | core/port/fingerprint/webfinger/matchfinger.go:45-55 | True exactly for one to four ASCII letters and digits |
| Fingerprint.EachServiceOnce | core/port/fingerprint/fingerprint.go:118-231 | For rule lists without repeats inside a list no service is attempted twice before the deferred https attempt |
| Fingerprint.NothingIsMissed | core/port/fingerprint/fingerprint.go:184-233 | At the end of the schedule every listed service was attempted, is in the rule group of an attempted port or common service, or was checked, itself or through its group, in the receive-only phase |
| Fingerprint.GroupsStandIn | core/port/fingerprint/fingerprint.go:88-97 | No service of the common or of the last list is attempted after an attempted port or common service whose rule group names it, nor, once something was heard, if it is a receive-only service or in the group of one |
| Fingerprint.ScheduleInOrder | core/port/fingerprint/fingerprint.go:118-231 | The schedule is all of the port's services, then common ones in the order of their list, then others in the order of the last list |
| Fingerprint.PortIdentify | core/port/fingerprint/fingerprint.go:82-234 | The attempts are a prefix of the schedule; every exit names its cause and its turn; the https attempt follows only an http match answered with status 400 |
| Fingerprint.Walk | core/port/fingerprint/fingerprint.go:118-233 | Every exit is at the first turn that had cause for it: cancelled or out of time at that very turn with exactly the attempts due before it, by the attempt of that turn, in the receive-only phase after all the port's services, or unknown with the whole schedule tried |
| Fingerprint.TryServiceOrder | core/port/fingerprint/fingerprint.go:191-210 | The common services are tried except those already recorded, and a try records its whole group |
| Fingerprint.TryRuleOrder | core/port/fingerprint/fingerprint.go:213-231 | The remaining services are tried in table order |
| Fingerprint.TryPortServices | core/port/fingerprint/fingerprint.go:119-136 | The port's own services come first, each recorded with its group when it is tried |
| Fingerprint.Listen | core/port/fingerprint/fingerprint.go:139-188 | The receive-only services count as checked only when something was received |
| HostPacer.EstimateBetweenSamples | core/port/host_pacer.go:32-36 | After any non-empty run of non-negative samples the estimate lies between their minimum and maximum |
| HostPacer.OneStep | core/port/host_pacer.go:32-36 | A sample moves the estimate toward it and never past it, strictly unless the estimate is the sample or at most 7 ns below |
| HostPacer.ConstantSettles | core/port/host_pacer.go:32-36 | A constant sample brings the estimate to its value or at most 7 ns below, from every starting point, and keeps it there |
| HostPacer.GapBounds | core/port/host_pacer.go:37-56 | The next gap lies between the base gap and the base gap plus the smaller of the positive cap and two seconds |
| HostPacer.GapIs | core/port/host_pacer.go:44-56 | Beyond the base gap the gap is the factor times the round-trip time, rounded down, or the cap if that is less |
| HostPacer.GapGrows | core/port/host_pacer.go:44-56 | A host with a longer round trip is never given a shorter gap |
| HostPacer.Entry.Observe | core/port/host_pacer.go:25-42 | A sample updates the estimate and sets the next send one gap ahead; without a sample only the last-seen time moves |
| HostPacer.Entry.NextDelay | core/port/host_pacer.go:58-65 | Waiting that long gives the least time that is neither before now nor before the next send time |
| HostPacer.SendAfterSample | core/port/host_pacer.go:37-65 | After a sample whoever asks later sends at least the base gap after it, and no later than the greatest gap after it or at once |
| HostPacer.Store.LoadOrCreate | core/port/host_pacer.go:132-153 | A host seen within the ttl keeps its estimate and its next send time, any other starts afresh, and exactly the other stale hosts are forgotten |

## Left out

How the modelled parts differ from the code:

- syn.go, tcp.go and worker_pool.go are modelled as state machines over values, one transition per atomic step, not as methods with channels: Dafny has no threads. Every interleaving is a run.
- The `id` of a probe, the history multisets of `SynProtocol.State`, the stamps of `SynStamps` and the histories of `SynOutcomes`, `SynDuties` and `TcpScanner` exist in the model only. The retry samples are counted for each instance; `Adaptive.AdaptiveLimiter` has the two counters.
- Packets, pcap, routing, ARP and limiters are reduced to "the send succeeds or fails", "a SYN+ACK or RST for some key arrives" and "the wait grants or fails"; clocks, cancellation and random draws are free choices of the environment or parameters.
- The capacity of `openPortChan` and of the result channel is not modelled: sends on them are always possible, which allows more runs than the code has. The retry queue's capacity of 64 is modelled.
- A resend closure is a flag. A resend is counted for the instance that the retry queue names; a closure stored late, under a key that was reserved again, belongs to an earlier call's packet.
- Sampling one probe in a hundred is a free choice in the protocol; `Adaptive.AdaptiveLimiter` has the counter. The adaptive controller and the retry queue are always present, as `NewSynScanner` builds them.
- An event is counted even when no callback is set.
- `cancelContext` is part of the environment's cancellations.
- In the SYN scanner's `Close` the handle and the MAC cache are left out, and the fingerprint pool is closed after the last modelled wait; of `Wait` only the conditions it looks at are used.
- SynTheorems.NoResponseIsOverdue: about the stamp of the copy the sweep took; the latest stamp of the instance is the matter of `SynStamps`.
- SynStamps.NoResponseIsLate: only for runs without a hit, because it is false otherwise (`SynStamps.HitReportsEarly`, `SynCounterexample.TouchCanHit`).
- SynTheorems.MatchedProbesAreCounted: only for clean runs; in others an instance may be with nobody.
- SynTheorems.AtMostOneEvent: only for runs in which each queue-full drop finds its instance, because it is false otherwise (`SynCounterexample.OneProbeTwoEvents`).
- ScanPlan.ShuffleParseAndMergeTopPorts: requires the exact termination condition of `ScanPlan.TerminatesIff`, because the source's loop does not end otherwise; the table of top ports is a parameter and may hold duplicates and zero; the shuffled tail is built as a new list instead of in place; the draws are free, although the source seeds them with the size.
- Shuffle.GetIsBlockPermutation: without the wrap only, see `Shuffle.BlockLocalIffNoWrap`.
- WorkPool.JobsRunOnce: under the source's own rule that producers stop before `Close`, see `SynTheorems.NoSubmitAfterPoolCloses` and `TcpScanner.LateSubmitIff`; a nil pool or job is left out.
- HostLimiter.Store.Release: writes back the time read when the wait began, as the deferred call does, so `lastSeen` can move backwards. If no wait lasts longer than W, an entry is given up only when more than ttl - W has passed since its last wait ended; the rate over a longer time is the limiter's matter and not modelled. The waits in progress are a field of the model's store only.
- HostLimiter.Store.Register: the model's own record of the waits in progress is made together with the acquire, which the source does not need.
- TcpScanner.LateSubmitIff: a submission to the closed pool sends on a closed channel; what the program does after that is not modelled. A dial whose context is cancelled before it begins fails, as the dialer documents.
- `Adaptive.AdaptiveLimiter.EvaluateClaimed` calls two methods for what is one body in the source.
- Integers of `Adaptive` and `HostPacer` are unbounded: overflow of 64-bit counters and of the product of round-trip time and factor is not modelled.
- `Fingerprint` takes rule matching, the clock, cancellation and the receive-only exchange as oracles; banners are left out, and whether an exit counts as a dial error is carried by the kind of exit.

What is not modelled at all:

- Packet building and parsing, capture filters, device lookup, ARP and ND polling and the MAC cache: foreign calls.
- Regular expressions, the HTTP client, TLS, titles and favicons, charset detection, and the literal rule tables: library code or data.
- The deadline of `Wait`: a deadline is no completeness guarantee and the code gives none.
- `NormalizeMiniRate`, `FingerTimeout`, `applyAdaptiveRate`, `remainingTimeout`, log output, the command line, ping and address iteration.

# PG-Limiter: verified models of its stateful cores

PG-Limiter watches the connections of a proxy panel's users and limits their devices. Its
difficult parts keep state across events: which log lines were already seen and how far the
sample may be trusted, how many devices a partial sample proves, what the Telegram dispatcher
still owes, which forum thread a delivered key belongs to, which customer notification may be
sent again, and what a failed restore leaves behind. This project models those parts and proves
what each is for, over every input, every run and every interleaving it allows.

Clocks, readings of a monotonic clock, panel answers, transport outcomes, failed writes,
cancellations and crashes are events or parameters chosen by the environment. Where the source
changes fields step by step the model is a class whose methods change the same fields; each
method is proved equal to a specification function, or is proved to move only as a step machine
moves, and the theorems are about every run of that function or machine.

| files | part |
|---|---|
| `ReplayMemory`, `LogState`, `LogObservations`, `LogRuns`, `LogEvidence`, `LogGaps`, `LogFleet`, `LogCost` | log evidence: bounded replay memory, readiness, epochs |
| `DeviceCount`, `DeviceClaims`, `DeviceMeaning`, `Enforcement` | device counting and its use on partial samples |
| `DispatcherItem`, `DispatcherProgress`, `DispatcherWorker`, `DispatcherStore`, `DispatcherDurability`, `DispatcherStatus`, `DispatcherWarnings`, `DispatcherScans`, `TokenBucket` | Telegram dispatcher |
| `TopicsState`, `TopicsCache`, `TopicsManager` | forum destination and delivered-key cache |
| `MirzaState`, `MirzaProgress`, `MirzaService` | crash-safe customer notifications |
| `Restore`, `Invalidation` | offline restore with rollback; cache invalidation by savepoints |
| `JsonMerge`, `JsonMergeLaws`, `JsonMergeCommute`, `FanOut`, `DailySummary` | three-way merge, request fan-out, bounded report |
| `Collections` | facts about sets and maps |

`dafny verify dfyconfig.toml` checks everything.

## Where the code and its promise differ

For each, a lemma states exactly when the promise holds, and where the failing input is not
obvious another gives one.

- The complete device count is not monotone (`DeviceClaims.CompleteCountIsNotMonotone`): one more
  connection lowers it exactly when it shows more of what was counted apart to be already
  counted than it adds (`DeviceClaims.OneMoreConnection`). The partial count is a lower bound all
  the same; for an empty sample it is one exactly when the mode ignores the fallback or the
  fallback is small enough (`DeviceClaims.PartialTotalIsSoundIff`).
- A superseded warning chunk never starts a transport again exactly when it is not critical: a
  chunk sent with critical priority, superseded while its request is out and interrupted there,
  is sent again (`DispatcherItem.SupersededNeverSendsIff`). Warning reports are sent with the
  warning priority, so for them the promise holds (`DispatcherScans.NewerScanSilencesOlder`).
- An admitted critical message can be lost: a restart that cannot read the file starts from an
  empty memory, and the next write overwrites the file with it
  (`DispatcherDurability.UnreadFileIsOverwritten`). Its rows survive exactly unless the file is
  overwritten between such a restart and one that reads it
  (`DispatcherDurability.AdmittedBatchSurvivesIff`, `DispatcherDurability.RestartThenWriteIff`).
- A failed first write leaves no row in memory, but leaves its rows in the file exactly when it
  had replaced it (`DispatcherDurability.FailedAdmissionLeaves`,
  `DispatcherDurability.ReplacedFileKeepsRow`); they stay there exactly until the next write
  (`DispatcherDurability.StrayRowStaysUntilWritten`). A row that was left nowhere comes back
  exactly when a caller already cancelling the batch records it
  (`DispatcherDurability.FailedRowStaysAwayIff`).
- A destination revision can name two groups, and a cleared mark can come back, after a start that
  cannot read the topics file resets both revisions (`TopicsState.OtherGroupSameRevision`,
  `TopicsState.ClearedMarkComesBack`). Across a reload both promises hold exactly when it reads the
  file, the first also when there was no destination yet (`TopicsState.ReloadKeepsRevisionsIff`,
  `TopicsState.LateMarkIsInertIff`).
- Delivered keys imported from the legacy cache have no known destination. From any start a
  suppressed message was delivered exactly when the keys of that start were
  (`TopicsState.SuppressesOnlyDeliveredIff`).
- A snapshot's edit of `1` to `true`, or of `1` to `1.0`, is lost, because the source compares
  with Python's `==` (`JsonMergeLaws.InvisibleEdit`); merging into the unchanged baseline gives
  the edited value exactly when every edit is visible to that comparison.
- For the same reason edits on disjoint paths commute only up to that comparison: one order can
  end with `true` where the other ends with `1` (`JsonMergeCommute.OrderShows`). They give the
  same value exactly when no such edit meets a value the latest replaced
  (`JsonMergeCommute.SameValueIff`).
- Repeating a merge is harmless exactly when the snapshot edits no list: a list edit under an
  ancestor that the latest value had replaced passes once and raises the second time
  (`JsonMergeLaws.RepeatedListEdit`).
- A path the snapshot did not change keeps the latest value exactly when every ancestor it did
  change is still an object there, or the snapshot has nothing at that path; otherwise a stale
  value comes back (`JsonMergeLaws.OverwrittenPath`).
- The fan-out counters add up to the number of targets unless monitoring was already stale at
  entry, where the early return counts nothing (`FanOut.FetchAll`).
- The daily report is within its limit exactly when header, overflow line and footer alone are;
  a long enough zone name breaks it (`DailySummary.SummaryFitsIff`).
- A request larger than the token bucket is never served: sleeping as computed suffices exactly
  for the others (`TokenBucket.SleepSufficesIff`).

## Model

| member | source | states |
|---|---|---|
| ReplayMemory.ExpireReplayCache | utils/log_observations.py:413-423 | popping the heap while its least stamp is at or before the cutoff removes exactly the cached identities whose own time is at or before it, whatever the order of admission |
| ReplayMemory.ExpiredKeeps | utils/log_observations.py:413-423 | expiry keeps every cached identity backed by a heap stamp, the order duplicate-free and the capacity respected |
| ReplayMemory.PushedKeeps | utils/log_observations.py:498-500 | an accepted line keeps the replay index well formed and adds one stamp |
| ReplayMemory.WithoutOldestKeeps | utils/log_observations.py:501-505 | dropping the oldest identity keeps the rest and their stamps |
| ReplayMemory.CompactedKeeps | utils/log_observations.py:425-431 | compaction changes no cached identity and leaves an index at most twice the cache |
| LogObservations.LogObservations.constructor | utils/log_observations.py:92-119 | a new object is in the initial state: nothing seen, no node known |
| LogObservations.LogObservations.Invalidate | utils/log_observations.py:121-126 | a changed source starts a new generation with a new floor, and settings that must be read again |
| LogObservations.LogObservations.RetireNode | utils/log_observations.py:257-266 | a retired node gets a new epoch from the global counter, never a used one |
| LogObservations.LogObservations.NoteTransportGap | utils/log_observations.py:280-286 | a gap renews the epoch and raises the floor of its node to the time of the gap, or raises the floor of the whole sample; what that delays is LogGaps.GapDelaysReadiness |
| LogObservations.LogObservations.MarkUncertain | utils/log_observations.py:288-317 | a fault extends the deadline and renews the epoch of its node, or of the whole sample |
| LogObservations.LogObservations.RefreshRequiredNodes | utils/log_observations.py:224-255 | the required set follows panel and configuration; joining, leaving and reconnecting nodes are retired |
| LogObservations.LogObservations.RegisterFleet | utils/log_observations.py:190-213 | a fleet snapshot replaces the panel view and refreshes the requirement, losing it when the panel is unknown |
| LogObservations.LogObservations.Configure | utils/log_observations.py:136-184 | new settings reset or resize every memory; an eviction leaves its node uncertain until the evicted line would have expired |
| LogObservations.LogObservations.Admit | utils/log_observations.py:470-506 | a line is admitted exactly when in the window and not remembered; the new state is the specified one, eviction and compaction included |
| LogRuns.StepKeeps | utils/log_observations.py:121-506 | every event keeps the invariant: each admitted record still inside Last seen is cached, or its node or the whole sample is marked not ready past the record's life |
| LogRuns.RunKeeps | utils/log_observations.py:89-650 | the invariant holds in every reachable state, under any order of events and a clock that never goes back |
| LogEvidence.ReadyRemembers | utils/log_observations.py:470-543 | in every reachable state and at any later time, every record admitted from a ready node of a ready fleet and still inside Last seen is in its cache |
| LogEvidence.BoundedNeverRejectsMore | utils/log_observations.py:470-506 | in every reachable state the bounded memory admits whatever a memory that never forgets would admit |
| LogEvidence.ReadyAgreesWithUnbounded | utils/log_observations.py:470-563 | whenever node and fleet are ready, a line is admitted if and only if the unbounded memory would admit it |
| LogEvidence.CaptureCoherent | utils/log_observations.py:565-588 | captured evidence names the epochs of exactly its eligible nodes, and is complete only for the whole required fleet |
| LogEvidence.RetentionOnlyShrinks | utils/log_observations.py:590-617 | retention keeps exactly the nodes of the same epoch that are still ready, returns current evidence, and never turns incomplete coverage complete |
| LogEvidence.StepEpochs | utils/log_observations.py:257-316 | each event that disturbs a node renews its epoch, and each that disturbs the sample raises one of its counters |
| LogEvidence.EvidenceIsAbaFree | utils/log_observations.py:565-650 | evidence accepted any number of events after its capture: nothing in between disturbed the sample, and no retained node was retired, faulted, removed or re-added |
| LogEvidence.CompleteSpeaksForFleet | utils/log_observations.py:619-650 | complete evidence accepted as current speaks for exactly the fleet required now |
| LogGaps.GapDelaysReadiness | utils/log_observations.py:280-286 | after a gap its node, or the whole sample, is ready exactly if it was and the gap lies before the interval; no other node is affected |
| LogGaps.StepFloors | utils/log_observations.py:121-286 | each floor moves only to the time of a break, and every break leaves a floor that an interval begun before it does not pass |
| LogGaps.EligibleMeansUnbroken | utils/log_observations.py:545-588 | over every run, evidence that counts a node was collected without a break inside its interval: of its stream, its membership or connection, the transport, the source or the fleet |
| LogGaps.CompleteMeansUnbroken | utils/log_observations.py:565-588 | over every run, complete evidence saw no break of the whole sample and none of any required node |
| LogGaps.EligibleIff | utils/log_observations.py:508-588 | over every run whose gaps are noted when discovered, a node counts exactly when it reports and its whole interval is unbroken |
| LogGaps.FaultDelaysReadiness | utils/log_observations.py:288-317 | after a fault its required node, or the whole sample, is ready exactly if it was and the deadline has passed |
| LogGaps.EligibleMeansUndoubted | utils/log_observations.py:470-588 | over every run, no evidence counts a node before the deadline of a fault that put it in doubt, unless it left the fleet since |
| LogFleet.RequiredIff | utils/log_observations.py:190-255 | over every run the required nodes are exactly those of the panel's last fleet that neither it nor the last settings exclude, and connected is what the panel says |
| LogFleet.SettingsInForce | utils/log_observations.py:136-184 | over every run the last settings are in force, and settings that do not parse keep the machine from being ready |
| LogFleet.CapturedIsCurrentIff | utils/log_observations.py:565-650 | fresh evidence is current in the strict form exactly when the whole fleet is ready, and in the partial form exactly when the fleet or some node is |
| LogFleet.StrictMeansWholeFleet | utils/log_observations.py:619-650 | evidence the strict form accepts later was complete when captured, for a fleet that is the same and ready at both times |
| LogFleet.DepartedAreForgotten | utils/log_observations.py:243-255 | a known fleet keeps the memory of exactly its required nodes |
| LogFleet.AdmissionKeepsNewest | utils/log_observations.py:497-505 | after an admission the node's memory holds the newest unexpired lines, as many as fit, the admitted one last |
| LogCost.RebuildsAreAmortized | utils/log_observations.py:413-431 | over every run the rebuild work of a node's index is at most its number of admissions, and every memory ends valid, within capacity, its index at most twice the cache |
| DeviceCount.SubnetOf | utils/device_count.py:81-90 | a dotted address maps to its /24 network |
| DeviceCount.SameSubnet | utils/device_count.py:81-90 | two addresses share a subnet key exactly when they are in the same network |
| DeviceCount.CountDevices | utils/device_count.py:220-291 | the loop over connections computes the count defined on the set of connections, so neither order nor duplicates matter; an empty list takes the fallback; what that count is in the fields of the connections is DeviceMeaning.DeviceModeCounts, IpModeCounts, InboundModeCounts, NodeModeCounts and PartialCounts |
| DeviceMeaning.PlacesGroupIff | utils/device_count.py:81-95 | two addresses are grouped exactly when they are the same or in one /24; an IPv6 address is never grouped with another |
| DeviceMeaning.DeviceModeCounts | utils/device_count.py:98-291 | "device" mode, any configuration: the distinct inbounds of a trusted user, otherwise the distinct (address or /24, inbound) pairs, plus the distinct CDN inbounds, plus one if clients come through CDN nodes and none of them is seen elsewhere |
| DeviceMeaning.IpModeCounts | utils/device_count.py:98-291 | "ip" mode: the distinct addresses or /24 networks, plus one for the CDN inbounds and one for the CDN nodes when none of their clients is seen elsewhere |
| DeviceMeaning.InboundModeCounts | utils/device_count.py:131-135 | "inbound" mode: the distinct stripped inbound tags that are neither blank nor "Unknown", on nodes that are not disabled |
| DeviceMeaning.StripTrims | utils/device_count.py:132 | a tag is what stands between its first and its last character that is no blank |
| DeviceMeaning.NodeModeCounts | utils/device_count.py:118-126 | "node" mode: the distinct eligible nodes that are not disabled |
| DeviceMeaning.PartialCounts | utils/device_count.py:255-291 | from incomplete evidence CDN clients count for at most one, and only when no ordinary device is counted |
| DeviceMeaning.EveryObservationIsADevice | utils/device_count.py:157-166 | with no grouping and no exception configured every address on every inbound is a device of its own |
| DeviceClaims.CdnEvidenceCounts | utils/device_count.py:255-291 | any CDN observation in any sample is worth at least one device |
| DeviceClaims.PartialIsLowerBound | utils/device_count.py:255-291 | the partial count of a sample is at most the complete count of any sample containing it |
| DeviceClaims.PartialIsLowerBoundAcross | utils/device_count.py:114-291 | the same bound when the completion knows more eligible nodes than the sample, as in "node" mode |
| DeviceClaims.CompleteCountIsNotMonotone | utils/device_count.py:255-291 | one more observation lowers the complete count from 2 to 1 |
| DeviceClaims.OneMoreConnection | utils/device_count.py:255-291 | one more connection changes the complete count by exactly its gain less its loss, so when it lowers the count is known exactly |
| DeviceClaims.PartialTotalIsSoundIff | utils/device_count.py:250-291 | the partial result is a lower bound for every completion exactly when the sample is not empty, or the mode ignores the fallback, or the fallback is small enough |
| DeviceClaims.DeviceModeKeepsEveryCdnInbound | utils/device_count.py:262-285 | in "device" mode no CDN inbound bucket is ever suppressed |
| DeviceClaims.CompleteCountBounded | utils/device_count.py:98-291 | outside the "inbound" and "node" modes the count is at most the number of distinct observations: IPs in "ip" mode, (IP, inbound) pairs in "device" mode |
| DeviceClaims.CountDevicesFromIps | utils/device_count.py:176-217 | the loop counts the distinct keys of the non-empty addresses, or 0 in the modes that have no key for a bare address |
| DeviceClaims.IpModeAgreesWithAddresses | utils/device_count.py:176-291 | in "ip" mode without CDN or disabled nodes the full count equals the count of the bare addresses |
| Enforcement.Cycle.RefreshUserEvidence | utils/check_usage.py:909-944 | refreshed evidence lets a decision proceed exactly if the user is unprotected and the look current, trustworthy and, if partial, over the limit of an eligible user; a current look that does not protects the user |
| Enforcement.Cycle.RefreshCurrentPolicy | utils/check_usage.py:979-1001 | the policy is returned exactly if current, readable, eligible and backed by rechecked evidence; an unreadable or ineligible one protects the user |
| Enforcement.Cycle.Judge | utils/check_usage.py:1063-1175 | whatever other tasks do to the warnings at each await, a violation is punished exactly on the warning this cycle judged, with enough violations, over the limit at every look and as read last; the conditions of skipping, staying within the limit, stopping and finding the warning replaced are exact too |
| Enforcement.Cycle.Revalidate | utils/check_usage.py:1150-1175 | the last check before the panel is changed passes exactly on a recent observation, the judged warning with enough violations and a count over the limit read last; otherwise the user is protected |
| Enforcement.Cycle.Clear | utils/check_usage.py:1357-1388 | a warning is cleared exactly if the sample is trustworthy, the user neither protected nor failed, the warning the judged one before and after a usable policy, and the user gone or within its limit; so no partially observed user with a record is cleared as normalized |
| Enforcement.FlagHoldsOnEveryCompletion | utils/check_usage.py:882-944 | a violation proved on a non-empty partial sample is one on every completion, also one that knows more eligible nodes |
| DispatcherItem.RunKeeps | telegram_bot/dispatcher.py:853-1098 | over every run of worker, callers and interruptions the item invariant holds, delivered and uncertain are final, and a superseded non-critical item sends no more |
| DispatcherItem.AcceptedAtMostOnce | telegram_bot/dispatcher.py:872-1098 | Telegram accepts a non-critical message at most once over any run, cancellation mid-send included |
| DispatcherItem.ResendNeedsProof | telegram_bot/dispatcher.py:1054-1098 | a further transport starts only after every earlier one ended in a reply that proves non-acceptance |
| DispatcherItem.ClosedMeansProved | telegram_bot/dispatcher.py:1054-1113 | a run with no transport in doubt had every transport refused by a proving reply |
| DispatcherItem.OpenStaysOpen | telegram_bot/dispatcher.py:948-963 | a transport in doubt is never forgotten |
| DispatcherItem.CriticalFailsOnlyIfRejected | telegram_bot/dispatcher.py:853-862 | no number of retries fails a critical item; only expiry or a rejected payload does |
| DispatcherItem.SupersededNeverSendsIff | telegram_bot/dispatcher.py:598-609 | no chunk of a superseded report ever starts a transport again, whatever its state was, exactly when it is not critical |
| DispatcherItem.LateRunIsLate | telegram_bot/dispatcher.py:955-963 | the run in which a superseded critical chunk is sent again |
| DispatcherProgress.NothingIsLost | telegram_bot/dispatcher.py:853-991 | over every run, through cancelled workers, failed writes and backoffs, an admitted message is with the worker, in the queue, or delivered, uncertain, cancelled or failed |
| DispatcherProgress.ClosedMeansWritten | telegram_bot/dispatcher.py:840-851 | a delivered message, or a report in doubt, leaves the worker only through a completion that was written |
| DispatcherProgress.EveryEndHasACause | telegram_bot/dispatcher.py:853-1098 | over every run delivered means accepted, failed means expired, rejected or out of retries, uncertain means sent, and cancelled means a caller, a newer report or a pause asked |
| DispatcherProgress.UndisturbedTurnDelivers | telegram_bot/dispatcher.py:887-947 | a waiting message that nobody disturbs and Telegram acknowledges is delivered in one turn, a report after recording that it is sent |
| DispatcherProgress.RefusedTurnRequeues | telegram_bot/dispatcher.py:853-870 | a waiting message that Telegram turns away, with retries left, is back in the queue with one retry counted |
| DispatcherProgress.DoubtIsFinal | telegram_bot/dispatcher.py:1054-1113 | a non-critical message whose reply was lost, and a report also when the connection was refused, is uncertain and never sent again in any run |
| DispatcherProgress.CriticalIsSentAgain | telegram_bot/dispatcher.py:1054-1113 | a critical message neither acknowledged nor rejected waits to be sent again, however often it was sent, unless superseded |
| DispatcherProgress.WaitingIsStopped | telegram_bot/dispatcher.py:597-609 | a message that still waits, critical or not, is stopped for good by a cancellation or a newer report: no later run sends it |
| DispatcherWorker.QueueItem.Turn | telegram_bot/dispatcher.py:887-954 | a turn of the worker with any send item, daily reports included, suspended and interfered with anywhere, takes the item and moves it only as the item machine does |
| DispatcherWorker.QueueItem.Attempt | telegram_bot/dispatcher.py:908-930 | out of the token bucket: cancelled, expired, announced if a report, retried, or sent |
| DispatcherWorker.QueueItem.Announce | telegram_bot/dispatcher.py:689-692 | a report is sent only after its sending state was recorded; a failed record is retried, or released if the worker was cancelled meanwhile |
| DispatcherWorker.QueueItem.Deliver | telegram_bot/dispatcher.py:1012-1098 | the outcome of the transport is read as the machine reads it |
| DispatcherWorker.QueueItem.Requeue | telegram_bot/dispatcher.py:699-702 | a report that was not sent has its state written back before it is retried or failed |
| DispatcherWorker.QueueItem.RetryItem | telegram_bot/dispatcher.py:853-870 | a retry cancels a superseded item, fails a non-critical one past its retries, or waits and requeues it; that it is never lost is DispatcherProgress.NothingIsLost |
| DispatcherWorker.QueueItem.Finish | telegram_bot/dispatcher.py:813-819 | a completion is written, or tried again: one that fails to be written is put back in the queue (DispatcherProgress.NothingIsLost, ClosedMeansWritten) |
| DispatcherWorker.WorkerIsSafe | telegram_bot/dispatcher.py:872-991 | between any two sections of the worker's code: accepted at most once and never late if not critical, failed only if rejected if critical, and never lost: with the worker, in the queue, or at an end that has its cause, a delivered one only after its completion was written |
| DispatcherStore.StepKeeps | telegram_bot/dispatcher.py:234-819 | every reservation, serialized write, conclusion, settlement, failed write, crash, and restart that reads the file or cannot, keeps the invariant of durable rows |
| DispatcherStore.RunKeeps | telegram_bot/dispatcher.py:243-819 | the invariant holds in every reachable state |
| DispatcherDurability.AdmittedChunksAreDurable | telegram_bot/dispatcher.py:234-263 | in every reachable state a chunk owed is in memory, in the file and in the write in progress; after a restart that could not read the file it is in the file alone, and once that is overwritten nowhere; a failed chunk is as durable |
| DispatcherDurability.AdmittedBatchSurvivesIff | telegram_bot/dispatcher.py:554-596 | from the write that admits a batch to the step that resolves its last chunk all its rows are in the file, exactly unless the file was overwritten after a restart that could not read it |
| DispatcherDurability.RestartThenWriteIff | telegram_bot/dispatcher.py:234-263 | after a restart and the next write every owed row is still stored exactly when the restart read the file or nothing was owed |
| DispatcherDurability.UnreadFileIsOverwritten | telegram_bot/dispatcher.py:234-241 | a run that loses an admitted row |
| DispatcherDurability.OwedUntilSettled | telegram_bot/dispatcher.py:765-819 | nothing but the resolution of its last chunk ends what is owed to a batch |
| DispatcherDurability.FailedAdmissionLeaves | telegram_bot/dispatcher.py:586-596 | a failed first write leaves no row in memory, live batch, dedup entry or unresolved future; the row is in the file exactly when the write replaced it |
| DispatcherDurability.ReplacedFileKeepsRow | telegram_bot/dispatcher.py:586-596 | a run that leaves the row of a failed admission in the file |
| DispatcherDurability.FailedIsGivenUp | telegram_bot/dispatcher.py:586-596 | after a failed admission the row is on its way nowhere, exactly unless the chunk had been cancelled and settled first |
| DispatcherDurability.FailedRowStaysAwayIff | telegram_bot/dispatcher.py:821-834 | over every run such a row stays out of memory and file exactly until a caller already cancelling the batch records it |
| DispatcherDurability.StrayRowStaysUntilWritten | telegram_bot/dispatcher.py:243-263 | over every run a row left in the file stays exactly until the next write, as long as no restart reads it and no caller records it |
| DispatcherStatus.RowsRecordStatus | telegram_bot/dispatcher.py:243-263 | in every reachable state the row of an owed chunk records its status, a write begun now would write it, and a restart gives the chunk the status in the file it finds |
| DispatcherStatus.ConclusionSurvives | telegram_bot/dispatcher.py:234-263 | from every reachable state the status a chunk has when a write begins is, once the write has ended, what every later restart reads back, until it is concluded again or its batch is settled |
| DispatcherStatus.SettlingTakesRows | telegram_bot/dispatcher.py:792-806 | resolving the last chunk takes exactly the rows that did not fail out of memory and asks for the write that removes them |
| DispatcherStatus.FailedSettlementRestores | telegram_bot/dispatcher.py:800-805 | a settlement whose write failed puts its rows back and can be written again |
| DispatcherStatus.SettledRowsLeave | telegram_bot/dispatcher.py:792-806 | from every reachable state, once a settlement is written its rows are nowhere in any later run, restarts included, unless a caller concludes the chunk again |
| DispatcherWarnings.Warnings.Admit | telegram_bot/dispatcher.py:597-609 | admitting a scan, even an empty one, supersedes exactly the live report of its scope and leaves every other report as it is |
| DispatcherWarnings.Warnings.Resolve | telegram_bot/dispatcher.py:765-795 | resolving chunks brings no report back to life |
| DispatcherWarnings.Warnings.AtMostOneLive | telegram_bot/dispatcher.py:597-609 | at most one live report per destination scope |
| DispatcherScans.NewerScanSilencesOlder | telegram_bot/dispatcher.py:598-609 | from every reachable state, once a newer scan of the scope is admitted, even an empty one, no chunk of an older one starts a transport in any run, whatever its state was |
| DispatcherScans.NewestScanGoesOn | telegram_bot/dispatcher.py:597-609 | from every reachable state, an admitted scan is queued whole and none of its chunks is superseded in any run without a newer scan of its scope |
| TokenBucket.RunConserves | telegram_bot/dispatcher.py:187-203 | tokens stay between 0 and the capacity, and consumption never exceeds what was there plus what flowed in |
| TokenBucket.RunAccounts | telegram_bot/dispatcher.py:187-203 | over every run each token is consumed, still there, or spilled over the brim: no token is lost or made |
| TokenBucket.WindowIsBounded | telegram_bot/dispatcher.py:187-203 | over any window of any run, at most the capacity plus rate times the window's duration is consumed |
| TokenBucket.SleepSufficesIff | telegram_bot/dispatcher.py:196-203 | after a refusal the computed sleep suffices exactly for requests no larger than the bucket |
| TokenBucket.SleepIsNoLonger | telegram_bot/dispatcher.py:196-203 | no shorter sleep would do, unless the computed one is the shortest there is |
| TokenBucket.Limiter.Consume | telegram_bot/dispatcher.py:187-203 | the loop is a run of tries of which only the last takes tokens |
| TopicsState.RevisionsIdentifyDestination | telegram_bot/topics.py:204-372 | equal destination revisions at both ends of a run whose reloads read the file mean the same group and threads, and with equal monitoring revisions no delivered key was dropped except by expiry at a reload |
| TopicsState.ReloadKeepsRevisionsIff | telegram_bot/topics.py:121-141 | across a reload a revision names one destination exactly when the reload read the file or there was no destination yet |
| TopicsState.OtherGroupSameRevision | telegram_bot/topics.py:139-141 | two groups at one revision, with an unreadable file in between |
| TopicsState.LateMarkIsInert | telegram_bot/topics.py:204-244 | a mark captured before a clear, pause or change of destination is never accepted after it, whatever happens in between in a run whose reloads read the file |
| TopicsState.LateMarkIsInertIff | telegram_bot/topics.py:121-141 | across a reload it stays inert in every continuation exactly when the reload read the file |
| TopicsState.ClearedMarkComesBack | telegram_bot/topics.py:139-141 | a cleared mark accepted again after an unreadable file |
| TopicsState.StepKeeps | telegram_bot/topics.py:204-372 | every operation keeps: each marked key was delivered to the group and thread its topic resolves to |
| TopicsState.ForgottenKeeps | telegram_bot/topics.py:327-336 | a key that survives a thread change belongs to a topic that still resolves to the same thread, General fallback included |
| TopicsState.SuppressedMeansDelivered | telegram_bot/topics.py:197-202 | in every state reachable from the defaults a message suppressed as sent did reach the chat and thread its topic resolves to now |
| TopicsState.SuppressesOnlyDeliveredIff | telegram_bot/topics.py:121-138 | from any other start, a legacy cache included, that holds in every run exactly when the keys it starts with were delivered to its group |
| TopicsCache.MarkSuppresses | telegram_bot/topics.py:197-231 | a message whose mark is accepted is suppressed exactly until a day later |
| TopicsCache.StampIff | telegram_bot/topics.py:204-372 | over every run the cache holds a key with its time exactly if it was recorded then and nothing retired or renewed it since: a clear of its topic, a pause, another group, a change of its or the General thread, or a reload that drops it |
| TopicsCache.SuppressedIff | telegram_bot/topics.py:197-202 | in every reachable state a message is suppressed exactly when monitoring is open and its key was recorded less than a day ago and not retired since |
| TopicsCache.StaysSuppressed | telegram_bot/topics.py:197-202 | from an accepted mark every run without a retiring step keeps the message suppressed until it expires |
| TopicsCache.ChoicesLast | telegram_bot/topics.py:279-302 | over every run group and preference are the last chosen, unless a file could not be read since |
| TopicsCache.ThreadIff | telegram_bot/topics.py:310-372 | over every run a topic has a thread exactly from the step that installed it to the first that takes it away |
| TopicsCache.ResolveIff | telegram_bot/topics.py:224-230 | a message goes to its topic's own thread, or to the General one if it has none |
| TopicsManager.TopicsManager.Update | telegram_bot/topics.py:162-182 | a failed write publishes nothing, and an unchanged candidate is not written |
| TopicsManager.TopicsManager.MarkMessageSent | telegram_bot/topics.py:204-231 | the mark takes effect exactly as specified: only for the captured revisions and destination; what it then does is TopicsCache.MarkSuppresses and SuppressedIff |
| TopicsManager.TopicsManager.ClearMessageCache | telegram_bot/topics.py:233-244 | a clear always starts a new destination revision |
| TopicsManager.TopicsManager.SetGroupId | telegram_bot/topics.py:279-290 | a new group drops the threads and keys of the old one |
| TopicsManager.TopicsManager.SetTopicsEnabled | telegram_bot/topics.py:292-302 | a pause starts a new monitoring revision and drops the keys |
| TopicsManager.TopicsManager.SetTopicId | telegram_bot/topics.py:310-337 | a thread is installed only in the destination it was created for |
| TopicsManager.TopicsManager.RemoveTopicId | telegram_bot/topics.py:339-362 | a thread is removed only in the destination it was found missing in |
| TopicsManager.TopicsManager.ClearAllTopics | telegram_bot/topics.py:364-372 | threads and keys go together, in a new revision unless there were none |
| TopicsManager.TopicsManager.SetupTopic | telegram_bot/topics.py:443-500 | whatever runs at each suspension, a topic reported settled is so in the destination the step began in, as the bot answered, and no other thread changed; without interference it ends exactly as answers and writes say |
| TopicsManager.TopicsManager.CreateTopicsForGroup | telegram_bot/topics.py:403-501 | a setup that finishes found every configured topic as the bot answered, in the captured destination; a cancelled one returns no thread; and one that nobody disturbs, with permissions and writes granted, finishes |
| MirzaState.StepKeeps | utils/mirza_notifications.py:34-210 | every step, crashes included, keeps rows, worker and the fate of each request in agreement |
| MirzaState.DeliveryIsSafe | utils/mirza_notifications.py:34-210 | with crashes anywhere: at most three requests per incident, at most one that could have been accepted; delivered means accepted, and failed, skipped or unsent means none was |
| MirzaState.EverySendIsClaimed | utils/mirza_notifications.py:162-180 | a request leaves only behind a committed `sending` claim that counts the attempt, after recovery, with every earlier request ruled out |
| MirzaState.FateIsTrue | utils/mirza_client.py:28-52 | the client calls a request retryable or failed only when it was not accepted, and delivered only when it was |
| MirzaProgress.ClassifyDecides | utils/mirza_client.py:28-52 | the client decides exactly what the response proves: delivered if the message cannot have been refused, retry or failed if it cannot have been accepted, uncertain only when both are possible |
| MirzaProgress.ClassifyIff | utils/mirza_client.py:28-52 | a true status in a 2xx reply is a delivery, a refused connection or a rate limit is tried again, every other proved refusal fails |
| MirzaState.NeverSentAgain | utils/mirza_client.py:28-52 | after a request that could have been accepted no run sends the incident again |
| MirzaProgress.AttemptSettles | utils/mirza_notifications.py:162-210 | an undisturbed attempt counts itself and records what the response proves, a third retry as a failure, and changes nothing else |
| MirzaProgress.AdmittedIsDelivered | utils/mirza_notifications.py:71-210 | an incident admitted, resolved and acknowledged is delivered by exactly one request |
| MirzaProgress.InterruptedBecomesUncertain | utils/mirza_notifications.py:34-48 | a send that a crash interrupted is uncertain after recovery |
| MirzaProgress.EndsAreFinal | utils/mirza_notifications.py:26-210 | over every run no row is dropped, counts only rise, and an ended row is never touched again |
| MirzaProgress.OnlyItsCauseEnds | utils/mirza_notifications.py:71-210 | a step ends an incident in a state exactly when it is a cause of that end: its request's answer, a third failure, its metadata, a lost secret, a cancelled route, or recovery |
| MirzaService.Service.RecoverAll | utils/mirza_notifications.py:34-48 | recovery in batches turns exactly the interrupted rows uncertain, all of them unless a batch fails, before anything is sent |
| MirzaService.Service.ResolveOne | utils/mirza_notifications.py:71-160 | a pending row moves as the panel's answer says by one conditional transition, unless another task cancelled it meanwhile; no other row moves |
| MirzaService.Service.SendOne | utils/mirza_notifications.py:162-194 | claim, commit and send are a run of the machine, ambiguous commits included; the row ends exactly as due time, secret, commits and response say |
| MirzaService.Service.Deliver | utils/mirza_notifications.py:179-210 | the request, its classification and the final transition are a run of the machine, or a crash in between; the row ends as the response is classified |
| MirzaService.Service.RunOnce | utils/mirza_notifications.py:50-69 | a pass of the worker is a run of the machine in which every incident visited that was still to be sent is resolved or sent, unless not due, its claim lost, or cancelled |
| MirzaService.ServiceIsSafe | utils/mirza_notifications.py:26-210 | between any two steps of the worker's code every incident is safe in that sense, if it was when the process started |
| Restore.FileSystem.ReplaceOffline | utils/backup.py:466-474 | a rename, or a copy onto a busy mount; a failure leaves the source intact |
| Restore.FileSystem.PrepareReplacements | utils/backup.py:511-517 | every replacement is copied before any target changes |
| Restore.FileSystem.KeepOriginals | utils/backup.py:518-526 | every existing target has a private copy that holds its contents |
| Restore.FileSystem.ApplyTargets | utils/backup.py:527-532 | up to a fault, each target taken so far is as planned and every original copy is intact |
| Restore.FileSystem.Rollback | utils/backup.py:533-547 | each target is undone, or reported with its original still at the retained copy; no more are reported than operations failed |
| Restore.FileSystem.Cleanup | utils/backup.py:548-556 | cleanup touches only the temporaries it is given, a failed unlink is harmless, and without one none of them is left |
| Restore.FileSystem.ApplyBackup | utils/backup.py:498-557 | under a fault at any operation: success leaves every target as planned, a rolled-back failure leaves every target as it was, absence included, and otherwise each unrestored original is at its retained copy; without a fault it succeeds and leaves no temporary, and no single fault leaves the rollback incomplete |
| Restore.UndoTurn | utils/backup.py:535-545 | undoing one target settles it and keeps every other one settled or recoverable |
| Invalidation.Session.Resolve | db/database.py:128-161 | an ended savepoint merges into its parent if committed, an ended root publishes if committed, anything else is dropped |
| Invalidation.Session.Execute | db/database.py:112-161 | a whole transaction tree publishes nothing before the root ends and leaves no entry behind |
| Invalidation.PassedIsOwed | db/database.py:128-161 | merging level by level passes on exactly the users, and the configuration change, registered in transactions whose whole chain committed |
| Invalidation.RunRoot | db/database.py:112-161 | for any tree of savepoints and outcomes the published set is exactly those, and nothing stays pending |
| JsonMerge.MergeChanges | utils/atomic_io.py:25-45 | the recursive loops compute the merge defined key by key, in any order of iteration; that its edits take effect is JsonMergeLaws.EditedPathTakesEffect |
| JsonMergeLaws.MergesWithoutListEdits | utils/atomic_io.py:40-43 | without list edits no latest value makes the merge raise |
| JsonMergeLaws.UneditedKeepsLatest | utils/atomic_io.py:20-45 | an unedited snapshot leaves the latest value untouched |
| JsonMergeLaws.BaselineYieldsEditedIff | utils/atomic_io.py:20-45 | merged into its unchanged baseline a snapshot gives itself, exactly when every edit is visible to the comparison |
| JsonMergeLaws.BaselineYieldsEqual | utils/atomic_io.py:20-45 | without list edits the result equals the snapshot as the source compares values |
| JsonMergeLaws.InvisibleEdit | utils/atomic_io.py:44-45 | an edit of 1 to true is lost |
| JsonMergeLaws.IdempotentIff | utils/atomic_io.py:25-45 | repeating a merge changes nothing, exactly when the snapshot edits no list; otherwise it raises |
| JsonMergeLaws.RepeatedListEdit | utils/atomic_io.py:33-43 | a list edit under a replaced ancestor passes the first time and raises the second |
| JsonMergeLaws.OverwrittenPath | utils/atomic_io.py:33-38 | an unchanged path under a replaced ancestor gets a stale value back |
| JsonMergeLaws.UnchangedPathKeptIff | utils/atomic_io.py:33-39 | an unchanged path keeps the latest value, exactly when its changed ancestors are still objects there or the snapshot has nothing at it |
| JsonMergeLaws.EditedPathTakesEffect | utils/atomic_io.py:25-45 | every path the snapshot changed, an addition, a replacement or a removal, is exactly what the snapshot has there, whatever the latest value has become |
| JsonMergeCommute.DisjointEditsCommute | utils/atomic_io.py:25-45 | without list edits, edits on disjoint paths can be committed in either order, into any latest value: neither order raises and the results compare equal |
| JsonMergeCommute.SameValueIff | utils/atomic_io.py:25-45 | both orders give exactly the same value if and only if the snapshots commute at every key the latest value replaced |
| JsonMergeCommute.VisibleEditsCommute | utils/atomic_io.py:44-45 | snapshots whose every edit the comparison sees always do |
| JsonMergeCommute.OrderShows | utils/atomic_io.py:33-45 | edits on disjoint paths whose order shows |
| FanOut.Batch.Settle | utils/ip_source_api.py:504-545 | a finished task is counted once under its outcome, with its payload, or put back at the head of the queue if deferred, or dropped by a closed gate |
| FanOut.Batch.Collect | utils/ip_source_api.py:501-545 | exactly the unanswered tasks stay in flight, in order |
| FanOut.Batch.Fill | utils/ip_source_api.py:476-498 | requests leave in queue order up to the capacity, within the concurrency, and alone while the breaker is not closed |
| FanOut.CountedIsConsistent | utils/ip_source_api.py:510-545 | the counters are those of the outcomes seen, timeouts and unauthorized ones within the failures |
| FanOut.BrokenIsFailure | utils/ip_source_api.py:506-514 | a lookup that raised, or found itself obsolete while the gate is open, is counted as a failure and nothing else |
| FanOut.GatheredIff | utils/ip_source_api.py:521-524 | a payload is there exactly for the users with a successful lookup, and is that of the last one |
| FanOut.AbsentIff | utils/ip_source_api.py:528-531 | a user is missing exactly if some lookup said so |
| FanOut.Turn | utils/ip_source_api.py:473-545 | a turn stops exactly for a closed gate, a spent waiting budget or nothing left; otherwise a closed breaker lets leave as many as the limit has room for, an open one whose recovery is due a single probe, and else it waits or only settles what is in flight |
| FanOut.WholeOnReply | utils/ip_source_api.py:504-519 | no reply loses or duplicates a target |
| FanOut.FetchAll | utils/ip_source_api.py:383-556 | on every run no target is counted twice, probes are exclusive, payloads and missing users are those of the lookups counted, lookups are given up only when drained, stale, out of waiting budget or cut off, none is while the breaker stays closed and requests are answered, and outcomes plus deferred equal the targets exactly when the gate was open at entry or there were none |
| DailySummary.DecimalGrows | utils/daily_report.py:71 | a larger count never has a shorter decimal |
| DailySummary.DecimalReadsBack | utils/daily_report.py:71 | a count's text reads back as the count, in digits only and without a leading zero |
| DailySummary.SummaryFitsIff | utils/daily_report.py:62-77 | the message is within the limit exactly when header, overflow line of everything and footer are |
| DailySummary.SortedEntries | utils/daily_report.py:67 | the entries are the items of the counts, each once, plain bans first and then by step |
| DailySummary.RenderEntries | utils/daily_report.py:66-77 | the message shows the longest run of entries that each fit when measured, folds the others into their sum, and nothing is lost in between |
| DailySummary.RenderSummary | utils/daily_report.py:62-77 | the same for the sorted entries of the counts, within the limit whenever that is possible |

## Left out

- DispatcherItem.RunKeeps: one send item as a value, so object identity and aliasing are not captured; edits, deletes, shutdown by stop() and its resolution of futures are not modelled.
- DispatcherWorker.QueueItem.Turn: what a turn writes besides the item's state, such as the receipt and the tracked disable message.
- DispatcherStore.StepKeeps: the maps and the file are values; a full queue is not modelled.
- DispatcherScans.NewerScanSilencesOlder: the supersession of one report is one step, since nothing suspends between its chunks.
- JsonMerge.MergeChanges: works on values; the source edits a working copy in place and drops it when it raises. NaN and key order are not modelled.
- DeviceCount.CountDevices: keys are constructors, so a literal address equal to one of the source's sentinel strings cannot collide with them.
- LogObservations.LogObservations.Admit: one clock reading per operation where the source reads the clock several times; a line's SHA-256 identity is taken as injective.
- TopicsState.StepKeeps: marks made without a captured chat are excluded, since they skip the destination check; a write that raises after it replaced the file takes effect at the next reload, where it is one more event.
- MirzaState.FateIsTrue: assumes an honest remote bot: a refused connection, a 429, any other reply below 500 outside 2xx, and a false status mean not accepted, and a true status means accepted.
- MirzaState.StepKeeps: due times and the wording of errors; any ready row may be due at any moment.
- Restore.FileSystem.ApplyBackup: directories, permissions and a killed process; targets are distinct, a private temporary name is never one of them, and nobody else changes the tree.
- Invalidation.Session.Execute: a transaction is named by its depth; an invalidation callback that raises is not modelled.
- FanOut.FetchAll: log lines and durations; payloads are opaque values.
- DailySummary.SortedEntries: a step of -1 would rank with the plain bans, in either order.
- Enforcement.Cycle.Judge: the warning record is its identity and counts; exceptions, the refetch of one user and the punishment itself are outcomes only.
- TokenBucket.Limiter.Consume: real arithmetic, no floating-point rounding.
- Time zones, printed timestamps and calendar boundaries (utils/daily_report.py, utils/log_observations.py): abstract times only.
- Warning counters, punishments, GeoIP and ISP data, handlers, keyboards, CLI and REST endpoints: thin wrappers around the cores above.
- Iteration orders of Python sets and dicts are parameters or arbitrary choices.

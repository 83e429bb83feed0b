# Verified model of the Zagros node agent

The node agent takes signed commands from a panel over the internet, keeps a little durable state
of its own, and must stay right across restarts, failed writes and crashes. This project models
its stateful cores in Dafny and proves what they keep over every run.

Each component is a class whose methods do what the source's methods do, proved against a pure
step function on the component's state; the results are lemmas about runs of those steps.

- `CanonicalRequest`, `ReplayGuard`, `NodeIdentity`, `Admission`: which signed commands are
  admitted. The bounded, pruned, persisted nonce cache is shown to answer like a log that never
  forgets; the pairing state like its own history; and both together admit each signed message at
  most once, under the key that was the latest when its head arrived. A request is two segments,
  around the await of its body.
- `UsageAccounting`, `WireguardUsage`: usage deltas, the persisted cursor, and the driver that keeps
  its cursor under other names.
- `UsageProtocol`, `UsageBalance`, `UsageBytes`, `UsageConservation`, `UsageFailures`: where every
  metered byte goes, in every interleaving of polls, stale readings, traffic, provider resets,
  deleted accounts, replaced drivers, failed saves, lost replies and crashes; byte by byte while no
  provider resets, and in total when providers do; and a run for each way to bill twice or to lose.
- `LifecycleJobs`, `JobProtocol`: lifecycle jobs, one atomic step for each stretch between awaits,
  over every interleaving.
- `IpBans`: panel bans compiled into a timed nftables table with a meaning on packets, for calls
  one at a time and for calls that overlap.
- `AccountsStore`: the account snapshot, an insertion-ordered dict and a stable sort shown to be an
  ordered keyed merge; `Ordering` is the library sort.
- `CoreStateStore`: the sealed core state file as a plain map, whatever point a write stops at.
- `BandwidthLimits`: the desired shaping state and its survival of the sorted file.
- `XrayTls`: the rewrite of an Xray document that installs uploaded TLS pairs.

Time, randomness, the outcome of each write, the clock readings and the answers of drivers are
parameters. HMAC-SHA256 (section 2 of RFC 2104) and SHA-256 are arbitrary functions; the one
assumption about tags is that nobody makes one under an issued key without that key
(`Admission.Unforged`), and it is used only for what was signed, not for admission at most once.
AES-GCM boxes open only under their own key and associated data. Headers, methods and hashes hold
no line break, as HTTP guarantees (`CanonicalRequest.Line`).

## Where the code does less than its text says

- The token is called one-time; the agent passes its configured hash at every start, which arms a
  burned token again (`NodeIdentity.ReopenRearmsBurnedToken`). Tokens are used once per arming
  (`NodeIdentity.OneRegistrationPerArming`).
- Missing and wrong credentials are said to give the same answer. They do not: a signature header
  outside ASCII makes `compare_digest` raise `TypeError`, which is not turned into 401
  (`Admission.WrongSignatureWithout401`). `Admission.RefusedWith401Exactly` and `RunAnswersExactly`
  say for every request which answer it gets.
- A command is checked with the key read before the await of its body. When a revoke, reset or
  register takes effect during that await, the old key still admits it (`Admission.OldKeyStillAdmits`),
  and only then is the admitting key not the latest one
  (`Admission.AdmittedUnderLatestPairingExactly`). The handler of such a command, a
  revoke for one, acts on the new pairing.
- A comment says the usage cursor moves only after delivery; the code writes it before the reply
  leaves, so a reply that does not arrive loses its bytes for good
  (`UsageFailures.LostReplyLosesBytes`). A run loses nothing if and only if no reply with records
  fails to arrive, no read with something to take breaks off, and no crash cuts off a poll with
  records (`UsageBytes.NothingLostExactly`).
- The cursor is there to keep a counter from being billed twice. While no provider resets, bytes
  come to count again in these ways and, among the events of the model, in no others
  (`UsageBytes.AlwaysOnceExactly`):
  - an observation below the tracker: overlapping polls read counters in threads and may observe
    out of order, which bills the whole counter again (`UsageFailures.OverlapBillsTwice`);
  - a tracker emptied while its counter goes on: a core uninstalled without purge and installed
    again gets a new driver with an empty tracker, as baselines are restored at the boot only
    (`ReinstallBillsTwice`); or an account deleted while a poll waits with its reading
    (`ForgetDuringPollBillsTwice`);
  - an observation through a driver that a poll still holds after it was replaced
    (`ReplacedDriverBillsTwice`);
  - a crash over a file that is behind the tracker: after a failed save, a write cut short, a late
    save by an overlapping poll, or a read that broke off (`CrashRebillsTheGap`,
    `FailedSaveBillsTwice`, `LateSaveBillsTwice`).
- WireGuard's driver says its translation of public keys keeps a restart from billing lifetime
  counters again. The boot restores baselines before it restores accounts, so the translation finds
  none and drops every baseline (`WireguardUsage.BootDropsEveryBaseline`, `SurvivesExactlyIfKnown`).
- Calls that install IP bans run in threads. Two that overlap can leave the sum of their sets, or no
  table at all (`IpBans.BothSeeNone`, `BothSeeTable`).
- History eviction ignores whether a job is active: `submit` then raises `KeyError` instead of
  joining or refusing (`JobProtocol.SubmitLosesActiveJob`, `ActiveJobCanBeEvicted`).
- The first load is said to remove plaintext settings; records that also carry a `settings_enc`
  member do not ask for it (`CoreStateStore.PlaintextSurvivesLoad`, and `LoadLeavesPlaintextExactly`
  for all files).
- Applying limits is said to report and never crash. The count in the report raises on a rate that
  is not a number; the push is stored first, and from then on every start raises
  (`BandwidthLimits.BadRateStopsEveryStart`, and `StartRaisesExactly` for all runs).
- The account merge drops records without an id, and its order sentinel of 10**6 can place a new
  account before an old one (`AccountsStore.MergeMeetsSpec` gives the exact condition).

## Model

| member | source | states |
|---|---|---|
| `CanonicalRequest.CanonicalInjective` | node_agent/security.py:238-240 | two commands have the same signed text exactly when they agree on upper-cased method, path, timestamp, nonce and body hash, even when paths hold line breaks |
| `CanonicalRequest.CanonicalWrittenOut` | node_agent/security.py:238-240 | the signed text is the method with each letter raised, path, timestamp, nonce and body hash, one to a line |
| `CanonicalRequest.LineBreakMovesBoundary` | node_agent/security.py:238-240 | with a line break in the timestamp two different commands share one signed text |
| `ReplayGuard.ReplayGuard.Open` | node_agent/security.py:195-208 | a start takes over the file, a missing one as empty, and refuses exactly when the file cannot be read |
| `ReplayGuard.RestartReadsLastAccepted` | node_agent/security.py:202-217 | whatever follows, a restart reads back the memory written by the last accepted call |
| `ReplayGuard.ReplayGuard.Accept` | node_agent/security.py:219-231 | window, nonce form, prune, replay check, record, write: memory, disk and answer |
| `ReplayGuard.AcceptRefinesLog` | node_agent/security.py:219-231 | one call on the pruned cache answers as the unbounded log does and stays in step with it |
| `ReplayGuard.RunRefinesLog` | node_agent/security.py:195-231 | over every run of calls, failed writes and restarts the bounded cache gives the answers of the unbounded log |
| `ReplayGuard.LogIsAcceptedHistory` | node_agent/security.py:195-231 | while writes succeed the log is the accepted commands in order and a restart loses none |
| `ReplayGuard.AcceptsExactlyFresh` | node_agent/security.py:195-231 | a call is accepted exactly when in the window, well formed, and no earlier accepted command with its nonce is still in the window |
| `ReplayGuard.AcceptsWrittenOut` | node_agent/security.py:219-231 | the same in plain arithmetic and character codes: which calls are accepted after any run and which are not |
| `ReplayGuard.NonceCharacters` | node_agent/security.py:223 | the characters a nonce may hold, by code |
| `ReplayGuard.FiveMinutesEitherWay` | node_agent/security.py:198-199 | with the agent's own window a first command is good for 300 seconds either way |
| `ReplayGuard.MemoryStaysWithinDisk` | node_agent/security.py:195-231 | while writes succeed memory is part of disk and the rest of disk has expired |
| `ReplayGuard.CacheBounded` | node_agent/security.py:219-231 | at every point of every run, memory and disk hold only nonces recorded within two windows of the prune they come from, and are no larger than the recordings in that span |
| `ReplayGuard.ClockTurnedBackReplays` | node_agent/security.py:226-227 | with the clock set forward and back an accepted command is accepted again, for every window |
| `NodeIdentity.NodeIdentityStore.constructor` | node_agent/security.py:68-82 | a new file is created with the hash; an existing one only has a different hash replaced |
| `NodeIdentity.NodeIdentityStore.SigningKey` | node_agent/security.py:116-129 | none, the unsealed 32-byte key, or refusal |
| `NodeIdentity.NodeIdentityStore.Register` | node_agent/security.py:132-147 | the token is checked and burned, the key sealed to the node id, and a failed write changes nothing |
| `NodeIdentity.NodeIdentityStore.Revoke` | node_agent/security.py:149-156 | key, panel and time are cleared together, the token is kept |
| `NodeIdentity.NodeIdentityStore.ResetRegistration` | node_agent/security.py:158-171 | key, panel and time are cleared and the new hash is armed |
| `NodeIdentity.KeyOpensExactly` | node_agent/security.py:116-129 | the key is there exactly when the box opens under this node's cipher key and node id |
| `NodeIdentity.RegisterAnswersExactly` | node_agent/security.py:132-147 | success exactly with the pending token and both writes; from the first write on the token is spent and the key given to the panel is the node's |
| `NodeIdentity.FirstStartArmsItsHash` | node_agent/security.py:68-82 | a first start makes an unpaired node with its drawn id, for which exactly the configured token registers |
| `NodeIdentity.OtherCommandsWrittenOut` | node_agent/security.py:68-82 | revoke keeps the token and reset arms the new one, both ending the pairing; a later start changes at most the token |
| `NodeIdentity.RunShowsLatestPairing` | node_agent/security.py:116-171 | in every reachable state key, panel and time are those of the latest effective register or all absent, unsealing never fails, and the node id never changes |
| `NodeIdentity.OneRegistrationPerArming` | node_agent/security.py:68-171 | over any stretch of a run, registrations with a token plus displaced plus pending equal armed plus formerly pending |
| `NodeIdentity.SpentTokenNeedsArming` | node_agent/security.py:132-140 | a token not in the file cannot register until something arms it |
| `NodeIdentity.ReopenRearmsBurnedToken` | node_agent/app.py:64 | reopening with the hash lets any burned token register again; without the reopening it does not |
| `Admission.ControlPlane.Arrive` | node_agent/app.py:264-272 | the segment before the await of the body: headers, key, node id and timestamp, answered at once or suspended with the key it has read |
| `Admission.ControlPlane.Complete` | node_agent/app.py:273-279 | the segment after it: signature under that key, then the replay guard; answer and new cache |
| `Admission.HeadPassesExactly` | node_agent/app.py:264-272 | a head waits for its body exactly when headers, box, node id and timestamp are right, and with that box's key |
| `Admission.SignatureCoversBody` | node_agent/security.py:234-240 | admitted only if the signature is the tag of method, path, timestamp, nonce and the hash of the very body that came; and admitted if it is, in time, fresh and written |
| `Admission.OneBodyPerSignature` | node_agent/app.py:273-277 | under tags that tell texts apart no signature admits two bodies with different hashes |
| `Admission.RefusedWith401Exactly` | node_agent/app.py:264-279 | a request is admitted exactly when acceptable and recorded; otherwise it gets 401 except for an unusable key, a signature outside ASCII under a right address, and a failed write on an acceptable request |
| `Admission.WrongSignatureWithout401` | node_agent/app.py:264-265 | a missing signature gets 401 and a wrong one with a letter outside ASCII does not |
| `Admission.RunAnswersExactly` | node_agent/app.py:257-280 | over every run, with anything between head and body, which request is admitted, which gets 401 and which an error |
| `Admission.CompleteKeepsGuarded` | node_agent/app.py:273-279 | one completion keeps every admitted nonce covered by memory and disk while it could be replayed, and nonces spaced |
| `Admission.StepKeepsSigned` | node_agent/app.py:264-279 | every step keeps: admitted commands were signed, no old signature carries the present key, and a suspended request can only pass for what was signed in the pairing it arrived under |
| `Admission.AdmittedAtMostOnce` | README.md:59-61 | over every run no signed message is admitted twice, whatever happens between heads and bodies |
| `Admission.AdmittedWasSigned` | node_agent/security.py:5-8 | every admitted command was signed with its very fields under the key of the pairing it arrived in, between that pairing and the next |
| `Admission.IdentityFollowsPairingEvents` | node_agent/app.py:257-270 | deliveries and signatures never touch the pairing state |
| `Admission.AdmittedUnderPairingAtArrival` | node_agent/app.py:268-277 | the key of an admitted command is that of the latest effective registration when its head arrived, and the request named this node |
| `Admission.KeyLastsUntilChange` | node_agent/security.py:132-171 | a key is the node's until the first register, revoke or reset that takes effect, and never again |
| `Admission.AdmittedUnderLatestPairingExactly` | node_agent/app.py:268-277 | the admitting key is that of the latest pairing if and only if no register, revoke or reset took effect between head and body |
| `Admission.OldKeyStillAdmits` | node_agent/app.py:268-277 | a run in which a command of the old panel is admitted after a reset and a new registration |
| `Admission.AdmitsExactly` | node_agent/app.py:257-280 | while writes succeed, admission holds if and only if the head's checks hold under the pairing at arrival, the tag fits the body, and at completion the timestamp is in the window and no admitted command with its nonce is |
| `UsageAccounting.KeyDecodes` | node_agent/app.py:698 | a persisted key decodes to its core and account whatever colons the account id holds |
| `UsageAccounting.ZeroRecordsDoNotCount` | node_agent/app.py:648-650 | dropping idle records changes no account's sum |
| `UsageAccounting.DeltaTracker.Observe` | vendor/zagros/app/cores/stats.py:39-46 | non-negative growth since the last reading, a lower counter being a new generation |
| `UsageAccounting.DeltaTracker.GetUsage` | node_agent/app.py:641-648 | the records of the readings a driver observes, in order, and the tracker after them |
| `UsageAccounting.FoundWrittenOut` | vendor/zagros/app/cores/stats.py:22-46 | the i-th record names core and account of the i-th reading and holds its growth on each direction, or the whole of a smaller total |
| `UsageAccounting.ObserveAllWrittenOut` | vendor/zagros/app/cores/stats.py:39-46 | after a read the tracker holds what the last reading showed, and its own totals for accounts not read |
| `UsageAccounting.KeptExactly` | node_agent/app.py:648-650 | exactly the records with bytes in some direction are kept |
| `UsageAccounting.RestartResumesCursor` | vendor/zagros/app/cores/stats.py:49-61 | save, restart, restore, read: the next read bills what it would have billed without the restart |
| `UsageAccounting.UsageAgent.ReadCore` | node_agent/app.py:639-661 | one core's read: deltas collected, idle records dropped, snapshot keyed; a broken read collects nothing |
| `UsageAccounting.ReadWrittenOut` | node_agent/app.py:639-661 | tracker, records and baselines after one read, by account |
| `UsageAccounting.UsageAgent.RuntimeUsage` | node_agent/app.py:628-664 | a whole poll: records returned, trackers moved, file written only when there are baselines |
| `UsageAccounting.UsageAgent.SaveUsageBaselines` | node_agent/app.py:671-684 | the file is overlaid with the new baselines, an unreadable file counting as empty; a failed write leaves it, one cut short ruins it |
| `UsageAccounting.UsageAgent.RestoreUsageBaselines` | node_agent/app.py:687-708 | each installed driver's tracker takes over exactly the totals the file lists for its core, for every file |
| `UsageAccounting.UsageAgent.GroupByCore` | node_agent/app.py:696-701 | grouping by decoded core gives every core its entries, keys without a colon or a core included |
| `UsageAccounting.RestoreGivesLastSaved` | node_agent/app.py:671-708 | after any sequence of saves a restart gives each core exactly the totals last saved for each account |
| `UsageAccounting.FileHoldsLastSaved` | node_agent/app.py:661-683 | after any saves the file holds under core, colon, account what was last saved |
| `WireguardUsage.WireguardDriver.UsageTrackerSnapshot` | vendor/zagros/app/cores/drivers/wireguard/driver.py:1106-1125 | a snapshot lists exactly the known accounts whose key the tracker holds |
| `WireguardUsage.SnapshotWrittenOut` | vendor/zagros/app/cores/drivers/wireguard/driver.py:1106-1125 | a known account is listed exactly when the tracker holds its key, with what it holds |
| `WireguardUsage.WireguardDriver.RestoreUsageBaselines` | vendor/zagros/app/cores/drivers/wireguard/driver.py:1127-1136 | the keys of known accounts take over their totals and no other key changes |
| `WireguardUsage.ResumesWrittenOut` | vendor/zagros/app/cores/drivers/wireguard/driver.py:1127-1136 | a key takes over the total of a known account that has it; a key no known account has stays |
| `WireguardUsage.SurvivesExactlyIfKnown` | vendor/zagros/app/cores/drivers/wireguard/driver.py:1127-1136 | a saved baseline survives a restart if and only if its account is known when the restore runs; else the first read bills the whole counter |
| `WireguardUsage.BootDropsEveryBaseline` | node_agent/app.py:179-180 | the boot restores baselines before accounts, so every WireGuard baseline is dropped |
| `WireguardUsage.SnapshotRestores` | vendor/zagros/app/cores/drivers/wireguard/driver.py:1106-1136 | with the accounts known at both ends a snapshot restores every total it lists |
| `UsageProtocol.SegmentsAreOneRead` | node_agent/app.py:639-661 | read, observe and snapshot without interruption do what one read of the agent does |
| `UsageProtocol.PollIsRuntimeUsage` | node_agent/app.py:628-664 | a poll of installed cores that nothing overlaps does what the agent's poll does: trackers, file and reply |
| `UsageProtocol.BootIsRestore` | node_agent/app.py:687-708 | over every run, what the agent's restore hands a new tracker of an installed core is what the restart leaves it with |
| `UsageFailures.BootIsWireguardRestore` | node_agent/app.py:179-180 | the same for WireGuard's own restore, which finds no accounts |
| `UsageBalance.StepBalances` | node_agent/app.py:628-708 | any event in any state keeps the balance of delivered, waiting, lost and unread bytes, up to what is metered, rewound and reset |
| `UsageBalance.EveryByteIsAccountedFor` | node_agent/app.py:628-708 | over every run, overlapping polls, stale readings, broken reads, failed saves, deleted accounts, replaced drivers, resets and crashes included: billed, lost, waiting and unread are what was metered plus what was rewound less what resets took |
| `UsageBytes.OverbilledExactly` | node_agent/app.py:628-708 | without resets the panel is billed more than was metered if and only if more was rewound than was lost, waits or is unread |
| `UsageBytes.ByteCountsOncePlusRewound` | vendor/zagros/app/cores/stats.py:22-46 | each single byte counts once, and once more for each time it was rewound |
| `UsageBytes.DueExactly` | vendor/zagros/app/cores/stats.py:22-46 | the panel is due each byte once, plus its rewinds, less its losses |
| `UsageBytes.CrashIsSafeExactly` | node_agent/app.py:687-708 | a crash charges no byte twice if and only if no delivered byte lies above the point the restart resumes from |
| `UsageBytes.NoByteIsPassedOver` | vendor/zagros/app/cores/stats.py:22-46 | no byte is skipped: each is in the first baseline, billed, lost, waiting or still unread |
| `UsageBytes.NothingTwiceExactly` | node_agent/app.py:632-635 | without resets no byte counts twice if and only if the rewound bytes of the run come to nothing |
| `UsageBytes.AlwaysOnceExactly` | node_agent/app.py:632-635 | without resets every byte counts once at every point of a run if and only if every observation reads forward through the driver the core still has, no tracker is emptied that has taken something in, and every crash finds the tracker where the restart puts it |
| `UsageBytes.NothingLostExactly` | node_agent/app.py:653-664 | no byte is lost if and only if no undelivered reply has records, no read that breaks off has something to take, and no crash cuts off a poll with records |
| `UsageConservation.FoundBillsOnce` | node_agent/app.py:641-653 | a read bills an account's growth once however often it is listed |
| `UsageConservation.StepKeepsConserving` | node_agent/app.py:628-708 | with resets, every event of a sound run (one poll at a time, crashes over a current file) keeps the balance of billed, undelivered, unread and unsaved bytes |
| `UsageConservation.NeverBilledTwice` | node_agent/app.py:628-708 | over every sound run, resets, failed saves and purged cores included, billed plus undelivered never exceeds metered |
| `UsageConservation.EveryReadingIsBilledOnce` | node_agent/app.py:628-708 | without resets and broken reads billed plus undelivered is exactly the growth from the first baseline to the last reading |
| `UsageFailures.BootRestores` | node_agent/app.py:687-708 | a boot leaves a tracker at exactly what the file holds, and at nothing where the driver cannot name its accounts yet |
| `UsageFailures.CrashRebillsTheGap` | node_agent/app.py:671-708 | a crash makes exactly the gap between tracker and restart point unread again, all of it for a torn file or a driver that cannot name its accounts |
| `UsageFailures.FailedSaveBillsTwice` | node_agent/app.py:681-684 | after a failed save and a crash the next poll bills everything since the last snapshot again |
| `UsageFailures.OverlapBillsTwice` | vendor/zagros/app/cores/drivers/xray/driver.py:942-948 | two overlapping polls that observe out of order bill the whole counter once more, without any restart |
| `UsageFailures.LateSaveBillsTwice` | node_agent/app.py:637-664 | when the older of two overlapping polls saves last, a crash makes delivered bytes unread again |
| `UsageFailures.LostReplyLosesBytes` | node_agent/app.py:653-664 | a reply that does not arrive: its bytes are neither billed nor left to read, also after a crash |
| `UsageFailures.UninstalledIsLeftOut` | vendor/zagros/app/cores/manager.py:229-256 | an uninstalled core is neither restored at a restart nor read by a new poll |
| `UsageFailures.ReinstallBillsTwice` | vendor/zagros/app/cores/manager.py:193-256 | uninstalled without purge and installed again, a core bills every whole counter once more |
| `UsageFailures.ForgetDuringPollBillsTwice` | vendor/zagros/app/cores/drivers/ssh/driver.py:600-621 | an account forgotten while a poll waits with its reading is billed its whole counter once more |
| `UsageFailures.ReplacedDriverBillsTwice` | vendor/zagros/app/cores/manager.py:193-256 | a poll that holds a replaced driver bills on top of the whole counter the new one bills |
| `LifecycleJobs.JobManager.Submit` | node_agent/jobs.py:71-92 | join, conflict, lost record or a fresh queued job, and the whole new state |
| `LifecycleJobs.JobManager.Remember` | node_agent/jobs.py:132-139 | the job is listed and the oldest overflow dropped |
| `LifecycleJobs.JobManager.StartRun` | node_agent/jobs.py:98-99 | a job's first segment changes that job only |
| `LifecycleJobs.JobManager.FinishRun` | node_agent/jobs.py:100-116 | result or error by outcome, and the core taken out of active |
| `LifecycleJobs.JobManager.Recent` | node_agent/jobs.py:126-129 | the clamped newest-first listing |
| `JobProtocol.OneActiveJobPerCore` | node_agent/jobs.py:71-116 | at every point a job is not terminal exactly when it is its core's active entry, evicted or not |
| `JobProtocol.FactoriesRunOnce` | node_agent/jobs.py:91-101 | no coroutine factory is called twice |
| `JobProtocol.JobsMoveForward` | node_agent/jobs.py:95-116 | a step moves at most one job one rank forward and never touches a terminal one |
| `JobProtocol.EndsAsItCameBack` | node_agent/jobs.py:100-116 | a job succeeded exactly when its coroutine returned, was cancelled exactly when its asyncio task was, and failed exactly on timeout or exception, with that value or error, at the time given; the rest of its record stays |
| `JobProtocol.StartsAsQueued` | node_agent/jobs.py:98-99 | a started job is running since the time given and otherwise as it was queued |
| `JobProtocol.FreshJobIsQueued` | node_agent/jobs.py:88-92 | a fresh job is queued with the core, action and time it was submitted with, as its core's active job |
| `JobProtocol.RecordsNameTheirSubmission` | node_agent/jobs.py:74-92 | in every run a record names core, action and time of a submission made under its id |
| `JobProtocol.SubmitAnswers` | node_agent/jobs.py:74-92 | fresh exactly when the core has no live job; else joined when the action is the same, refused when not, with nothing changed |
| `JobProtocol.RunKeepsFields` | node_agent/jobs.py:32-43 | times, result and error are set exactly as the state says |
| `JobProtocol.CleanupRemovesOwnEntry` | node_agent/jobs.py:114-116 | a finished job takes out its own entry and no other, also after eviction |
| `JobProtocol.HistoryIsLastSubmissions` | node_agent/jobs.py:132-139 | history is the last limit submissions without repeats, and a record is present exactly while fewer than limit came after it |
| `JobProtocol.SubmitLosesActiveJob` | node_agent/jobs.py:75-76 | the KeyError occurs exactly when at least limit submissions followed the core's active job |
| `JobProtocol.ActiveForIsLiveJob` | node_agent/jobs.py:122-124 | active_for shows a job if and only if it is its core's, not terminal, and fewer than limit were submitted after it |
| `JobProtocol.ActiveJobCanBeEvicted` | node_agent/jobs.py:131-139 | two cores suffice: while one job runs, the other core's n-th job makes repeating the request raise KeyError exactly when n reaches the limit |
| `JobProtocol.TwoHundredJobsEvict` | node_agent/jobs.py:25 | with the agent's limit the two-hundredth job of the other core makes the difference |
| `JobProtocol.RecentIsNewestFirst` | node_agent/jobs.py:126-129 | recent lists the newest submissions first and its filter drops nothing |
| `IpBans.ManagedPorts` | node_agent/ip_limits.py:13-35 | a port is managed exactly when claimed off loopback, outside accel-ppp-cli, by an enabled readable core, openvpn-clone also for UDP |
| `IpBans.ManagedWrittenOut` | node_agent/ip_limits.py:13-35 | the managed ports by claim: transport udp in any case of letters, loopback and accel-ppp-cli left out, openvpn-clone for UDP besides |
| `IpBans.Script` | node_agent/ip_limits.py:46-75 | the rule set: timed sets by family and port sets |
| `IpBans.GroupHolds` | node_agent/ip_limits.py:47-52 | an address is in its family's set exactly when some row bans it, with the timeout of its latest expiry |
| `IpBans.TimeoutIsLatestExpiry` | node_agent/ip_limits.py:50-52 | the timeout is max(1, floor) of the seconds to the latest expiry |
| `IpBans.RowOrderIrrelevant` | node_agent/ip_limits.py:46-60 | order and repetition of rows do not change the rule set |
| `IpBans.Firewall.MakePlan` | node_agent/ip_limits.py:78-96 | tool missing, nothing active, delete, add or replace, as the table is when the call looks |
| `IpBans.Firewall.CarryOut` | node_agent/ip_limits.py:85-99 | the command on the table as it is by then: table and answer |
| `IpBans.Firewall.Apply` | node_agent/ip_limits.py:78-99 | tool missing, nothing active, delete, replace and failure: table and answer |
| `IpBans.AnswersWrittenOut` | node_agent/ip_limits.py:78-99 | answer and table of a call in every case |
| `IpBans.ActiveConcat` | node_agent/ip_limits.py:83 | the active rows of two lists in a row are those of each |
| `IpBans.DropsExactlyBannedTraffic` | node_agent/ip_limits.py:61-99 | after a successful apply a packet is dropped if and only if its source has a live unexpired ban and its port is managed for its transport |
| `IpBans.DropsWrittenOut` | node_agent/ip_limits.py:13-99 | the same with claims, transports and times written out in letters and microseconds |
| `IpBans.BlockEndsNearExpiry` | node_agent/ip_limits.py:50 | enforcement ends within a second of the latest expiry, not after it unless the ban was under a second |
| `IpBans.TableIsLastSuccess` | node_agent/ip_limits.py:78-99 | after any calls that do not overlap the table is that of the last successful one |
| `IpBans.TableIsMadeOfLoads` | node_agent/ip_limits.py:82-97 | over every interleaving the table's ports are the union, and its end times the outcome, of the loads since it was last replaced or deleted |
| `IpBans.OverlapsAddUp` | node_agent/app.py:527-532 | over every interleaving of calls in threads, a packet is dropped if and only if such a load bans its source unexpired and such a load opens its port |
| `IpBans.BothSeeTable` | node_agent/ip_limits.py:82-97 | of two calls that both see a table the second decides alone, or fails when the first has deleted it |
| `IpBans.BothSeeNone` | node_agent/ip_limits.py:82-97 | two calls that both see no table add up |
| `AccountsStore.AccountsStore.Store` | node_agent/accounts_store.py:48-90 | filter, overwrite or merge, and the file unless the write fails |
| `AccountsStore.KeptExactly` | node_agent/accounts_store.py:56 | an account is kept exactly when its object is in the pushed list |
| `AccountsStore.ObjectsConcat` | node_agent/accounts_store.py:56 | of two lists in a row the filter keeps what it keeps of each |
| `AccountsStore.ObjectsAreKeptWhole` | node_agent/accounts_store.py:56 | a list of objects is kept whole and in order, anything else not at all |
| `AccountsStore.FullPushIsFile` | node_agent/accounts_store.py:78-88 | after a written full push the file is the pushed objects in their order, whatever was before and failed since |
| `AccountsStore.AccountsStore.MergeIncoming` | node_agent/accounts_store.py:58-77 | dict, order map and stable sort in loops |
| `AccountsStore.MergeMeetsSpec` | node_agent/accounts_store.py:58-77 | existing accounts by last position then new ones by first arrival, each once with its latest record, exactly when the sentinel is not outrun |
| `AccountsStore.MergeListsLatest` | node_agent/accounts_store.py:58-77 | a merge lists every id once with its latest record and drops records without one |
| `AccountsStore.MergeConcat` | node_agent/accounts_store.py:53-77 | merging two increments in turn equals merging their concatenation |
| `AccountsStore.MergeTwice` | node_agent/accounts_store.py:53-77 | merging the same increment twice equals once |
| `AccountsStore.SnapshotIsOneMerge` | node_agent/accounts_store.py:48-90 | after any pushes, failed writes among them, the file is the last written full push merged once with the increments written after it |
| `AccountsStore.SmallSnapshotsFit` | node_agent/accounts_store.py:75-76 | with snapshots of at most 1000001 entries the sentinel is never outrun |
| `AccountsStore.MillionthAccountIsOvertaken` | node_agent/accounts_store.py:75-76 | an account last listed past position 1000000 breaks the order as soon as a new one arrives |
| `AccountsStore.ValidatedPushesLoseNothing` | node_agent/app.py:499-514 | through the endpoint the file names an account exactly when the last written full push, or a written increment after it, holds an object with its id |
| `CoreStateStore.NodeCoreStateStore.ReadCores` | node_agent/state.py:41-63 | the file as a map, or refusal of bad JSON or a box that does not open |
| `CoreStateStore.NodeCoreStateStore.WriteCores` | node_agent/state.py:65-79 | part file then replace, stopping anywhere |
| `CoreStateStore.NodeCoreStateStore.LoadCores` | node_agent/state.py:81-97 | read, and rewrite sealed when a record asks for migration |
| `CoreStateStore.NodeCoreStateStore.SaveState` | node_agent/state.py:99-109 | read, change one core, write |
| `CoreStateStore.NodeCoreStateStore.RemoveCore` | node_agent/state.py:111-115 | read, drop one core, write |
| `CoreStateStore.OperationsWrittenOut` | node_agent/state.py:99-115 | what save and remove do to their core, settings given or not, and that no other core changes |
| `CoreStateStore.ReadsAsWrittenOut` | node_agent/state.py:41-63 | what each file reads as: refusals, defaults, boxed and plaintext settings |
| `CoreStateStore.WritesSealedOnly` | node_agent/state.py:65-79 | what is written holds settings only in a box for that core |
| `CoreStateStore.SealedRoundTrip` | node_agent/state.py:41-79 | what is sealed and written reads back whole |
| `CoreStateStore.OpRefinesMap` | node_agent/state.py:81-115 | one operation acts as on a plain map, and a write stopped anywhere leaves exactly the old or the new map |
| `CoreStateStore.RunRefinesMap` | node_agent/state.py:41-115 | over every run the store is the plain map that took the completed operations |
| `CoreStateStore.LoadLeavesPlaintextExactly` | node_agent/state.py:83-92 | plaintext survives a load exactly when there is some and no record asks for migration |
| `CoreStateStore.PlaintextSurvivesLoad` | node_agent/state.py:83-92 | a file whose plaintext a completed load returns and leaves in place |
| `CoreStateStore.MovedBoxIsRefused` | node_agent/state.py:17-19 | settings sealed for one core are refused under another, before anything is written |
| `BandwidthLimits.BuildLimit` | node_agent/limits.py:125-149 | a user's rates and exactly the union of the identities of its listed accounts, or an exception when a rate is not a number |
| `BandwidthLimits.BuildsOneLimit` | node_agent/limits.py:131-149 | the order of account lists cannot change a limit |
| `BandwidthLimits.LimitWrittenOut` | node_agent/limits.py:125-149 | name, rates, addresses and uids of a limit, down to what the driver reports for each listed account |
| `BandwidthLimits.DesiredWrittenOut` | node_agent/limits.py:114-151 | the users limited are those some key reads as, each by the last such entry |
| `BandwidthLimits.RunHoldsLatest` | node_agent/limits.py:67-85 | after any run the file holds the latest written push, sorted, and the limits are the latest push or, after a restart, the file |
| `BandwidthLimits.NodeBandwidthLimiter.Desired` | node_agent/limits.py:114-151 | each user id is decided by the last entry whose key reads as it, or an exception when any entry with an id has a bad rate |
| `BandwidthLimits.NodeBandwidthLimiter.LimitedCount` | node_agent/limits.py:192-197 | the number of limited entries, or an exception at an entry whose evaluated rate is bad |
| `BandwidthLimits.NodeBandwidthLimiter.Apply` | node_agent/limits.py:156-197 | installed, refused or raised, with the pushed limits stored in every case |
| `BandwidthLimits.AnswersWrittenOut` | node_agent/limits.py:156-197 | raised, refused or installed, by the rates of the entries, with the number of entries that limit something |
| `BandwidthLimits.TextOrderWrittenOut` | node_agent/limits.py:82 | the order of keys in the file: the first character that differs decides |
| `BandwidthLimits.FileIsSorted` | node_agent/limits.py:78-85 | the file lists as many entries as were pushed, by key, and the accounts of each by core |
| `BandwidthLimits.StartRaisesExactly` | node_agent/app.py:181-182 | after any run a start raises if and only if the latest written push has an upload that is not a number, or a zero upload and such a download |
| `BandwidthLimits.BadRateStopsEveryStart` | node_agent/limits.py:156-197 | a push that raises, is stored, and makes the next start raise |
| `BandwidthLimits.StoredWinnerHasGreatestKey` | node_agent/limits.py:82 | after a restart the deciding entry is the one with the greatest key |
| `BandwidthLimits.RestartKeepsDesiredIff` | node_agent/limits.py:67-151 | a restart keeps the desired state exactly when last pushed and greatest key of every user build the same limit |
| `BandwidthLimits.RestartKeepsDesired` | node_agent/limits.py:67-151 | when no two keys read as one id a restart changes nothing |
| `BandwidthLimits.RestartRollsBackToLastWritten` | node_agent/limits.py:67-163 | after any run of pushes and failed writes a restart means what the latest written push meant, if and only if its last and greatest keys agree |
| `BandwidthLimits.CollisionChangesLimit` | node_agent/limits.py:118-150 | two keys reading as one id can change the rates at a restart |
| `XrayTls.CheckMaterial` | node_agent/app.py:814-827 | count, names, item and total size are all within bounds |
| `XrayTls.XrayHost.MaterializeCerts` | node_agent/app.py:846-888 | one inbound's entries in order: files, consumed names and rewritten entries |
| `XrayTls.XrayHost.Materialize` | node_agent/app.py:804-892 | the whole materialisation: files and result |
| `XrayTls.SucceedsExactly` | node_agent/app.py:814-892 | success exactly when limits and directory are right, every visited entry is acceptable and every upload is named |
| `XrayTls.AcceptedExactlyIfRight` | node_agent/app.py:846-876 | an entry is accepted exactly when it is no object, names no upload, or names one stem as certificate and key, both sent and valid together |
| `XrayTls.SucceedsWrittenOut` | node_agent/app.py:814-892 | success with limits, directory, entries and naming written out |
| `XrayTls.InstalledWereValidated` | node_agent/app.py:865-888 | the texts a success writes for an entry are those the validator accepted together, in their two files with modes 0o644 and 0o600 |
| `XrayTls.PathsWrittenOut` | node_agent/app.py:877-888 | a file goes to the directory's components, each after a slash, and the name |
| `XrayTls.Utf8SizeWrittenOut` | node_agent/app.py:822 | the size of a text, character by character |
| `XrayTls.ConsumesExactlyMaterial` | node_agent/app.py:838-892 | what the document names is what was sent, each upload is in its own file with its text and mode inside the directory, and no other path changed |
| `XrayTls.NamesApart` | node_agent/app.py:877-885 | final names of different uploads differ and none is another's part name |
| `XrayTls.NoReferenceLeft` | node_agent/app.py:846-888 | no visited entry of the result names an upload |
| `XrayTls.ChangesOnlyReferences` | node_agent/app.py:837-892 | only the two references of matched pairs change |
| `XrayTls.ResultIsFixpoint` | node_agent/app.py:804-892 | rerun on the result with nothing uploaded, nothing changes |

## Left out

- Admission.AdmittedAtMostOnce: asks for a clock that does not run backwards (`ReplayGuard.ClockTurnedBackReplays` shows why); a message is known by its body hash, not its body.
- Admission.AdmittedWasSigned: asks for fresh keys at registration and unforged tags; a tag is unforged when its request arrives.
- Admission.ControlPlane.Complete: what the handler does with an admitted command, except that it may change the pairing; the query string is not signed by the source and not part of the model; method case folding is that of ASCII; the integer parser is arbitrary.
- ReplayGuard.RestartReadsLastAccepted: the file does not turn corrupt while the agent runs; it is replaced whole.
- UsageBytes.AlwaysOnceExactly: for stretches in which no provider resets, from a boot with the core installed; a lost byte counts as counted, `UsageBytes.DueExactly` takes losses off.
- UsageConservation.StepKeepsConserving: for sound runs, see the next line.
- UsageConservation.NeverBilledTwice: with provider resets the bound is proved for polls that do not overlap and for crashes over a current file; `UsageBalance.EveryByteIsAccountedFor` is exact for all runs. Session-based drivers (OpenVPN, SoftEther) keep other trackers.
- UsageConservation.EveryReadingIsBilledOnce: for sound runs without resets and broken reads; `UsageBytes.AlwaysOnceExactly` covers overlapping polls and broken reads.
- UsageAccounting.UsageAgent.RestoreUsageBaselines: the key "core" and the key "core:" in one file hide each other, and nothing is said of that account; the agent writes only the second form.
- UsageAccounting.DeltaTracker.GetUsage: how each driver maps provider counters to tracker keys; an account stands for a tracker key.
- WireguardUsage.SurvivesExactlyIfKnown: accounts keep their keys and share none.
- LifecycleJobs.JobManager.Submit: the job id is new, as a UUID is. A task cancelled before its first segment and exceptions that end the process are not modelled.
- IpBans.Script: the text of the script, address parsing and date parsing; times are whole microseconds, which datetime arithmetic keeps exact for bans shorter than about 285 years.
- IpBans.Firewall.CarryOut: nft takes a script whole or not at all; whether adding an element renews its timeout differs between kernels and is a parameter; conntrack and driver session cleanup are not modelled.
- AccountsStore.AccountsStore.Store: one core's file; the mapping of core ids to file names is not modelled.
- CoreStateStore.NodeCoreStateStore.ReadCores: records have the member types the store itself writes.
- BandwidthLimits.BuildLimit: addresses and uids arrive parsed; account lists of unexpected types are not modelled.
- BandwidthLimits.NodeBandwidthLimiter.Apply: whether the reconcile step on the host goes through is a parameter; of the report only the count is modelled.
- XrayTls.XrayHost.Materialize: members of unexpected types that raise AttributeError are not modelled; the PEM validator is an arbitrary predicate.
- Two processes writing one data directory at once: the source's locks are local to a process.
- HTTP routing, the decoding of request bodies, the info server, the CLI, TLS certificate generation, the audit log, core lifecycle beyond which driver a core has, and the drivers' own behaviour.
- Boot-time replay of stored accounts into the drivers, and the lifecycle endpoint's wait loop: each is settled by one function.

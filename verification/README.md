# Verification of the update, metering, billing and recovery protocols

A Dafny model of the parts of the system whose correctness is a matter of whole runs: the Agent update
protocol between Go updaters and the controller, the metering of traffic from the core's counters to the
charged account, the arithmetic and counters of billing, and two recovery machines. `dafny verify
dfyconfig.toml` checks everything.

## How it is modelled

- **State machines.** A protocol is a total function from a state and a step to a state; a step that is not
  enabled changes nothing. A run is any sequence of steps, so a theorem about `Replay` covers every
  interleaving, every lost, late or repeated message, and, because each step is one durable write, a crash at
  any point.
- **Programs.** Code that changes things step by step is a class with the source's fields. Its methods do the
  writes one at a time, choose failures and outcomes nondeterministically, and enter each durable step in a
  ghost log; `Valid` says that replaying the log gives the present state. What is proved of runs therefore
  holds at every point of every call. `Meanwhile` stands for everything others do in between. A flag
  (`reliable`, `alone`, `calm`) switches faults or interference off, for what a method promises when nothing fails.
  Where a decision hangs on what the surroundings answer (downloads, restarts, health checks, the mail server), the
  answers are kept in a ghost record that only the methods asking for them extend, and the contracts are stated
  against it.
- **Errors** are values of `Option`, `Answer` or a boolean result; a failed write may or may not have happened.

| file | contents |
|---|---|
| AgentUpdateContract, AgentController | the status table, and rollouts, polls and reports on the controller |
| UpdateProtocol, AgentUpdater | one job between updater and controller, and the updater program |
| UpdateFleet | all machines, jobs and messages together; it refines UpdateProtocol job by job |
| UpdateEndings | which jobs can still end: the exact condition, and the runs that end them |
| UpdateProgress | the same for the whole fleet: how it runs into the fault, and exactly when it is stuck |
| SiteRestore, BackupService | full-site restore with its safety backup, and the service's code |
| TrafficCharging | the charging loop over mutable rows |
| TrafficMetering, XrayAgent | claim, persistence, import and acknowledgement of counter batches |
| UpgradeCredit | prorated upgrade credit and chains of upgrades |
| UtcCalendar, PlanTerms | UTC month arithmetic; renewals, codes and the granted term |
| RedemptionCodes | counted codes under concurrent transactions |
| CampaignMail | campaign deliveries, workers and the mail server |
| EpayAmount | the printer and the parser of amounts |
| Options, Numbers | a value that may be missing, exact integers |

## What was found

- **A refused report.** Reports are not always accepted. When `rollback` can save its intent neither at once
  nor in its deferred handler, but its best-effort ROLLING_BACK report arrives
  (`ops/agent-updater/main.go:265-277`), the journal stays in a forward phase while the controller shows
  ROLLING_BACK. A report is refused exactly in a state that is `Torn` (`UpdateProtocol.ReportRefusedIffTorn`), and
  the fault is the only way there (`UpdateProtocol.JournalledRunsStayInStep`).
- **A fleet that stops.** What follows depends on the phase. Torn in CHECKING, a candidate that proves healthy ends
  in a local SUCCEEDED that is refused for ever (`UpdateProtocol.TornSuccessHappens`,
  `UpdateProtocol.TornSuccessIsForever`). Torn in INSTALLING, which is where a failed check after the switch rolls
  back, a candidate that turns healthy stays in LOCAL_HEALTHY, since CHECKING is refused, and can only be rolled back
  (`UpdateEndings.EarlyTearHappens`, `UpdateEndings.EarlyTearNeverSucceeds`). A job that cannot end keeps the only
  slot, so no other job of the fleet starts (`UpdateFleet.TornSuccessStopsTheFleet`). Exactly when: on machines that
  can read the binary they run, the job in flight can end, without a file coming back by itself, if and only if its
  machine does not hold it without a way out (`UpdateProgress.StuckIffNoWayOut`). Without a way out (`MayEnd` false)
  is a torn SUCCEEDED, and a job that has to go back while its old binary is gone: in ROLLING_BACK, torn before
  SUCCEEDED, or in INSTALLING without its candidate. Without the fault only a missing old binary is left
  (`UpdateProgress.FaultlessFleetsGoOn`). Any fleet with a machine that trusts a release can run into both tears
  (`UpdateProgress.TornSuccessHappensToFleets`, `UpdateProgress.EarlyTearHappensToFleets`).
- **A stranded restore.** A worker that stops between claiming a restore and writing the maintenance file leaves
  a request that `recoverInterruptedRestore` refuses at every start and that blocks new requests; the live site is
  intact (`SiteRestore.AbandonedHappens`, `SiteRestore.AbandonedForEver`, `BackupService.Backups.KeepTrying`).
- **A rollback that removes.** When swapping the directories fails half way, the loop that puts them back removes
  every live directory first, also those that had not been moved aside
  (`apps/api/src/backups/backup.service.ts:620-628`). Nothing is lost exactly when no directory existed from the
  one on where the swap stopped (`BackupService.Backups.ReplaceSite`, `SiteRestore.PutBackLosesTheRest`,
  `SiteRestore.HalfwaySwapLosesThree`). They come back only with the safety backup, which the recovery restores
  before maintenance mode is lifted.
- **The metering window.** Bytes are lost only between the resetting query and the rename of the state file: a
  user's metering is exact if and only if no step of the run discarded a byte of that user there
  (`TrafficMetering.MeteringIsExactIff`); and it happens (`TrafficMetering.LossHappens`).
- **Month drift.** Only the anchor day keeps renewals from drifting after a short month; the exact condition is
  `UtcCalendar.UnanchoredMonthsDrift`.
- **Amounts above nine digits of yuan** are printed for the gateway and refused when they come back
  (`EpayAmount.PrintedIsReadBack`).

## Model

| member | source | states |
|---|---|---|
| AgentUpdateContract.ReportsNeverGoBack | apps/api/src/agent-updates/agent-update.contract.ts:37-52 | whatever statuses are reported, in any order and number, a job only moves towards a terminal state and stays there |
| AgentUpdateContract.ReportTable | apps/api/src/agent-updates/agent-update.contract.ts:37-52 | which reports a status takes: itself; one rank forward; success only from CHECKING; a rollback from INSTALLING or CHECKING; failure and the end of a rollback until the job is over |
| AgentController.RunsKeepTheFleet | apps/api/src/agent-updates/agent-updates.service.ts:340-502 | after every interleaving of creations, cancellations, polls and reports: each rollout is a SUCCEEDED prefix, at most one job that is in flight or failed, then a suffix wholly QUEUED or wholly CANCELED; a rollout is SUCCEEDED exactly when all its jobs are; at most one job of the fleet is in flight; at most one active job per installation |
| AgentController.IdleFleetCanProceed | apps/api/src/agent-updates/agent-updates.service.ts:362-396 | while nothing is in flight, a running rollout has exactly one job a poll starts, so the fleet cannot block itself |
| AgentController.CreateAccepts | apps/api/src/agent-updates/agent-updates.service.ts:221-293 | accepted are exactly the repetition of the request stored under the key, and a new one whose checks pass, with distinct targets none of which has an unfinished job |
| AgentController.CreateStores | apps/api/src/agent-updates/agent-updates.service.ts:263-293 | an accepted new request stores one queued, active job for every target, in their order, and nothing else changes; a repetition changes nothing |
| AgentController.CreateRepeats | apps/api/src/agent-updates/agent-updates.service.ts:228-247 | the request that created a rollout is answered again whatever became of its jobs; any other under its key is a conflict |
| AgentController.CancelStores | apps/api/src/agent-updates/agent-updates.service.ts:295-324 | a cancellation is refused exactly for an unknown or succeeded rollout; it cancels and frees exactly the queued jobs |
| AgentController.PollStores | apps/api/src/agent-updates/agent-updates.service.ts:355-404 | a queued job starts exactly when its rollout runs, nothing of the fleet is in flight and every earlier job succeeded; nothing but that status changes |
| AgentController.ReportAccepts | apps/api/src/agent-updates/agent-updates.service.ts:422-443 | the exact condition under which a report is accepted |
| AgentController.ReportStores | apps/api/src/agent-updates/agent-updates.service.ts:444-485 | the stored status, the freed installation, PAUSED and an emptied queue after a failure or rollback, SUCCEEDED after the last success, and nothing for a job that is over |
| AgentController.SplitIsUnique | apps/api/src/agent-updates/agent-updates.service.ts:461-485 | the in-flight job of a rollout is the one at the split between succeeded and waiting jobs |
| AgentController.CreateKeeps | apps/api/src/agent-updates/agent-updates.service.ts:221-293 | a new rollout keeps every fleet invariant |
| AgentController.DropKeeps | apps/api/src/agent-updates/agent-updates.service.ts:301-313 | canceling the queue of a rollout keeps every fleet invariant |
| AgentController.CancelKeeps | apps/api/src/agent-updates/agent-updates.service.ts:295-324 | cancellation keeps every fleet invariant |
| AgentController.StartKeepsRollout | apps/api/src/agent-updates/agent-updates.service.ts:382-395 | starting the first unfinished job keeps the order of its rollout |
| AgentController.StartKeepsFleet | apps/api/src/agent-updates/agent-updates.service.ts:366-395 | starting a job when none is in flight leaves exactly that one in flight |
| AgentController.PollKeeps | apps/api/src/agent-updates/agent-updates.service.ts:340-406 | a poll keeps every fleet invariant |
| AgentController.ReportKeepsRollout | apps/api/src/agent-updates/agent-updates.service.ts:444-485 | a stored report and its effect on the rollout keep the order of the rollout |
| AgentController.ReportKeeps | apps/api/src/agent-updates/agent-updates.service.ts:422-501 | a report, honest or not, keeps every fleet invariant |
| AgentController.AgentUpdates.CreateRollout | apps/api/src/agent-updates/agent-updates.service.ts:221-293 | creates one queued job for every target in the given order and changes no other rollout, accepts a new key exactly when release, targets and their jobs allow it, replays the same request, and refuses everything else unchanged |
| AgentController.AgentUpdates.CancelRollout | apps/api/src/agent-updates/agent-updates.service.ts:295-324 | cancels exactly the queued jobs and the rollout; a succeeded rollout is refused |
| AgentController.AgentUpdates.DropQueued | apps/api/src/agent-updates/agent-updates.service.ts:301-309 | in place, exactly the queued jobs of one rollout become canceled and inactive |
| AgentController.AgentUpdates.Poll | apps/api/src/agent-updates/agent-updates.service.ts:355-404 | hands out the active job of the installation, starting it only when the fleet is free and all earlier jobs succeeded |
| AgentController.AgentUpdates.ReportStatus | apps/api/src/agent-updates/agent-updates.service.ts:422-501 | stores an acceptable report, pauses and drains the rollout on failure, closes it on the last success, and refuses everything else unchanged |
| UpdateProtocol.ReportRefusedIffTorn | ops/agent-updater/main.go:202-208 | in every reachable state, the controller refuses the report the updater has to make exactly when a rollback was announced that the journal does not know of |
| UpdateProtocol.JournalledRunsStayInStep | ops/agent-updater/main.go:264-277 | while every announced rollback is journalled first, status and phase stay in the fixed relation and no report is ever refused, across crashes and lost, late or repeated messages |
| UpdateProtocol.LinkAgreesWithJournal | ops/agent-updater/main.go:296-403 | in every reachable durable state the Agent link, the linked file and current.json agree with the journalled phase |
| UpdateProtocol.NextKeeps | ops/agent-updater/main.go:187-403 | each durable write, exchange, loss, delivery and crash keeps the relation of the two machines |
| UpdateProtocol.TerminalAgrees | ops/agent-updater/main.go:391-401 | once the terminal report is accepted the controller shows it, and the link is the candidate on success and the old binary otherwise |
| UpdateProtocol.NextReportAccepted | ops/agent-updater/main.go:190-208 | every report due in a state that is not torn is accepted |
| UpdateProtocol.JournalNeverGoesBack | ops/agent-updater/main.go:296-403 | over every run the journalled phase only moves towards a terminal one, and a cleared job is never taken up again |
| UpdateProtocol.UnjournalledNoticeTears | ops/agent-updater/main.go:265-277 | an announced rollback whose intent was not saved tears the two machines apart as soon as it arrives |
| UpdateProtocol.TornSuccessIsForever | ops/agent-updater/main.go:391-394 | a torn job that succeeded locally is refused for ever, whatever follows |
| UpdateProtocol.TornSuccessHappens | ops/agent-updater/main.go:265-277 | from every new trusted job on an idle machine there is a run with both saves failing that ends so |
| UpdateProtocol.InstallHappens | ops/agent-updater/main.go:299-376 | from the moment a machine takes a job up, a run without faults reaches CHECKING on both machines |
| UpdateProtocol.TearHappens | ops/agent-updater/main.go:265-277 | and a run with both saves of the intent failing reaches a local success the controller refuses |
| UpdateEndings.EndHappens | ops/agent-updater/main.go:296-403 | from every state with a way out, torn or not, there is a run to the end: terminal status on the controller, no journal on the machine |
| UpdateEndings.EndsIffAWayOutIsLeft | ops/agent-updater/main.go:264-403 | on a machine that can read the binary it runs, a held job can end without a file coming back exactly when a way out is left: a torn job, and one whose candidate is gone, needs the old binary; a torn success has none |
| UpdateEndings.StuckForEver | ops/agent-updater/main.go:264-403 | a job without a way out stays held and in flight over every run in which no file comes back |
| UpdateEndings.OnlyTornSuccessIsStuck | ops/agent-updater/main.go:265-277 | with the old binary in place, and even if files come back, a job can end exactly when it is not a torn success |
| UpdateEndings.EarlyTearHappens | ops/agent-updater/main.go:265-277 | a taken-up job can be torn in INSTALLING and go on to LOCAL_HEALTHY while the controller shows ROLLING_BACK |
| UpdateEndings.EarlyTearNeverSucceeds | ops/agent-updater/main.go:367-376 | such a job never passes LOCAL_HEALTHY on any run: CHECKING is refused from then on, and all it can do is roll back |
| AgentUpdater.Updater.Execute | ops/agent-updater/main.go:296-403 | terminates; when it does not fail the job is settled: journal cleared, receipt written, terminal status shown, link and files accordingly. Against the record of what downloads, restarts and health checks answered: the job has succeeded exactly when its candidate passed every check that was left, a rollback ends with the old Agent restarted and healthy; and when nothing fails the call does not fail, FAILED is exactly an artifact that is not the signed one, and a rollback follows an answer against the candidate |
| AgentUpdater.Updater.Tick | ops/agent-updater/main.go:404-465 | resumes the journal or takes the polled job; a job that has succeeded passed its checks in this call or had succeeded before; a job that is handed out is settled, or failed when its manifest is untrusted, and without faults the call does not fail; otherwise nothing changes |
| AgentUpdater.Updater.Advance | ops/agent-updater/main.go:202-208 | reports first and saves the phase afterwards: whenever the phase has moved, the report was accepted |
| AgentUpdater.Updater.Report | ops/agent-updater/main.go:190-201 | an acknowledged report has been accepted by the controller; whenever the running hash can be read, the report is sent with it |
| AgentUpdater.Updater.Save | ops/agent-updater/main.go:187-189 | the journal is the new one or the old one, whatever the answer |
| AgentUpdater.Updater.FetchArtifact | ops/agent-updater/main.go:209-245 | a fetched artifact is in place and has the signed hash; one already stored is not downloaded; without faults the result is Invalid exactly when what arrived has another hash |
| AgentUpdater.Updater.SwitchLink | ops/agent-updater/main.go:246-263 | the link is the new target or the old one, and the new one when it succeeds |
| AgentUpdater.Updater.Rollback | ops/agent-updater/main.go:264-295 | on success the old binary, whose hash was checked, is linked, was restarted and found healthy, is recorded, and ROLLED_BACK is journalled; a failure leaves the job journalled and ROLLING_BACK reported |
| AgentUpdater.Updater.RestoreOld | ops/agent-updater/main.go:278-292 | on success the link names the old binary, which has its recorded hash, its restart and health check were answered well, and current.json says so |
| AgentUpdater.Updater.DownloadStage | ops/agent-updater/main.go:299-312 | an interrupted download leaves the journal; FAILED is journalled exactly when what arrived is not the signed artifact, and otherwise the job advances |
| AgentUpdater.Updater.VerifyStage | ops/agent-updater/main.go:313-324 | only a stored file with the signed hash lets the job advance; without faults such a file does |
| AgentUpdater.Updater.TryCandidate | ops/agent-updater/main.go:333-346 | true exactly when the answers install the candidate: a good check where it runs already, or, after the link was switched, a restart and a good check |
| AgentUpdater.Updater.Install | ops/agent-updater/main.go:325-361 | a candidate that cannot be read or has another hash is rolled back untried, any other is tried; LOCAL_HEALTHY is journalled only after a good check, and without faults ROLLED_BACK only after an answer against it |
| AgentUpdater.Updater.InstallStage | ops/agent-updater/main.go:325-361 | LOCAL_HEALTHY is journalled only after the answers that install the candidate, linked and recorded; ROLLED_BACK only after other answers, with the old Agent restarted and healthy, and without faults only after answers that refute it |
| AgentUpdater.Updater.HealthyStage | ops/agent-updater/main.go:367-376 | asks for one health check of the candidate; CHECKING follows exactly from a good one, and from a bad one ROLLED_BACK with the old Agent restarted and healthy |
| AgentUpdater.Updater.CheckStage | ops/agent-updater/main.go:377-390 | asks for one health check of the candidate; SUCCEEDED is journalled only after a good one and nothing else, ROLLED_BACK after a bad one with the old Agent restarted and healthy |
| AgentUpdater.Updater.ClearJournal | ops/agent-updater/main.go:395-400 | the receipt is written before the journal is removed |
| AgentUpdater.Updater.RefuseJob | ops/agent-updater/main.go:448-455 | a job whose manifest does not verify is reported FAILED and nothing is written; without faults the report is accepted |
| AgentUpdater.Updater.RollbackFailed | ops/agent-updater/main.go:265-273 | a failed rollback tries to save the journal again and then reports ROLLING_BACK, if the running hash can be read |
| UpdateProtocol.StampIs | ops/agent-updater/main.go:168-186 | the reported hash is that of the file the link leads to; the version is the recorded one only when the record is of that file |
| UpdateFleet.SharesAreSteps | apps/api/src/agent-updates/agent-updates.service.ts:340-501 | each happening of the whole system is, for every job, a few steps of that job's protocol run: the fleet refines the single-job protocol |
| UpdateFleet.JobsRunTheProtocol | apps/api/src/agent-updates/agent-updates.service.ts:340-501 | every job in every history of the whole system is in a state its own protocol reaches from a fresh job |
| UpdateFleet.EveryHistoryIsSound | apps/api/src/agent-updates/agent-updates.service.ts:422-443 | in every history of controller, machines and mail, fleet invariants and the relation of every job's two machines hold together |
| UpdateFleet.FaultlessHistoriesStayInStep | ops/agent-updater/main.go:202-208 | without the rollback fault, every job on every machine stays in step and none of its reports is refused |
| UpdateFleet.TornSuccessStopsTheFleet | apps/api/src/agent-updates/agent-updates.service.ts:364-381 | after the fault the torn job keeps the only slot for ever: no other job of the fleet is ever in flight again |
| UpdateProgress.RunHappens | apps/api/src/agent-updates/agent-updates.service.ts:340-501 | every run of one job by its machine is a history of the whole fleet, in which no other job enters or leaves flight |
| UpdateProgress.TornSuccessHappensToFleets | ops/agent-updater/main.go:265-277 | any fleet with a machine that trusts a release has a history into the fault |
| UpdateProgress.EarlyTearHappensToFleets | ops/agent-updater/main.go:265-277 | and one into the earlier tear |
| UpdateProgress.StuckIffNoWayOut | apps/api/src/agent-updates/agent-updates.service.ts:362-396 | in a fleet whose machines can read the binary they run, after every history, faulty or not, the job in flight can still be over without a file coming back if and only if its machine does not hold it without a way out |
| UpdateProgress.TheJobInFlightCanEnd | apps/api/src/agent-updates/agent-updates.service.ts:362-396 | the continuation that ends it, also when its machine never got the answer or still holds a job that is over; nothing is in flight after it |
| UpdateProgress.StuckJobsStay | apps/api/src/agent-updates/agent-updates.service.ts:362-396 | a job held without a way out keeps the only slot in every continuation in which no file comes back |
| UpdateProgress.FaultlessFleetsGoOn | apps/api/src/agent-updates/agent-updates.service.ts:362-396 | without the fault the continuation exists, and is again without the fault, unless the job has to go back to an old binary that is gone |
| UpdateProgress.EventHappens | apps/api/src/agent-updates/agent-updates.service.ts:422-443 | every machine event and every delivery of a held job is a happening of the fleet |
| SiteRestore.SiteIsNeverMixed | apps/api/src/backups/backup.service.ts:362-474 | over every run, with crashes at any step and repeated rollbacks, whenever maintenance mode is off the database and all directories are one whole site |
| SiteRestore.RestoreIsAllOrNothing | apps/api/src/backups/backup.service.ts:563-640 | after one claimed restore a server out of maintenance mode shows exactly the target when the request says SUCCEEDED, and exactly the site from before otherwise |
| SiteRestore.NextKeepsSound | apps/api/src/backups/backup.service.ts:362-474 | every durable step keeps the safety backup equal to the site users last saw |
| SiteRestore.PutBackLosesTheRest | apps/api/src/backups/backup.service.ts:620-628 | putting back after a swap that stopped half way loses nothing exactly when no directory existed from the stopping point on |
| SiteRestore.HalfwaySwapLosesThree | apps/api/src/backups/backup.service.ts:620-628 | four complete directories and a stop after the first: three are gone |
| SiteRestore.AbandonedHappens | apps/api/src/backups/backup.service.ts:366-377 | a worker that stops right after its claim leaves a running request without a maintenance file |
| SiteRestore.AbandonedForEver | apps/api/src/backups/backup.service.ts:408-420 | whatever anybody but that worker does, the claim stays and the site is whole |
| BackupService.Backups.RestoreBackup | apps/api/src/backups/backup.service.ts:563-640 | on success the live site is exactly the target and the maintenance file says completed |
| BackupService.Backups.EnterMaintenance | apps/api/src/backups/backup.service.ts:564-576 | target validated, safety backup taken, then the maintenance file, in that order |
| BackupService.Backups.ReplaceSite | apps/api/src/backups/backup.service.ts:583-632 | directories and database together become the target; otherwise, if putting back goes well, the first directories up to where the swap stopped are as before and the rest missing, which is as before exactly when the rest did not exist |
| BackupService.Backups.SwapIn | apps/api/src/backups/backup.service.ts:611-618 | in place, every live directory becomes the staged one and goes aside; on failure the first ones are aside and the rest untouched |
| BackupService.Backups.SwapBack | apps/api/src/backups/backup.service.ts:620-630 | when nothing goes wrong the live directories become exactly those put aside, the others being removed |
| BackupService.Backups.RestoreSafetyBackup | apps/api/src/backups/backup.service.ts:728-774 | on success the live site is exactly the safety backup; it may be repeated after any failure |
| BackupService.Backups.RestoreDatabase | apps/api/src/backups/backup.service.ts:711-726 | in one transaction: the dump on success, the dump or the old database on failure |
| BackupService.Backups.Recover | apps/api/src/backups/backup.service.ts:408-474 | finishes or undoes an interrupted restore and says which in the request: undone, the site is exactly the safety backup, otherwise it is left as it is; refuses for ever a request claimed before the maintenance file was written |
| BackupService.Backups.KeepTrying | apps/api/src/backups/backup.service.ts:331-474 | any sequence of restarts, requests, polls and writes leaves a stranded server stranded, every restart and request being refused |
| BackupService.Backups.RequestRestore | apps/api/src/backups/backup.service.ts:331-360 | queues a restore only out of maintenance mode, for a stored backup, and while none is queued or running; without faults exactly then |
| BackupService.Backups.ProcessPendingRestore | apps/api/src/backups/backup.service.ts:362-406 | leaves no maintenance mode and a final status when it does not fail, and restores the target when nothing fails |
| BackupService.Backups.FinishRestore | apps/api/src/backups/backup.service.ts:379-388 | the request says SUCCEEDED before maintenance mode is lifted |
| TrafficCharging.ApplyUserTraffic | apps/api/src/domain/control-plane.store.ts:1943-2005 | changes the subscription and pack rows in place to exactly the declared charge |
| TrafficCharging.ChargePacks | apps/api/src/domain/control-plane.store.ts:1977-2005 | the loop, with its early exit, leaves every pack as declared |
| TrafficCharging.ChargePack | apps/api/src/domain/control-plane.store.ts:1986-2004 | one round of the loop takes the minimum from one pack and sets its status |
| TrafficCharging.AllowanceGoesFirst | apps/api/src/domain/control-plane.store.ts:1955-1975 | the unused part of included and bonus bytes together is consumed first; packs see only what is left over, and inactive ones nothing |
| TrafficCharging.ChargeTakesTheMinimum | apps/api/src/domain/control-plane.store.ts:1955-2005 | a charge takes exactly the smaller of the bytes used and all that is left |
| TrafficCharging.TouchedInOrder | apps/api/src/domain/control-plane.store.ts:1977-2001 | a pack is touched only when every earlier source is drained, and a touched one is EXHAUSTED exactly when nothing remains |
| TrafficCharging.ChargesAdd | apps/api/src/domain/control-plane.store.ts:1955-2005 | charging twice is charging the sum once |
| TrafficCharging.ChargesCommute | apps/api/src/domain/control-plane.store.ts:1955-2005 | the order of two charges does not matter |
| TrafficMetering.EveryByteIsChargedOnce | ops/xray-agent/main.go:414-459 | over every interleaving of metering, claims, failures, restarts, replayed imports and acknowledgements: every persisted batch is imported or still pending, metered bytes are in the core, waiting, imported or lost in the collect-before-persist window, and each account equals one single charge of all imported bytes |
| TrafficMetering.LossFreeRunsAreExact | ops/xray-agent/main.go:424-438 | a run without a step in that window is exact for every user |
| TrafficMetering.MeteringIsExactIff | ops/xray-agent/main.go:424-438 | over every run the bytes of a user are in the core, waiting or imported if and only if no step of the run discarded a byte of that user in that window |
| TrafficMetering.LossHappens | ops/xray-agent/main.go:424-428 | a query that resets the counters and whose answer is lost loses the bytes |
| TrafficMetering.NextKeepsAgent | ops/xray-agent/main.go:414-531 | memory, state file and copies of batches agree after every step |
| TrafficMetering.NextBalances | ops/xray-agent/main.go:414-459 | every step keeps the balance of one user's bytes |
| TrafficMetering.NextCharges | apps/api/src/domain/control-plane.store.ts:1826-1916 | an import keeps every account equal to one charge of what was credited |
| XrayAgent.CollectTraffic | ops/xray-agent/main.go:461-497 | the collected map has exactly the listed users, with the last counter of each direction |
| XrayAgent.CollectedOnce | ops/xray-agent/main.go:474-496 | that description fixes the map |
| XrayAgent.Node.ClaimTraffic | ops/xray-agent/main.go:414-440 | answers the pending batch, or a new one that is persisted before it is published; without faults it always answers, and without an answer the counters are as they were or lost |
| XrayAgent.Node.ReadAndReset | ops/xray-agent/main.go:424-433 | what was in the core is in the batch, and the core is reset; without an answer it is untouched or lost |
| XrayAgent.Node.PersistPendingBatch | ops/xray-agent/main.go:518-531 | the state file is the batch and it is pending when it succeeds; otherwise the batch is lost |
| XrayAgent.Node.AcknowledgeTraffic | ops/xray-agent/main.go:442-459 | only the pending batch is acknowledged, without faults always, the state file going before the memory; after a committed import this keeps the invariants |
| XrayAgent.Node.RestartAgent | ops/xray-agent/main.go:499-516 | the pending batch after a restart is the one in the state file |
| XrayAgent.Node.ApplyTrafficBatch | apps/api/src/domain/control-plane.store.ts:1826-1916 | a batch is charged once under its id, every user with an account for the sum of both directions, and a replay changes nothing; for a batch that a claim answered this keeps the invariants |
| XrayAgent.ChargeUsers | apps/api/src/domain/control-plane.store.ts:1886-1900 | every listed user with an account is charged the sum of both directions, and nobody else |
| UpgradeCredit.WithinHalfACent | apps/api/src/commerce/standard-plan-upgrade.ts:52-54 | the rounded value is within half a cent of the exact proration |
| UpgradeCredit.ValueIs | apps/api/src/commerce/standard-plan-upgrade.ts:38-55 | a value exists exactly for a safe non-negative price and a time within the interval, and is the only integer that rounds the proration, halves upwards |
| UpgradeCredit.ValueIsMonotone | apps/api/src/commerce/standard-plan-upgrade.ts:38-55 | it lies between 0 and the price, is the full price at the start, falls with time and rises with price |
| UpgradeCredit.ReproratingIsWithinACent | apps/api/src/commerce/standard-plan-upgrade.ts:347-364 | prorating a rounded value again over what is left is within one cent of prorating the original |
| UpgradeCredit.TheCentIsNeeded | apps/api/src/commerce/standard-plan-upgrade.ts:52-54 | that cent of difference occurs |
| UpgradeCredit.QuoteUpgrade | apps/api/src/commerce/standard-plan-upgrade.ts:338-374 | the quote is the priced one, and is refused exactly when none exists: a bad interval, or nothing to pay |
| UpgradeCredit.QuoteIsFair | apps/api/src/commerce/standard-plan-upgrade.ts:371-374 | an accepted quote charges the difference and 500 cents, more than the fee, at most full price and fee, and credits no more than its basis |
| UpgradeCredit.ChainedCreditIsWithinACent | apps/api/src/commerce/standard-plan-upgrade.ts:350-364 | the credit of an upgrade quoted from the previous one is within a cent of the credit from full price and interval |
| UpgradeCredit.PeriodIsBilledWithinACent | apps/api/src/commerce/standard-plan-upgrade.ts:347-374 | what a plan is billed for the time it was held is its price prorated over that time, within a cent |
| UpgradeCredit.UpgradesChargeForWhatIsHeld | apps/api/src/commerce/standard-plan-upgrade.ts:338-374 | over any number of chained upgrades the total paid, fees apart, is price times time of the plans held, within one cent per upgrade |
| UtcCalendar.ClosedForm | apps/api/src/commerce/commerce.service.ts:2556-2571 | the calendar counted month by month is the closed form of ECMA-262 section 21.4.1 |
| UtcCalendar.ReadBack | apps/api/src/commerce/commerce.service.ts:2556-2571 | a date written from month, day and time of day reads back as those |
| UtcCalendar.WrittenBack | apps/api/src/commerce/commerce.service.ts:2556-2571 | every time is such a date |
| UtcCalendar.DaysAreWhole | apps/api/src/domain/control-plane.store.ts:4235-4239 | adding days through the day of the month adds whole days |
| UtcCalendar.LastDateIsLength | apps/api/src/commerce/plan-redemption-policy.ts:52-54 | day 0 of the next month is the last day of this one |
| UtcCalendar.MonthsAdded | apps/api/src/commerce/plan-redemption-policy.ts:44-57 | the redemption policy's month arithmetic and that of checkout and control plane are equal, for every date, month count and anchor: the anchor day of the target month or its last day, at the same time of day |
| UtcCalendar.MonthsAddedReadBack | apps/api/src/domain/control-plane.store.ts:4241-4262 | month, day and time of day of the result |
| UtcCalendar.MonthsCompose | apps/api/src/commerce/commerce.service.ts:2551-2572 | with the anchor kept, adding m and then n months is adding m + n |
| UtcCalendar.MonthsStrictlyIncrease | apps/api/src/commerce/commerce.service.ts:2551-2572 | more months end strictly later |
| UtcCalendar.NothingAdded | apps/api/src/commerce/commerce.service.ts:2551-2572 | adding no months changes nothing |
| UtcCalendar.UnanchoredMonthsDrift | apps/api/src/commerce/commerce.service.ts:2551-2555 | without the anchor two additions agree with one exactly when the month between is long enough |
| UtcCalendar.DriftHappens | apps/api/src/commerce/commerce.service.ts:2551-2555 | 31 January of a common year, month by month without the anchor, ends on 28 March instead of 31 March |
| PlanTerms.WindowIsWhatIsGranted | apps/api/src/commerce/plan-redemption-policy.ts:13-36 | for every mode, plan, live or lapsed term and duration, the resolved window ends when the granted subscription ends |
| PlanTerms.GrantedIs | apps/api/src/domain/control-plane.store.ts:3550-3669 | what a grant stores: a live term of the same plan goes on from its end and keeps start, bonus and consumption unless replaced, anything else begins at the grant unused; days are whole days, months the anchored date; bytes and offer as given or taken over |
| PlanTerms.Subscriptions.GrantPlanEntitlement | apps/api/src/domain/control-plane.store.ts:3550-3669 | extends the live term of the same plan, keeping its start and consumption, and otherwise begins a new term |
| PlanTerms.Subscriptions.ApplyPlanRedemptionCode | apps/api/src/domain/control-plane.store.ts:3374-3459 | the expiry stored on the order is the end written to the subscription |
| PlanTerms.Subscriptions.Checkout | apps/api/src/commerce/commerce.service.ts:1247-1356 | renews the term in effect, or writes a new one: at once, closing every open row when it replaces the term in effect, or at a scheduled switch, leaving that term; an offer without a duration is refused unchanged |
| PlanTerms.ExpiryIs | apps/api/src/commerce/commerce.service.ts:2518-2549 | where bought time ends for each kind of billing: a fixed date, whole days after the base, or the anchored date so many months later; nothing without a duration |
| PlanTerms.PermanentEndIs | apps/api/src/entitlement/entitlement-lifetime.ts:3-13 | the permanent end is 253,402,300,799,999 milliseconds, the last of the year 9999 |
| PlanTerms.PurchasedIs | apps/api/src/commerce/commerce.service.ts:1247-1356 | a checkout renews exactly an open term of the same plan in effect, from its end, keeping start, bonus and consumption; any other purchase begins unused; the end for each kind of billing; refused exactly without a duration |
| PlanTerms.ScheduledIs | apps/api/src/commerce/commerce.service.ts:1294-1302 | a switch is scheduled exactly when a term is in effect that the purchase does not renew and a date is given; it is then a new purchase at that date |
| PlanTerms.ReplacedIs | apps/api/src/commerce/commerce.service.ts:1303-1324 | an immediate switch cancels every open row, those that had begun ending now, and changes nothing else of any row |
| PlanTerms.ReplacedRowsAreOver | apps/api/src/commerce/commerce.service.ts:1303-1324 | after an immediate switch none of the replaced rows is in effect, then or later |
| PlanTerms.RenewalsAddUp | apps/api/src/commerce/commerce.service.ts:1262-1275 | in whatever portions and through whichever path a term is prolonged: bought by months it ends where one addition of all its months to its start ends, bought by days all its days after its start |
| PlanTerms.TermsKeepTheirDay | apps/api/src/commerce/commerce.service.ts:1271-1275 | bought by months, it ends on the day it began, or the last day of a shorter month, at the same time of day |
| PlanTerms.RenewalsEndLater | apps/api/src/commerce/commerce.service.ts:1262-1275 | a purchase that prolongs a term moves its end later, and days by exactly these days |
| RedemptionCodes.EveryRunIsSound | apps/api/src/domain/control-plane.store.ts:2571-2646 | over every interleaving of statements of redeeming, discount and balance transactions, commits, aborts and admin changes: usedCount is the number of use records and never above maxUses; each user's uses are numbered in order; each number was within the limit in force |
| RedemptionCodes.NumbersAreExact | apps/api/src/commerce/redemption-usage.ts:19-24 | a user's numbers for a code are exactly 1 to their count, each once |
| RedemptionCodes.InsertNeverClashes | apps/api/src/commerce/redemption-usage.ts:24 | the unique index never refuses an insert |
| RedemptionCodes.UsesLeftAreUsable | apps/api/src/domain/control-plane.store.ts:2634-2641 | over every interleaving without administrator or expiry: as long as a use is left the code is active, and it is REDEEMED only when none is left |
| RedemptionCodes.NextKeeps | apps/api/src/domain/control-plane.store.ts:2571-2646 | every statement keeps the invariant |
| RedemptionCodes.Store.RecordRedemptionUse | apps/api/src/commerce/redemption-usage.ts:5-25 | takes the row unless it is held, and records the next number; it fails exactly for a changed limit or a user at the limit |
| RedemptionCodes.Store.LockRow | apps/api/src/commerce/redemption-usage.ts:9-18 | fails exactly when the limit changed since it was read |
| RedemptionCodes.Store.CountAndInsert | apps/api/src/commerce/redemption-usage.ts:19-24 | the inserted number is the count under the lock and one |
| RedemptionCodes.Store.ReserveUse | apps/api/src/commerce/commerce.service.ts:2247-2284 | counts the code up only if status, count and limit are as they were read, and usable |
| RedemptionCodes.Store.RedeemCode | apps/api/src/domain/control-plane.store.ts:2550-2665 | one use and one count or nothing; the code is then REDEEMED exactly when its uses are spent, and otherwise active; undisturbed it succeeds exactly when the code is active with a use left and the user below the limit, and counts one up |
| RedemptionCodes.Store.CheckoutWithDiscount | apps/api/src/commerce/commerce.service.ts:1458-1464 | the same for a discount reserved at the checkout, which leaves the code active |
| RedemptionCodes.Store.PurchaseWithBalance | apps/api/src/domain/control-plane.store.ts:2833-2914 | the same for the balance path, which records the use before it counts |
| RedemptionCodes.Store.SpendUse | apps/api/src/domain/control-plane.store.ts:2892-2912 | the conditional count of that path, and the status that goes with it |
| CampaignMail.NothingIsSentTwice | apps/api/src/campaign-mail/campaign-mail.service.ts:320-404 | over all runs of any workers, crashes, pauses and resumes: each delivery is handed to the mail server at most once, a pending or skipped one never was, a sent one was; a COMPLETED job has none pending or sending |
| CampaignMail.FinishedJobsSendNoMore | apps/api/src/campaign-mail/campaign-mail.service.ts:255-277 | after a job is canceled or completed nothing of it is handed over but what a worker had already claimed |
| CampaignMail.NextKeeps | apps/api/src/campaign-mail/campaign-mail.service.ts:221-411 | every step keeps what the recorded states say |
| CampaignMail.OthersLeaveTheHold | apps/api/src/campaign-mail/campaign-mail.service.ts:321-329 | no other worker or administrator takes a claimed delivery away |
| CampaignMail.Service.QueueJob | apps/api/src/campaign-mail/campaign-mail.service.ts:221-254 | a draft or paused job that has not changed since it was read becomes queued; an old preview is refused, other jobs are left alone |
| CampaignMail.Service.CancelJob | apps/api/src/campaign-mail/campaign-mail.service.ts:255-277 | cancels the job and turns exactly its pending deliveries into skipped ones |
| CampaignMail.Service.FindPending | apps/api/src/campaign-mail/campaign-mail.service.ts:314-319 | the first five claimable deliveries by id, and all of them when there are fewer |
| CampaignMail.Service.ClaimDelivery | apps/api/src/campaign-mail/campaign-mail.service.ts:321-329 | succeeds exactly while the delivery is pending and its job queued |
| CampaignMail.Service.WriteOutcome | apps/api/src/campaign-mail/campaign-mail.service.ts:369-395 | writes the outcome to the delivery that is held, and pauses its queued job on a bad mail server, and nothing else |
| CampaignMail.Service.PauseQueued | apps/api/src/campaign-mail/campaign-mail.service.ts:290-313 | exactly the queued jobs become paused |
| CampaignMail.Service.GiveUpStale | apps/api/src/campaign-mail/campaign-mail.service.ts:280-289 | exactly the stale deliveries that are being sent become UNKNOWN |
| CampaignMail.Service.CompleteDrained | apps/api/src/campaign-mail/campaign-mail.service.ts:405-411 | exactly the queued jobs without a pending or sending delivery become COMPLETED |
| CampaignMail.Service.Prepare | apps/api/src/campaign-mail/campaign-mail.service.ts:330-357 | a recipient who is gone is skipped, a message rejected before the mail server fails, any other is handed over once |
| CampaignMail.Service.Report | apps/api/src/campaign-mail/campaign-mail.service.ts:358-404 | what the mail server answered is written: sent, failed or unknown, with the pause it asks for |
| CampaignMail.Service.WorkThrough | apps/api/src/campaign-mail/campaign-mail.service.ts:320-404 | undisturbed, the deliveries found are answered one by one in their order up to the first answer that pauses, each as it was answered, and nothing else changes |
| CampaignMail.PendingIsFound | apps/api/src/campaign-mail/campaign-mail.service.ts:314-319 | a pending delivery of a queued job is found, or five with smaller ids are |
| CampaignMail.BelowIs | apps/api/src/campaign-mail/campaign-mail.service.ts:316-316 | ids are compared at their first difference |
| CampaignMail.Service.Process | apps/api/src/campaign-mail/campaign-mail.service.ts:320-404 | from claim to outcome one delivery is handed over at most once, and only one that could be claimed; it shows what was answered; undisturbed a claimable one is always answered |
| CampaignMail.Service.ProcessPending | apps/api/src/campaign-mail/campaign-mail.service.ts:278-412 | one run hands over at most five deliveries, none when mail is not configured, and holds none at its end; undisturbed the first five claimable deliveries are answered in order up to the first pausing answer, stale ones become UNKNOWN, drained queued jobs COMPLETED, and nothing else changes |
| EpayAmount.PrintedIsReadBack | apps/api/src/epay/epay-signature.ts:54-69 | a printed amount reads back unchanged exactly up to 99,999,999,999 cents; above that reading refuses it |
| EpayAmount.AmountIs | apps/api/src/epay/epay-signature.ts:61-69 | yuan alone are so many hundred cents, one decimal counts tens of cents, two decimals cents; any other number of decimals is refused |
| EpayAmount.ReadIffMatched | apps/api/src/epay/epay-signature.ts:62-62 | exactly the strings of the pattern are read |
| EpayAmount.PrintIs | apps/api/src/epay/epay-signature.ts:54-59 | exactly the safe integers from 0 on are printed, as yuan without leading zeros and two decimals of that value |
| EpayAmount.ReadIsPrintedCanonically | apps/api/src/epay/epay-signature.ts:54-69 | an amount that is read prints as two decimals of the same yuan and the same value; it prints as itself exactly when it had two decimals |
| EpayAmount.AmountsHaveOneSpelling | apps/api/src/epay/epay-signature.ts:61-69 | two strings mean the same amount exactly when yuan and decimals, filled up with zeros at the end, are equal |
| EpayAmount.DigitsReadBack | apps/api/src/epay/epay-signature.ts:58-58 | the printed digits read back as the number, without leading zeros |
| EpayAmount.DigitsAreUnique | apps/api/src/epay/epay-signature.ts:62-66 | digits without leading zeros are the only spelling of their number |
| EpayAmount.NineDigits | apps/api/src/epay/epay-signature.ts:62-62 | nine digits suffice exactly below 1,000,000,000 yuan |

## Left out

- Agent updates: HTTP, systemd, signatures and hashes of files as computations. A manifest verifies or not per machine and release; health checks and restarts have any outcome; releases, receipts and files other than the journal's change only as the steps say; the file the link names is not changed by others.
- Agent updates: the controller's per-operation advisory lock is modelled as one atomic step; overview, enrolment, upload and artifact download are not modelled. A controller answer that is an error, whatever its cause, is one case.
- AgentUpdater.Updater.Tick: a journal file that cannot be parsed, or that disagrees with the signed manifest, stops the updater in the source and is not a state of the model.
- Restore: archives are whole or refused; an absent asset directory is the same as an empty one; nothing but the restore writes from the safety backup until maintenance mode is lifted; the worker's own lock, retention, imports and the daily backup are not modelled.
- Metering: the run theorems assume that an acknowledgement follows a committed import, as the worker in `apps/api/src/usage-sync/usage-sync.service.ts` has it, although the handler would take an earlier one, and that an imported batch is one that a claim answered, although the store would charge any; purchases and plan changes between imports, users without an active subscription, rollups, the destination log and the older traffic query with `clear` are not modelled; an unreadable state file keeps the agent from starting.
- TrafficCharging.ApplyUserTraffic: byte counts are unbounded integers; the source converts to Number, which rounds above 2^53.
- UpgradeCredit.QuoteUpgrade: eligibility of grant, orders and offer, the signature and the expiry of the quote are not modelled; only the arithmetic is.
- UtcCalendar.MonthsAdded: dates outside the range of Date, and the years 0 to 99 that Date.UTC moves by 1900, are not modelled.
- PlanTerms.RenewalsAddUp: a term bought partly by months and partly by days has no single sum; each of its purchases is covered by GrantedIs and PurchasedIs.
- PlanTerms.Subscriptions.Checkout: which plan offers allow a scheduled switch, the time it takes effect and its later activation are inputs or not modelled, as are quota cycles, nodes, and speed and device snapshots.
- RedemptionCodes.EveryRunIsSound: reads see any committed version and updates wait for the row, as under READ COMMITTED; a serializable transaction is a special case that aborts more often. One code is modelled, since codes share nothing; a rejected conditional update ends its transaction; deleting a user's row, which would remove use records, is not done by the source.
- CampaignMail.NothingIsSentTwice: a statement or transaction is one atomic step; one call of sendCampaign that reaches the mail server is one handing over, whatever it answers; recipients, opt-outs and texts are not modelled.
- CampaignMail.Service.FindPending: ids are compared by character codes, where the database uses its collation.
- Group buying, wallet ledger, entitlements, referrals, holiday campaigns, node operations, controllers, dashboards and all user interfaces would add mostly single-branch facts.

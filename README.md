# MRI patient-flow simulation, modelled in Dafny

This project models the decision rules and the bookkeeping of a discrete-event
simulation of an MRI department. Patients arrive, register at the admin desk,
are taken by a porter to a change room, are prepped by a backup technologist
(with an IV when needed), wait gowned, and are scanned on one of two magnets
(3T and 1.5T). A porter then turns the magnet's bed over. Inpatients skip
registration, are held in room 311, and are carried to and from the magnet by
a porter at a higher priority. Staff take breaks on a fixed cycle, and a porter or a
backup covers for them. Statistics collectors record movements, state changes,
magnet busy and occupied time, and per-patient metrics. The question the
simulation answers is whether parallel prep (prepping the next patient outside
the magnet room) raises magnet utilisation compared with serial prep.

Every SimPy process becomes a sequential model:
- The `resources` dict becomes a table of unit counts under capacities (`Sim.ResourceTable`). A request is granted only while a unit is free. Every grant and release is recorded, so each path can be shown to give back what it took.
- Staff, patients, magnet configurations, the magnet pool, the position manager, the admin queue, the break controller and the statistics collectors are classes. Their methods update fields in place, as the Python objects do.
- Pure choices are functions, with lemmas relating them to an independent statement of the rule. These include slot geometry, prep priority, technologist choice, scan-time dispatch, routing, the bed-flip rule and the staffing split.
- Sampled durations, shuffled room orders, uniform draws and inter-arrival gaps are parameters. Timed waits advance a clock (`Sim.Env`) by the waited amount.

Modules, one per source file:
- `Sim` (common.dfy): the shared vocabulary. It holds the clock, the resource table, the magnet configurations and the magnet pool.
- `Base` (base.dfy): `get_time` and the `PositionManager` slot allocator (src/core/workflows/base.py).
- `HeadlessEntities` (headless_entities.dfy): the headless entity, staff and patient (src/core/headless.py).
- `Tracker` (tracker.dfy): `SimStats` (src/analysis/tracker.py).
- `Aggregator` (aggregator.dfy): `MetricAggregator` (src/analysis/stats.py).
- `AdminDesk`, `PorterFlow`, `BackupFlow`, `ScannerFlow`, `OutpatientFlow` (admin.dfy, porter.dfy, backup.dfy, scanner.dfy, outpatient.dfy): the modular outpatient workflows (src/core/workflows/).
- `InpatientFlow` (inpatient.dfy): the inpatient workflow (src/core/inpatient_workflow.py).
- `Breaks` (breaks.dfy): the break controller `StaffManager` (src/core/staff_controller.py).
- `HeadlessSim` (headless_sim.dfy): the resource monitor, the free-room helpers, the kernel's setup and the overtime loop (src/core/headless.py).
- `PatientJourney` (journey.dfy): the dual-bay journey of the animated front end and its generator (src/core/workflow.py).
- `LegacyResources`, `LegacyEntities`, `LegacyEngine` (resources.dfy, entities.dfy, engine.dfy): the first prototype (src/resources.py, src/entities.py, src/engine.py).
- `ExtraEngine` (extra_engine.dfy): the prototype engine with its spatial monitor (extra/engine.py).
- `ExtraSimulation` (extra_simulation.dfy): the stand-alone prototype with its Gantt log (extra/simulation.py).

Where the code and its documentation disagree, the model follows the code:
- The headless entities really are teleported.
- A magnet request in the journey names a resource the kernels do not create.
- The outpatient path counts a patient into the system twice.

Where the code is evidently wrong (the rows under "## Findings"), the model
states the code as written in a separate member and runs the corrected
behaviour everywhere else. "## Left out" names the members that run the
corrected behaviour.

## Model

| member | source | states |
|---|---|---|
| Sim.ResourceTable.constructor | src/core/headless.py:171-190 | every resource starts with no unit held, no exam type recorded and no grant or release |
| Sim.ResourceTable.Acquire | src/core/inpatient_workflow.py:28-29 | a granted request holds one more unit of that resource and of no other, stays within capacity, and is recorded |
| Sim.ResourceTable.Release | src/core/inpatient_workflow.py:144-150 | a unit given back leaves one fewer held of that resource and of no other, and is recorded |
| Sim.ResourceTable.SetLastExamType | src/core/workflows/porter.py:86 | the magnet's last exam type becomes the given exam; the other magnets keep theirs |
| Sim.MagnetConfig.constructor | src/core/headless.py:214-230 | a configuration keeps its id, resource, location and name and starts clean |
| Sim.MagnetPool.constructor | src/core/headless.py:177 | the pool starts empty |
| Sim.MagnetPool.Get | src/core/inpatient_workflow.py:61 | get hands out the oldest configuration and removes it from the pool |
| Sim.MagnetPool.Put | src/core/inpatient_workflow.py:151 | put adds the configuration at the tail of the pool |
| Base.GetTime | src/core/workflows/base.py:44-51 | an unknown task takes 1.0 minute, a numeric entry is the time itself, and a distribution entry yields its sample |
| Base.GridOf | src/core/workflows/base.py:80-100 | every area's grid has a positive spacing |
| Base.ColumnCapacity | src/core/workflows/base.py:109 | a column holds at least one slot, and otherwise as many spacings as fit between the first row and the row limit |
| Base.SlotDecomposition | src/core/workflows/base.py:109-111 | a slot is its column times the column capacity plus its row, and the row is within the column |
| Base.DistinctSlotsDistinctPositions | src/core/workflows/base.py:108-120 | two different slots of one area are never drawn at the same position |
| Base.ColumnsFillOutward | src/core/workflows/base.py:113-118 | later slots fill leftwards in the right half of the waiting room and rightwards everywhere else |
| Base.FirstFreeFrom | src/core/workflows/base.py:103-106 | the scan stops at the first unoccupied index at or after its start, every index it passes being occupied |
| Base.FirstFree | src/core/workflows/base.py:103-106 | the slot handed out is unoccupied and every smaller slot is occupied |
| Base.FirstFreeUnique | src/core/workflows/base.py:103-106 | any unoccupied index with every smaller index occupied is the slot handed out |
| Base.ReleaseThenReuse | src/core/workflows/base.py:102-129 | releasing an occupied slot below the next free one makes it the next slot handed out; any other release leaves the next slot unchanged |
| Base.TakeThenRelease | src/core/workflows/base.py:123-129 | taking a free slot and releasing it restores the occupancy |
| Base.PositionManager.constructor | src/core/workflows/base.py:62-69 | the three areas start with no occupied slot |
| Base.PositionManager.GetGridPos | src/core/workflows/base.py:71-124 | the patient takes the smallest free slot of the area, nothing else changes, and the position is that slot's place in the area's grid |
| Base.PositionManager.ReleasePos | src/core/workflows/base.py:126-129 | exactly that slot is freed; releasing a slot that is not taken changes nothing |
| HeadlessEntities.Entity.constructor | src/core/headless.py:17-22 | an entity starts on its target |
| HeadlessEntities.Entity.MoveTo | src/core/headless.py:24-31 | the entity teleports: it stands on the point, which is also its target |
| HeadlessEntities.Entity.MoveToPoint | src/core/headless.py:26-31 | a point given as one tuple is unpacked and moved to |
| HeadlessEntities.Entity.IsAtTarget | src/core/headless.py:33-35 | the headless check always answers yes |
| HeadlessEntities.StubAgreesWithGeometry | src/core/headless.py:24-40 | from where it was created, through any sequence of teleports and returns home, an entity ends on its target, so the stub's constant yes is the geometric truth |
| HeadlessEntities.Entity.ReturnHome | src/core/headless.py:37-40 | an entity with a home teleports there; one without stays put |
| HeadlessEntities.Entity.CoverPosition | src/core/headless.py:42-44 | the entity teleports to the position it covers |
| HeadlessEntities.Entity.GoToBreak | src/core/headless.py:46-50 | the entity teleports to the break room centre |
| HeadlessEntities.Staff.constructor | src/core/headless.py:67-73 | a staff member starts at home, not busy, last used at 0 |
| HeadlessEntities.Staff.SetBusy | src/core/headless.py:72 | the busy flag takes the value given and the assignment is recorded |
| HeadlessEntities.Patient.constructor | src/core/headless.py:76-84 | a patient starts as an on-time outpatient with no IV, not difficult, no metrics and none of the attributes the workflows attach later |
| HeadlessEntities.Patient.SetState | src/core/headless.py:52-54 | the state passed by the workflow is recorded |
| Tracker.AfterWarmUp | src/analysis/tracker.py:107-117 | the filtered log is never longer than the calls and every kept entry is stamped at or after the end of the warm-up |
| Tracker.AfterWarmUpMembers | src/analysis/tracker.py:107-117 | an entry is logged if and only if some call was stamped at or after the warm-up and the entry is that call re-based |
| Tracker.AfterWarmUpAppend | src/analysis/tracker.py:107-117 | one more call adds its re-based entry when it comes after the warm-up and nothing otherwise |
| Tracker.LatestEntersSpec | src/analysis/tracker.py:233-235 | a patient has an entry time if and only if the log holds an 'enter' of theirs, and the time is that of their last 'enter' |
| Tracker.PairedWaitsBounded | src/analysis/tracker.py:233-238 | there are never more waits than 'exit' entries: an exit without an earlier enter adds no wait |
| Tracker.MaxOf | src/analysis/tracker.py:245 | the maximum is one of the waits and no wait exceeds it |
| Tracker.SimStats.constructor | src/analysis/tracker.py:22-60 | every log empty, every counter zero, the magnet idle with no pending start, the generator active |
| Tracker.SimStats.LogMovement | src/analysis/tracker.py:63-82 | a movement is appended, re-based to the end of the warm-up, only when it happens after the warm-up |
| Tracker.SimStats.LogStateChange | src/analysis/tracker.py:84-117 | 'arriving' counts an arrival and one more patient in the system, 'exited' one fewer but never below zero, and the log stays the warm-up filter of all calls |
| Tracker.SimStats.LogCompletion | src/analysis/tracker.py:119-128 | one more completion; the 3T or 1.5T counter rises by one for its magnet and neither for any other id |
| Tracker.SimStats.LogMagnetStart | src/analysis/tracker.py:131-140 | the start time is pending and the phase is scanning or prep as asked |
| Tracker.SimStats.LogMagnetEnd | src/analysis/tracker.py:142-160 | a pending period adds to occupied time always and to busy time only when scanning, busy time stays within occupied time, and the magnet ends idle |
| Tracker.SimStats.LogWaitingRoom | src/analysis/tracker.py:162-175 | one entry with the patient, time and action is appended |
| Tracker.SimStats.CalculateUtilization | src/analysis/tracker.py:177-214 | a run of length zero reports an idle magnet, idle is the complement of occupied, and busy never exceeds occupied |
| Tracker.SimStats.GetSummaryStats | src/analysis/tracker.py:217-248 | the wait times are exactly the paired waits of the waiting-room log; their mean and maximum (0 when none) are reported with the utilisation and the log sizes |
| Aggregator.AccumulateSplit | src/analysis/stats.py:116-119 | value-added time is the total of the 'scan' metrics, overhead the total of setup, exit, flip and handover, and the gap is never changed |
| Aggregator.AccumulateMonotone | src/analysis/stats.py:116-119 | with non-negative durations neither value-added nor overhead time decreases |
| Aggregator.RecordOf | src/analysis/stats.py:71-93 | a patient's total time runs from its arrival (0 without one), its protocol defaults to 'Unknown' and its type is copied |
| Aggregator.Bump | src/analysis/stats.py:97-98 | the protocol's count rises by one from 0 when absent and no other count changes |
| Aggregator.MetricAggregator.constructor | src/analysis/stats.py:14-62 | every accumulator is zero under the source's keys, the counters are zero and the parent statistics start empty |
| Aggregator.MetricAggregator.LogMagnetMetric | src/analysis/stats.py:109-119 | 'noshow' counts one no-show, and the magnet split stays the accumulation of every metric logged |
| Aggregator.MetricAggregator.LogPatientFinished | src/analysis/stats.py:64-107 | nothing changes before the warm-up ends; afterwards the record is stored, the protocol counted and the patient counted as exactly one of inpatient or outpatient, and as late when late |
| Aggregator.SuperLookup | src/analysis/stats.py:66 | a parent method call succeeds if and only if `SimStats` defines the method, and raises AttributeError otherwise |
| Aggregator.BindArgs | src/core/workflows/porter.py:82 | a call binds if and only if it passes as many arguments as the method takes |
| Aggregator.LogPatientFinishedAsWrittenRaises | src/analysis/stats.py:64-66 | as written, every call raises AttributeError, before and after the warm-up |
| Aggregator.LogMagnetMetricAsWrittenRaises | src/core/workflows/scanner.py:30 | as written, the four-argument calls raise TypeError, and a three-argument call would still raise AttributeError |
| AdminDesk.QueueSpot | src/core/workflows/admin.py:11-16 | the i-th queued patient stands on the desk's row, 50 + 30·i to the right of the desk |
| AdminDesk.IndexOf | src/core/workflows/admin.py:39-40 | the index `list.remove` removes at: an occurrence of the patient with none before it |
| AdminDesk.RemoveFirst | src/core/workflows/admin.py:39-40 | removing a patient not in the queue changes nothing; removing a queued one shortens it by one |
| AdminDesk.RemoveFirstKeepsOrder | src/core/workflows/admin.py:39-41 | after the removal everyone before the leaver keeps their index and everyone after moves up one |
| AdminDesk.RemoveAppended | src/core/workflows/admin.py:31-40 | a patient who joined at the tail and then leaves restores the queue exactly |
| AdminDesk.AdminQueue.constructor | src/core/workflows/admin.py:7 | the global queue starts empty and lined up |
| AdminDesk.AdminQueue.UpdateAdminQueue | src/core/workflows/admin.py:9-17 | afterwards every queued patient targets and stands on its spot |
| AdminDesk.AdminQueue.Join | src/core/workflows/admin.py:31-32 | the patient is appended at the tail, the queue stays free of duplicates and is re-laid |
| AdminDesk.AdminQueue.Leave | src/core/workflows/admin.py:39-41 | the queue is exactly the old one without the patient's first occurrence, and is re-laid when the patient was queued |
| AdminDesk.AdminWorkflow.constructor | src/core/workflows/admin.py:19 | the workflow shares the simulation's clock, resources, statistics and queue |
| AdminDesk.AdminWorkflow.JoinQueue | src/core/workflows/admin.py:28-32 | the patient is 'arriving', one state change (none to arriving) is logged, the in-system count rises by one and the patient is appended to the queue |
| AdminDesk.AdminWorkflow.TakeDesk | src/core/workflows/admin.py:35-45 | one unit of `admin_ta` is taken, the patient leaves the queue and stands 25 below the desk |
| AdminDesk.AdminWorkflow.Register | src/core/workflows/admin.py:35-68 | the desk unit is taken and given back, arriving→registered is logged at the start time, the clock moves on by the registration time and the result is True |
| AdminDesk.AdminWorkflow.PerformRegistration | src/core/workflows/admin.py:20-68 | with the desk free on arrival: both state changes are logged, the in-system count rises by one, the queue ends as it began, the desk count is restored and the result is True |
| PorterFlow.TargetPos | src/core/workflows/porter.py:30-32 | a position is its own target, a known key its table entry, an unknown key (0, 0) |
| PorterFlow.FlipDuration | src/core/workflows/porter.py:66-77 | the flip is fast exactly when the magnet's previous exam is the exam just finished, and slow otherwise, including on a magnet with no previous exam |
| PorterFlow.FlipKinds | src/core/workflows/porter.py:66-86 | a run of flips on one magnet yields one kind per exam |
| PorterFlow.FlipKindsSpec | src/core/workflows/porter.py:66-86 | in a run of flips on one magnet, a flip is fast if and only if the exam just before it was the same (for the first, the exam left on the magnet) |
| PorterFlow.PorterWorkflow.constructor | src/core/workflows/porter.py:5-7 | the workflow shares the clock, resources, statistics and the porter |
| PorterFlow.PorterWorkflow.TakePorter | src/core/workflows/porter.py:16-19 | one porter unit is granted at the requested priority and the porter becomes busy |
| PorterFlow.PorterWorkflow.FreePorter | src/core/workflows/porter.py:88-89 | the porter becomes free, is back home, and the unit is given back |
| PorterFlow.PorterWorkflow.Transport | src/core/workflows/porter.py:9-46 | the porter is taken at priority 1 and given back, the patient ends at the target, and the porter is busy then free and back home |
| PorterFlow.PorterWorkflow.Flip | src/core/workflows/porter.py:65-86 | the room shows dirty then clean, the time waited is the fast or slow flip by the changeover rule, one 'flip' metric of that time is logged, and the magnet remembers the exam |
| PorterFlow.PorterWorkflow.CleanRoom | src/core/workflows/porter.py:48-89 | the porter is taken at priority 0 ahead of transports and given back, the flip happens as above, and the porter ends free and at home |
| BackupFlow.IsSimple | src/core/workflows/backup.py:25-26 | a patient is simple if and only if they are not a difficult IV (absent counts as not) and are an outpatient |
| BackupFlow.PrepPriority | src/core/workflows/backup.py:19-29 | the priority is 0 (jumping the line) if and only if gap mode is on and the patient is simple, and 1 otherwise |
| BackupFlow.FirstIdleFrom | src/core/workflows/backup.py:37 | the search stops at the first technologist not busy, every one it passes being busy |
| BackupFlow.ChooseTech | src/core/workflows/backup.py:37 | when someone is idle the first idle technologist in list order is chosen; when all are busy the first one is |
| BackupFlow.IvTime | src/core/workflows/backup.py:60-73 | no IV takes no time, a difficult IV takes the difficult sample and any other IV the normal sample |
| BackupFlow.BackupWorkflow.constructor | src/core/workflows/backup.py:6-8 | the workflow shares the clock, resources, statistics and the technologists |
| BackupFlow.BackupWorkflow.ClinicalWork | src/core/workflows/backup.py:56-79 | the patient gets an IV exactly when one is needed, the clock moves on by the IV time plus the screening, and the patient ends prepped |
| BackupFlow.BackupWorkflow.FetchPatient | src/core/workflows/backup.py:38-52 | the technologist becomes busy and the patient ends at the technologist's station |
| BackupFlow.BackupWorkflow.ReleaseTech | src/core/workflows/backup.py:81-82 | the technologist is free again and back home |
| BackupFlow.BackupWorkflow.PrepBy | src/core/workflows/backup.py:32-82 | the backup unit is granted at the given priority and given back, a 'prep_room' movement is logged after the warm-up, and the prep happens as above |
| BackupFlow.BackupWorkflow.PrepPatient | src/core/workflows/backup.py:10-82 | the first idle technologist (else the first) does the prep at the singles-line priority, ends free and home, and no other technologist's flag changes |
| ScannerFlow.ScanTechIndex | src/core/workflows/scanner.py:20-22 | the 3T magnet gets the first technologist; any other magnet gets the second when there are two or more, else the first |
| ScannerFlow.HandoverTime | src/core/workflows/scanner.py:28 | with no entry the handover takes 2.0 minutes; a numeric entry is used as is; a distribution entry has no single value to wait on |
| ScannerFlow.ScanTime | src/core/workflows/scanner.py:47-58 | a non-empty tuple gives the triangular sample, a non-empty dict the normal sample (mean 25, spread 0 when missing) floored at 5 minutes, and anything else the default scan duration |
| ScannerFlow.DictWithoutSpread | src/core/workflows/scanner.py:52-56 | a dict holding only a mean scans for that mean, but never under 5 minutes |
| ScannerFlow.ScanSplit | src/core/workflows/scanner.py:30-75 | one scan's four metrics add the scan to value-added time and handover, setup and exit to overhead, and leave the gap alone |
| ScannerFlow.ScanWorkflow.constructor | src/core/workflows/scanner.py:6-8 | the workflow shares the clock, statistics and scan technologists |
| ScannerFlow.ScanWorkflow.Handover | src/core/workflows/scanner.py:24-34 | the technologist is busy, one 'handover' metric is logged after the handover time, and prepped→scanning is logged at its end without changing the in-system count |
| ScannerFlow.ScanWorkflow.Setup | src/core/workflows/scanner.py:37-42 | the room shows busy and one 'setup' metric of the setup time is logged |
| ScannerFlow.ScanWorkflow.RunScan | src/core/workflows/scanner.py:45-70 | the scan time is added to both busy and occupied magnet time, one 'scan' metric is logged, the patient keeps the scan time and the magnet ends idle |
| ScannerFlow.ScanWorkflow.EndScan | src/core/workflows/scanner.py:72-80 | one 'exit' metric is logged, the room shows dirty and the technologist is free |
| ScannerFlow.ScanWorkflow.Prepare | src/core/workflows/scanner.py:24-42 | handover then setup: both are logged as overhead and the patient is scanning |
| ScannerFlow.ScanWorkflow.ScanAndExit | src/core/workflows/scanner.py:45-80 | the scan is value-added and busy time, the exit is overhead, and the room is left dirty with the technologist free |
| ScannerFlow.ScanWorkflow.Examine | src/core/workflows/scanner.py:24-80 | the four steps in order: the metrics appear handover, setup, scan, exit, and the clock moves on by their sum |
| ScannerFlow.ScanWorkflow.ExecuteScan | src/core/workflows/scanner.py:10-80 | the magnet's own technologist is busy for the scan and free after; the split gains the scan as value-added and handover, setup and exit as overhead; the room goes busy then dirty |
| OutpatientFlow.FirstFreeRoom | src/core/workflows/patient.py:72-77 | the room chosen is the first in the shuffled order with a free unit, and none is chosen only when every room is full |
| OutpatientFlow.FirstFreeRoomFrom | src/core/workflows/patient.py:72-77 | the search from a position stops at the first room with a free unit, every room it passes being full |
| OutpatientFlow.NewStates | src/core/workflows/patient.py:113-114 | the new states of the logged changes, one per change in order |
| OutpatientFlow.NewStatesAppend | src/core/workflows/patient.py:113-114 | the new states of two runs of changes are those of the first followed by those of the second |
| OutpatientFlow.ScanTimeNonNegative | src/core/workflows/scanner.py:47-60 | whatever a protocol's parameters, the scan time is a valid (non-negative) delay |
| OutpatientFlow.ExamAsWritten | src/core/workflows/patient.py:173 | as written, the exam passed to the bed flip is always 'Unknown' |
| OutpatientFlow.ExamOf | src/core/workflows/patient.py:173 | as intended, the exam passed to the bed flip is the patient's own protocol ('Unknown' only without one) |
| OutpatientFlow.AsWrittenAlwaysQuickChangeover | src/core/workflows/patient.py:173 | as written, every flip after the first on a magnet is fast, whatever protocols were scanned |
| OutpatientFlow.IntendedChangeoverFollowsProtocols | src/core/workflows/porter.py:66-77 | with the intended exam, a flip is fast if and only if the previous protocol on that magnet was the same |
| OutpatientFlow.PatientWorkflow.constructor | src/core/workflows/patient.py:11-21 | the four sub-workflows are wired to the shared clock, resources and statistics |
| OutpatientFlow.PatientWorkflow.ClinicalInit | src/core/workflows/patient.py:38-52 | initialisation happens at most once: a second call changes nothing; the first sets the protocol and its parameters, and a difficult IV is drawn only for a needed IV |
| OutpatientFlow.PatientWorkflow.Arrive | src/core/workflows/patient.py:30-59 | a late patient waits out the lateness; the patient is an inpatient by its own flag or else by the draw; only an outpatient's arrival time is stamped |
| OutpatientFlow.PatientWorkflow.SelectChangeRoom | src/core/workflows/patient.py:66-77 | the first free room in the order is requested and held; when none is free no resource changes |
| OutpatientFlow.PatientWorkflow.WaitForRoom | src/core/workflows/patient.py:97-106 | every half-minute try finds the first try's room; with no room free the wait lasts half a minute per poll and nothing is held |
| OutpatientFlow.PatientWorkflow.EscortToRoom | src/core/workflows/patient.py:79-94 | the movement is logged as 'change_room' or 'change_staging' and the porter escorts the patient to the held room's centre or to staging, giving the porter back |
| OutpatientFlow.PatientWorkflow.GoToChangeRoom | src/core/workflows/patient.py:64-111 | a room is held if and only if one was free on arrival at the changing area; otherwise the patient stays in staging holding nothing |
| OutpatientFlow.PatientWorkflow.Change | src/core/workflows/patient.py:113-120 | registered→changing is logged, the patient changes for the changing time and the room is given back |
| OutpatientFlow.PatientWorkflow.EscortAndChange | src/core/workflows/patient.py:64-120 | the escort and the change give back every unit held; the patient changes in the first free room of the order exactly when there is one |
| OutpatientFlow.PatientWorkflow.Registration | src/core/workflows/patient.py:62 | registration logs arriving then registered, counts one more patient in the system and leaves every resource count as it was |
| OutpatientFlow.PatientWorkflow.RegisterAndChange | src/core/workflows/patient.py:59-120 | registration, escort and change: every unit is given back and the logged states are arriving, registered and, once a room is held, changing |
| OutpatientFlow.PatientWorkflow.TakeSlot | src/core/workflows/patient.py:123-140 | the patient takes the first free slot of the waiting-room half, stands on it, and is logged in the waiting room |
| OutpatientFlow.PatientWorkflow.MoveRight | src/core/workflows/patient.py:134-140 | the left slot is given back and the patient takes the first free slot of the right half |
| OutpatientFlow.PatientWorkflow.PrepInRoom | src/core/workflows/patient.py:130 | the prep leaves the waiting-room layout, the resource counts and everything the scan reads as they were, and the patient ends prepped |
| OutpatientFlow.PatientWorkflow.PrepPhase | src/core/workflows/patient.py:122-140 | the patient holds a left slot, is prepped, gives the left slot back and ends holding the first free right slot |
| OutpatientFlow.PatientWorkflow.SeizeMagnet | src/core/workflows/patient.py:149-157 | the magnet-access unit and then the magnet at the head of the pool are seized at the outpatient priority |
| OutpatientFlow.PatientWorkflow.GoToMagnet | src/core/workflows/patient.py:159-163 | the right slot is given back and the patient walks into the magnet room, logged under the magnet's name |
| OutpatientFlow.PatientWorkflow.ExitPatient | src/core/workflows/patient.py:180-186 | the patient walks to the exit and is recorded as finished only after the warm-up |
| OutpatientFlow.PatientWorkflow.FreeMagnet | src/core/workflows/patient.py:175-178 | the magnet's own unit and the magnet-access unit are given back, restoring the counts from before the seizure, and the configuration returns to the tail of the pool |
| OutpatientFlow.PatientWorkflow.ScanThenExit | src/core/workflows/patient.py:165-186 | the patient is scanned, then exits at the scan's end and is recorded as finished after the warm-up |
| OutpatientFlow.PatientWorkflow.InRoom | src/core/workflows/patient.py:159-170 | the right slot is given back, the patient is scanned and exits, and no resource count changes |
| OutpatientFlow.PatientWorkflow.UseMagnet | src/core/workflows/patient.py:159-173 | with the magnet held the patient is scanned and the porter flips the bed by the changeover rule; the magnet remembers the exam |
| OutpatientFlow.PatientWorkflow.UseAndFree | src/core/workflows/patient.py:159-178 | the held magnet is used and then given back, restoring the counts from before the seizure |
| OutpatientFlow.PatientWorkflow.ScanPhase | src/core/workflows/patient.py:148-178 | every unit seized is given back, the magnet used is the head of the pool and goes to its tail, and the right slot is freed |
| OutpatientFlow.PatientWorkflow.PrepAndScan | src/core/workflows/patient.py:122-178 | the prep and the scan leave the waiting-room layout and every resource count as they found them and rotate the magnet pool by one |
| OutpatientFlow.PatientWorkflow.Outpatient | src/core/workflows/patient.py:59-178 | every unit is given back; the patient waits in staging if and only if no room was free, and otherwise completes with the pool rotated and the layout restored |
| OutpatientFlow.PatientWorkflow.Run | src/core/workflows/patient.py:23-178 | an inpatient is skipped if and only if the classification says so, changing nothing but the clinical fields; every outpatient is counted in the system once more and every unit held is given back |
| OutpatientFlow.RunGenerator | src/core/workflows/patient.py:190-226 | patients get the ids 1, 2, 3, ... and each is counted in the system; the generator stops early only past the last hour with nobody in the system, which never happens once anyone is in it |
| InpatientFlow.CoverageIndex | src/core/inpatient_workflow.py:80 | the 3T magnet is looked after by technologist 0 and every other magnet by technologist 1 |
| InpatientFlow.OnBreak | src/core/inpatient_workflow.py:79-81 | the looked-after technologist is on a break if and only if a staff manager is registered and holds a raised coverage flag for that index |
| InpatientFlow.InpatientTech | src/core/inpatient_workflow.py:83-89 | during a break the covering backup (index taken modulo the backups) scans; otherwise the magnet's own scan technologist, the first standing in when there is only one |
| InpatientFlow.CoverageFlagMatchesTech | src/core/inpatient_workflow.py:80-89 | with two or more scan technologists, the flag consulted belongs to the technologist who would otherwise scan |
| InpatientFlow.SingleBackupCovers | src/core/inpatient_workflow.py:85 | with a single backup, every covered inpatient scan goes to that backup |
| InpatientFlow.SlotPos | src/core/inpatient_workflow.py:33-35 | the holding slot's position is its map entry, or the default spot (450, 350) when the slot is not on the map |
| InpatientFlow.InpatientWorkflow.constructor | src/core/inpatient_workflow.py:15 | the workflow holds the clock, resources, statistics, magnet pool and staff it is called with |
| InpatientFlow.InpatientWorkflow.Admit | src/core/inpatient_workflow.py:19-22 | the patient arrives without registering: arriving, with the arrival time stamped, and one more patient in the system |
| InpatientFlow.InpatientWorkflow.Hold | src/core/inpatient_workflow.py:26-51 | a room 311 unit is held, the patient stands in the drawn slot, arriving→prepped and the 'holding_transfer' movement are logged, and the holding prep runs |
| InpatientFlow.InpatientWorkflow.Transfer | src/core/inpatient_workflow.py:53-75 | magnet access and then the pool's first magnet are seized at the inpatient priority and the bed is moved to that magnet |
| InpatientFlow.InpatientWorkflow.StartScan | src/core/inpatient_workflow.py:91-98 | the technologist is busy, prepped→scanning and the movement to the magnet are logged, the room shows busy and the magnet starts scanning |
| InpatientFlow.InpatientWorkflow.FinishScan | src/core/inpatient_workflow.py:100-105 | the scan time is value-added time and is added to both busy and occupied magnet time |
| InpatientFlow.InpatientWorkflow.CallPorter | src/core/inpatient_workflow.py:108-120 | the room shows dirty and the porter, seized at priority 0, is busy and at the magnet |
| InpatientFlow.InpatientWorkflow.LeaveWithPorter | src/core/inpatient_workflow.py:123-135 | scanning→exited is logged, taking the patient out of the in-system count, and patient and porter stand at the exit with the room clean |
| InpatientFlow.InpatientWorkflow.Finish | src/core/inpatient_workflow.py:137-139 | the exit movement is logged and the patient recorded as finished, both only after the warm-up |
| InpatientFlow.InpatientWorkflow.ReleasePorter | src/core/inpatient_workflow.py:142-144 | the porter is free, home and given back |
| InpatientFlow.InpatientWorkflow.ReleaseMagnet | src/core/inpatient_workflow.py:147-151 | the technologist is free and home, the magnet and access units are given back, and the configuration rejoins the pool's tail |
| InpatientFlow.InpatientWorkflow.Prepare | src/core/inpatient_workflow.py:24-75 | held and prepped in room 311, then the pool's first magnet seized and the bed at it |
| InpatientFlow.InpatientWorkflow.Scan | src/core/inpatient_workflow.py:77-105 | prepped→scanning is logged at the scan start and the clock moves on by the scan time |
| InpatientFlow.InpatientWorkflow.Egress | src/core/inpatient_workflow.py:107-139 | the porter is seized and the patient leaves, logged as exited |
| InpatientFlow.InpatientWorkflow.ScanAndLeave | src/core/inpatient_workflow.py:77-139 | the scan and then the porter-assisted exit, at the scan's end |
| InpatientFlow.InpatientWorkflow.ReleaseAll | src/core/inpatient_workflow.py:141-151 | porter, magnet and access are given back in that order, restoring the counts from before the magnet was seized |
| InpatientFlow.InpatientWorkflow.ScanLeaveRelease | src/core/inpatient_workflow.py:77-151 | everything seized for the scan and the exit is given back |
| InpatientFlow.InpatientWorkflow.ScanAndRelease | src/core/inpatient_workflow.py:77-151 | the scan, the exit and the whole release sequence, room 311 last, restore the counts |
| InpatientFlow.InpatientWorkflow.Serve | src/core/inpatient_workflow.py:24-151 | every unit held is given back, the pool is rotated by one, the logged states are arriving→prepped→scanning→exited, and the scan starts after the holding prep and the transfer |
| InpatientFlow.InpatientWorkflow.Run | src/core/inpatient_workflow.py:15-151 | the arrival is always logged; the patient is served if and only if room 311 exists, and otherwise stays counted in the system holding nothing |
| Breaks.StartDelayStaggers | src/core/staff_controller.py:54-60 | within a role each later index starts exactly 20 minutes per index later, nobody starts before 30 minutes, and at index 0 the admin goes first, then backups, scan technologists and the porter |
| Breaks.AfterBlockTwice | src/core/staff_controller.py:62-147 | a second block of the same member of staff leaves the flags as the first did |
| Breaks.RaiseThenLower | src/core/staff_controller.py:68-136 | raising the on-break flag and the cover and then lowering both leaves the member of staff off break, the cover down and every other flag unchanged |
| Breaks.AppendBlockFlags | src/core/staff_controller.py:62-144 | a block's flag changes appended one step at a time are the block's changes in order |
| Breaks.BlockFlagsPaired | src/core/staff_controller.py:68-136 | every block lowers exactly the flags it raised, in the same order and never before raising them, the on-break flag first; a scan technologist's cover outlasts the break by the handover |
| Breaks.CycleStep | src/core/staff_controller.py:62-147 | each further block of the schedule starts the 150-minute gap after the previous block ends |
| Breaks.CycleTimeBound | src/core/staff_controller.py:62-147 | a cycle of non-negative breaks takes at least 150 minutes per block |
| Breaks.StaffManager.ValidApart | src/core/staff_controller.py:80-93 | with distinct staff, whoever covers a block is never the member of staff on break |
| Breaks.StaffManager.constructor | src/core/staff_controller.py:13-27 | no cover flag is raised, nobody is on break, and the break slot is a fresh resource of capacity 1 |
| Breaks.StaffManager.ManageBreaks | src/core/staff_controller.py:29-48 | one cycle per member of staff, porter, admin, each backup and each scan technologist in that order, under distinct keys |
| Breaks.StaffManager.BeginBlock | src/core/staff_controller.py:64-68 | the single break slot is taken so nobody else can start a block, and the member of staff is flagged on break |
| Breaks.StaffManager.CoverAdmin | src/core/staff_controller.py:74-80 | the porter is flagged covering the desk, held at priority -1 and stands at the desk |
| Breaks.StaffManager.CoverScan | src/core/staff_controller.py:81-102 | the station is flagged covered, a backup unit is held, the covering technologist is locked busy at the station, and the 2-minute handover follows |
| Breaks.StaffManager.TakeBreak | src/core/staff_controller.py:113-124 | the break lasts its duration, then the member of staff is off break and back home |
| Breaks.StaffManager.UncoverAdmin | src/core/staff_controller.py:127-131 | the porter's cover flag is lowered, the porter unit given back and the porter sent home |
| Breaks.StaffManager.UncoverScan | src/core/staff_controller.py:132-141 | after the 2-minute handover the station is uncovered, the covering technologist goes home unlocked and its unit is given back |
| Breaks.StaffManager.EndBlock | src/core/staff_controller.py:64 | the break slot is given back |
| Breaks.StaffManager.Cover | src/core/staff_controller.py:70-111 | the role's cover is raised and its unit held: the porter for the admin, a backup technologist for a scan technologist, a backup unit for a backup |
| Breaks.StaffManager.Uncover | src/core/staff_controller.py:126-144 | the role's cover is lowered and its unit given back, restoring the counts from before the block |
| Breaks.StaffManager.CoverAndBreak | src/core/staff_controller.py:70-144 | the cover is raised, the break taken and the cover lowered; every unit held is given back |
| Breaks.StaffManager.BreakBlock | src/core/staff_controller.py:63-144 | one block holds the break slot and the cover unit and gives both back, its flag changes are paired, and the member of staff ends at home |
| Breaks.StaffManager.BreakCycle | src/core/staff_controller.py:50-147 | after the stagger, one block per schedule entry each followed by the gap; every unit is given back and the flags end as after one block |
| HeadlessSim.SampleWithinCapacity | src/core/headless.py:109-141 | with every count within the kernel's capacities, one tick adds at most 3 to the change rooms, 2 to the washrooms and to prep, the room 311 capacity to room 311 and 1 to each magnet; the waiting room is not a resource and gains nothing |
| HeadlessSim.ResourceMonitor.constructor | src/core/headless.py:95-102 | the monitor's own accumulators start at zero for every resource key and for both magnets |
| HeadlessSim.ResourceMonitor.Tick | src/core/headless.py:104-141 | one minute passes, then every bucket of the aggregator gains exactly one sample of the current counts; the monitor's own accumulators are never written |
| HeadlessSim.ResourceMonitor.Ticks | src/core/headless.py:104-141 | n minutes with unchanged counts add exactly n samples to every bucket |
| HeadlessSim.Accumulated | src/core/headless.py:109-141 | sampling keeps the set of buckets |
| HeadlessSim.AccumulatedStep | src/core/headless.py:104-141 | one more minute after i minutes is i + 1 minutes of samples |
| HeadlessSim.AddSamplesAccumulates | src/core/headless.py:112-141 | the monitor's sequence of bucket updates adds exactly one sample to every bucket |
| HeadlessSim.AddSamplesAt | src/core/headless.py:112-141 | each bucket gains the units in use of the resources it sums |
| HeadlessSim.FreeRoomWithIndex | src/core/headless.py:193-207 | the first room in the shuffled order with a free unit is returned with its position in that order, or nothing when every room is full |
| HeadlessSim.SetUpMagnets | src/core/headless.py:166-232 | the pool holds the 3T configuration then the 1.5T one, each with its own magnet resource, location and name, both clean |
| HeadlessSim.ScanStation | src/core/headless.py:242-245 | the second scan technologist is stationed at the 1.5T staging, every other one at the 3T staging |
| HeadlessSim.NewStaff | src/core/headless.py:236-245 | n distinct new staff members of the role, each at home at its station and not busy |
| HeadlessSim.RosterJoin | src/core/headless.py:235-245 | two rosters of distinct people with no one in common join into a roster of distinct people |
| HeadlessSim.NewRoster | src/core/headless.py:235-245 | the porter, the admin, the backups and the scan technologists are distinct people with distinct bodies, each with its home station |
| HeadlessSim.SetUpStaff | src/core/headless.py:234-249 | the break controller receives that roster, with no cover raised, nobody on break and a free break slot |
| HeadlessSim.Overtime | src/core/headless.py:262-266 | the overtime loop stops as soon as nobody is left or the 300-minute limit is reached, runs no minute when either already holds, and never passes the limit by a whole minute |
| PatientJourney.TriangularSample | src/core/workflow.py:15-27 | a plain number is returned unchanged; a triple yields its drawn sample |
| PatientJourney.SampleAgreesWithGetTime | src/core/workflow.py:15-27 | for every configured task the journey's sampler and the modular workflows' get_time give the same time |
| PatientJourney.IvDelay | src/core/workflow.py:133-139 | no IV delay unless the first draw falls under the IV probability; otherwise the difficult duration exactly when the second draw falls under its probability, the normal one else |
| PatientJourney.Tech15TIndex | src/core/workflow.py:169 | the 1.5T technologist is the second one exactly when there are two or more, else the first |
| PatientJourney.Route | src/core/workflow.py:171-189 | the 1.5T bay is chosen if and only if the 3T technologist is busy and the 1.5T one is idle |
| PatientJourney.TechIndex | src/core/workflow.py:168-189 | the bay's technologist is one of the scan technologists |
| PatientJourney.RouteFor | src/core/workflow.py:166-189 | the routed technologist is idle if and only if one of the two candidates is; with a single technologist the 3T bay is always chosen |
| PatientJourney.Arrive | src/core/workflow.py:64-70 | the patient is arriving in zone 1, the change from no state is logged at the arrival time, one more patient is in the system, and a minute passes |
| PatientJourney.Transport | src/core/workflow.py:72-100 | the porter unit is given back, the porter was busy then idle and is home, and the patient stands in the chosen change room |
| PatientJourney.Change | src/core/workflow.py:102-107 | arriving→changing is logged at the start and the clock moves on by the change time |
| PatientJourney.PrepStart | src/core/workflow.py:110-131 | one backup unit is taken and the technologist is marked busy |
| PatientJourney.PrepFinish | src/core/workflow.py:133-149 | after the IV and screening times changing→prepped is logged, and the technologist is idle at the backup staging with the unit given back |
| PatientJourney.Prep | src/core/workflow.py:109-149 | the backup unit is taken and given back, the technologist busy then idle, and the patient prepped after the IV and screening times |
| PatientJourney.ToPrepped | src/core/workflow.py:62-149 | the first idle backup (or the first) is chosen, every unit is given back, and arriving, changing and prepped are logged in order at their times |
| PatientJourney.GownedWaitAsWritten | src/core/workflow.py:151-158 | as written, the patient reaches gowned waiting, the movement is logged after the warm-up, and the journey fails with an AttributeError |
| PatientJourney.Journey | src/core/workflow.py:41-158 | as written, every journey stops prepped with an AttributeError, having logged only arriving, changing and prepped and still counted in the system |
| PatientJourney.GownedWait | src/core/workflow.py:151-158 | corrected: the patient's arrival in gowned waiting is entered in the waiting-room log |
| PatientJourney.ScanStart | src/core/workflow.py:191-203 | the technologist is busy, prepped→scanning is logged and the magnet starts scanning now |
| PatientJourney.ScanFinish | src/core/workflow.py:205-216 | scan and bed flip times are added to busy and occupied magnet time and the technologist is idle at the bay's staging |
| PatientJourney.Scan | src/core/workflow.py:191-216 | the technologist is busy then idle, scanning is logged at the start, and the magnet is busy for scan plus flip |
| PatientJourney.Exit | src/core/workflow.py:218-228 | scanning→exited is logged and the in-system count drops by one, never below zero |
| PatientJourney.RouteScanExit | src/core/workflow.py:166-228 | the routed technologist scans, the patient is logged scanning then exited, and the magnet is busy for scan plus flip |
| PatientJourney.ScanAndExit | src/core/workflow.py:160-228 | the journey passes the magnet request if and only if a magnet resource exists, then leaves the waiting room, scans in the routed bay and exits, giving the magnet back |
| PatientJourney.JourneyLogged | src/core/workflow.py:41-228 | corrected journey: with a magnet resource the states arriving, changing, prepped, scanning, exited are logged in order for this patient, the in-system count is restored and all units given back |
| PatientJourney.ElapsedMonotone | src/core/workflow.py:244-257 | with non-negative gaps, later patients are created no earlier than earlier ones |
| PatientJourney.PatientGenerator | src/core/workflow.py:230-257 | patients get ids 1, 2, 3, ... and are created before the shift ends, each at the sum of the gaps before it; the generator stops only once the shift is over or the draws run out |
| PatientJourney.BindCall | src/core/workflow.py:230 | a call binds only when every parameter is given exactly once, positionally or by keyword; otherwise it is a TypeError |
| PatientJourney.GeneratorBinding | src/core/headless.py:257 | the generator binds its six positional arguments and refuses the extra patient_class keyword the headless run passes |
| LegacyResources.StaffingSplit | src/resources.py:20-32 | one porter and one scan technologist; the backups are the rest of the staff after the porter (at least one technologist) less the scan technologist, never negative |
| LegacyResources.StaffingAddsUp | src/resources.py:20-36 | with two or more staff the split accounts for everyone; there are backups if and only if there are three or more staff |
| LegacyResources.Capacities | src/resources.py:9-43 | one magnet and two prep rooms; the backup pool exists if and only if it has a unit |
| LegacyResources.MRIResources.constructor | src/resources.py:5-46 | the resources are built from the staffing split, all free, with an empty utilisation log |
| LegacyResources.MRIResources.MonitorUtilization | src/resources.py:48-60 | each minute appends one record of the minute and the magnet count, which never exceeds 1; earlier records are kept |
| LegacyEntities.BedFlipTime | src/entities.py:25-29 | an override wins; otherwise the future-state flip in the parallel scenario and the current one in the serial |
| LegacyEntities.PrepTime | src/entities.py:15-22 | prep is screening plus change, plus the IV setup exactly when the IV draw falls under its probability |
| LegacyEntities.PrepTimeBounds | src/entities.py:15-22 | prep lies between screening plus change and that plus the IV setup |
| LegacyEntities.Scenario | src/entities.py:124 | the record says 'Parallel' if and only if the run is parallel, 'Serial' otherwise |
| LegacyEntities.RecordLog.constructor | src/engine.py:12 | the log starts empty |
| LegacyEntities.Patient.constructor | src/entities.py:5-7 | the patient keeps its id and arrival time and has no state yet |
| LegacyEntities.Patient.SerialFlow | src/entities.py:36-66 | the magnet is held from the start of prep to the end of the flip and given back; prepping, scanning and done follow in order; the scan starts after the prep and the exit follows scan and flip |
| LegacyEntities.Patient.ParallelPrep | src/entities.py:72-82 | a prep room is held for the prep alone and given back |
| LegacyEntities.Patient.ParallelScan | src/entities.py:84-112 | the gowned patient waits, then the magnet is held for scan and flip and given back |
| LegacyEntities.Patient.ProcessFlow | src/entities.py:9-125 | the timestamps are ordered, prep to scan is the prep time and scan to exit is scan plus flip, every unit is given back in the scenario's order, the patient ends done, and one record is appended exactly when a log is given |
| LegacyEngine.ArrivalOffset | src/engine.py:47 | lateness delays a patient by its amount; an early draw counts as on time |
| LegacyEngine.SlotOffsetIsProduct | src/engine.py:39 | booking slots are evenly spaced: the k-th ends k slot lengths in |
| LegacyEngine.PatientGenerator | src/engine.py:14-54 | the generator waits one slot per patient, then creates patient 1, 2, 3, ... arriving at the slot time plus its offset, and hands that offset to its handler |
| LegacyEngine.MRISimulation.constructor | src/engine.py:8-12 | the settings are kept and the log is empty |
| LegacyEngine.MRISimulation.RunMinutes | src/engine.py:82 | a run lasts exactly 60 minutes per configured hour, so never fewer minutes than hours |
| LegacyEngine.MRISimulation.HandlePatient | src/engine.py:56-66 | prep starts after the positive part of the delay, the patient ends done with every unit given back, and one record of this patient's timestamps is appended to the simulation's log |
| ExtraEngine.Trunc | extra/engine.py:91 | truncation toward zero: the nearest integer not farther from zero |
| ExtraEngine.StateName | extra/engine.py:68 | a patient with a state reads as that state; one without reads 'Unknown' |
| ExtraEngine.ZoneX | extra/engine.py:70-88 | zone 2 if and only if scanning, 3 if and only if done, 1 if and only if prepping, changed or in IV setup, 0 otherwise |
| ExtraEngine.ZoneY | extra/engine.py:70-88 | row 2 when scanning, row 0 in an unlisted state, the uniform draw otherwise |
| ExtraEngine.Snapshot | extra/engine.py:67-96 | a row holds the truncated minute, the patient's id and state and the zone and row of that state |
| ExtraEngine.UnstartedAtOrigin | extra/engine.py:68-71 | a patient without a state is recorded as 'Unknown' at the origin |
| ExtraEngine.MRISimulation.constructor | extra/engine.py:10-17 | the settings and the flip override are kept and all three lists start empty |
| ExtraEngine.MRISimulation.HandlePatient | extra/engine.py:39-58 | after the delay the patient joins the active list for good and runs the flow with the flip override, and one record is appended |
| ExtraEngine.MRISimulation.TakeSnapshot | extra/engine.py:65-96 | one row per active patient, in list order, is appended to the spatial log; earlier rows are kept |
| ExtraEngine.MRISimulation.MonitorTick | extra/engine.py:64-98 | a snapshot taken at the current time, then one minute passes |
| ExtraSimulation.NormalSample | extra/simulation.py:32-35 | a Gaussian draw clipped at zero: never negative, the draw itself when it is not |
| ExtraSimulation.PrepCapacity | extra/simulation.py:323 | one technologist stays at the scanner; the prep staff are the others, never fewer than one |
| ExtraSimulation.Utilization | extra/simulation.py:340 | a busy time within the 720-minute run gives a percentage between 0 and 100, and a magnet busy all run gives 100 |
| ExtraSimulation.SerialSpansCover | extra/simulation.py:104-132 | a serial patient's three bars cover the whole magnet hold without gaps, and exactly the scan counts as scanning |
| ExtraSimulation.ParallelSpansCover | extra/simulation.py:255-272 | a parallel patient's two bars cover scan and flip without a gap, and none is idle prep time |
| ExtraSimulation.TimeInAppend | extra/simulation.py:106-131 | the time the Gantt log shows in a state adds up over bars logged one after another |
| ExtraSimulation.StatTracker.constructor | extra/simulation.py:15-19 | no throughput, no busy time and an empty Gantt log, which agree |
| ExtraSimulation.StatTracker.CountScan | extra/simulation.py:120-121 | a finished scan adds its minutes to the busy time and one patient to the throughput |
| ExtraSimulation.Patient.constructor | extra/simulation.py:22-26 | a new patient waits at the origin |
| ExtraSimulation.Placement | extra/simulation.py:47-62 | scanning patients sit at (2, 2); waiting, prepping, IV and done patients take the drawn row; any other state, 'Changed' among them, keeps the old position |
| ExtraSimulation.Patient.Place | extra/simulation.py:47-62 | the patient moves to the placement of its state |
| ExtraSimulation.SerialPrepAndScan | extra/simulation.py:101-121 | an idle prep bar and a scanning bar are logged back to back, and only the scan counts as busy |
| ExtraSimulation.Changeover | extra/simulation.py:126-132 | the patient is done and the bed flip is logged as a changeover bar |
| ExtraSimulation.HandleSerial | extra/simulation.py:76-132 | the magnet is held from prep to the end of the flip and given back; the Gantt log gains that hold's three contiguous bars; the busy time stays equal to the log's scanning time |
| ExtraSimulation.StaffedPrep | extra/simulation.py:230-243 | a prep staff member is held for the prep |
| ExtraSimulation.ParallelPrep | extra/simulation.py:230-250 | the prep staff member is released only after the magnet is granted, leaving just the magnet held |
| ExtraSimulation.ParallelScan | extra/simulation.py:252-264 | the scan is logged as a scanning bar and counted as busy and as throughput |
| ExtraSimulation.HandleParallel | extra/simulation.py:227-275 | staff released after the magnet is granted and the magnet after the flip; the Gantt log gains a scanning and a changeover bar; the busy time stays equal to the log's scanning time |
| ExtraSimulation.Simulation.constructor | extra/simulation.py:301-328 | a magnet of capacity 1 and the prep capacity of staff, a zeroed tracker and empty lists |
| ExtraSimulation.Simulation.PatientGenerator | extra/simulation.py:277-295 | each booking slot a new patient (ids 1, 2, 3, ...), waiting, joins the list, and the clock advances one slot per patient |
| ExtraSimulation.Simulation.MonitorTick | extra/simulation.py:37-74 | every patient is placed by its state, in list order, and a row with the current time and the new position is appended; then one minute passes |
| ExtraSimulation.Simulation.Results | extra/simulation.py:339-347 | the throughput is the tracker's, and the utilisation is a percentage whenever the busy time fits in the run |

## Left out

- SimPy itself is not part of this model: the event loop, process spawning (`env.process`), queueing for a busy resource and the order in which priorities are served. A request is modelled as granted while a unit is free, so each step requires a free unit. Priorities are recorded with each grant as data. Concurrent processes, such as an outpatient's exit running beside the bed flip, run one after the other.
- Randomness is not modelled. The draws of `random` and of the configuration's samplers become parameters: triangular, Gaussian and exponential samples, uniform draws, shuffles and choices.
- The configuration module (src/config.py) is not part of this model. Its process times, probabilities, priorities, positions and break schedule become parameters.
- Movement is not modelled beyond teleporting. The busy-wait loops that poll `is_at_target` with 0.01-minute waits are left out, and so is the sprites' interpolated movement. In the headless kernel, movement teleports and `is_at_target` always holds.
- Rendering, the dashboards, the CSV and plotting reports, the experiment drivers, the command line and the animated engine's render loop are not part of this model.
- Infinite loops run for a bounded count, given as a parameter. These are the endless `while True` monitors and generators of src/resources.py, src/engine.py, extra/engine.py and extra/simulation.py, and the headless `ResourceMonitor.run`. The count is a number of ticks, slots or draws.
- The generator of src/core/workflow.py stops when its supplied gaps run out, in addition to stopping at the end of the shift.
- The prototypes' `run` methods and `run_simulation` are modelled only by their parts: they build the resources, start the processes and run the clock to the end. `Simulation.Results` gives what `run_simulation` reports; the data frames are not built.
- extra/simulation.py:134-225, the draft parallel branch of `handle_patient`, is not modelled. Parallel runs launch `handle_patient_parallel` instead (extra/simulation.py:290-293).
- extra/simulation.py:287 draws an arrival noise that is never used, so the model draws nothing.
- extra/simulation.py:7 imports `MRI_Config`, which the configuration module does not define (it defines `MRIConfig`). The model gives the prototype its parameters directly.
- The admission-closing fields (src/analysis/tracker.py:59-60), the washroom excursion (a `pass` at src/core/workflows/patient.py:143-146) and no-show generation have no behaviour in the code, so none is modelled. Only the `noshow` metric is counted.
- The module-level globals `pos_manager` (src/core/workflows/base.py:132) and `ADMIN_QUEUE` (src/core/workflows/admin.py:7) become objects the workflows are given.
- Python floats become exact reals. Percentages, averages and sums carry no rounding error.
- Tracker.SimStats.CalculateUtilization: the percentages are not passed through `round(..., 2)`, because rounding a real to two decimals has no exact counterpart.
- HeadlessEntities.Patient.SetState: the headless `set_state` (src/core/headless.py:52-54) does nothing, but the model stores the state so that the workflows' state paths can be stated. No workflow reads it back.
- ScannerFlow.ScanWorkflow.ExecuteScan: a triangular 'handover' entry is excluded by a precondition. On such an entry the source's wait fails.
- Crashes on empty staff lists are excluded by preconditions: an `IndexError` on `staff_dict['scan'][0]` or `staff_dict['backup'][0]`, and a `ZeroDivisionError` on `idx % len(backups)`.
- `StaffManager` takes no `with_breaks` argument, but src/experiments/batch_efficiency.py:80 passes one. The experiment drivers are not part of this model, so `Breaks.StaffManager.constructor` has the source's own signature.
- The headless monitor (src/core/headless.py:104-141) adds its samples to the statistics object's `occupied_minutes`, not to the dict it initialised at src/core/headless.py:99-102. `HeadlessSim.ResourceMonitor.Tick` states both: every bucket of the aggregator gains the samples, and the monitor's own accumulators stay at zero.
- The outpatient path counts each patient into `patients_in_system` twice: once in the generator (src/core/workflows/patient.py:219) and once when 'arriving' is logged. It never logs 'exited', so the count never falls. `OutpatientFlow.RunGenerator` states that the generator's empty-system stop (src/core/workflows/patient.py:203-204) is then unreachable once a patient exists.
- PorterFlow.PorterWorkflow.Flip, PorterFlow.PorterWorkflow.CleanRoom, ScannerFlow.ScanWorkflow.Handover, ScannerFlow.ScanWorkflow.Setup, ScannerFlow.ScanWorkflow.RunScan, ScannerFlow.ScanWorkflow.EndScan, OutpatientFlow.PatientWorkflow.ExitPatient, OutpatientFlow.PatientWorkflow.Outpatient and OutpatientFlow.PatientWorkflow.Run run the intended behaviour, not the code as written. They log through the three-argument `LogMagnetMetric` and the corrected `LogPatientFinished`, which as written raise (src/core/workflows/porter.py:82, src/core/workflows/scanner.py:30-75, src/core/workflows/patient.py:186). The bed flip is told the patient's own protocol (`ExamOf`), not the unset `exam_type` of src/core/workflows/patient.py:173. The code as written is stated by `Aggregator.LogMagnetMetricAsWrittenRaises`, `Aggregator.LogPatientFinishedAsWrittenRaises`, `OutpatientFlow.ExamAsWritten` and `OutpatientFlow.AsWrittenAlwaysQuickChangeover`. Without the corrections, the outpatient path would stop with an exception at its first logged metric.
- The inpatient path (src/core/inpatient_workflow.py:103, 139) calls the three-argument `log_magnet_metric` and `log_patient_finished`. As written both raise, as the first Findings row shows. The model of that path uses the corrected methods.
- The headless kernel starts the journey generator with a `patient_class` keyword it does not accept (src/core/headless.py:257). `PatientJourney.GeneratorBinding` states that this call raises `TypeError` and that the six-argument call binds. The model's generator is the six-argument one.
- The journey of src/core/workflow.py requests `resources['magnet']` (line 161), which neither kernel creates. `PatientJourney.ScanAndExit` passes that request if and only if a 'magnet' resource exists.

## Findings

| source | as written | input that shows it | evidently intended | confidence | as-written member | corrected member |
|---|---|---|---|---|---|---|
| src/analysis/stats.py:66 | `log_patient_finished` first calls `super().log_patient_finished`, which `SimStats` does not define, so every call raises `AttributeError` | any finished patient, before or after the warm-up | record the finish in the aggregator's own counters only | high; not executed | Aggregator.LogPatientFinishedAsWrittenRaises | Aggregator.MetricAggregator.LogPatientFinished |
| src/analysis/stats.py:110 | `log_magnet_metric` first calls `super().log_magnet_metric`, which `SimStats` does not define, so every call raises `AttributeError` | a three-argument call such as `('3T', 'scan', 20.0)` | classify the metric into the aggregator's accumulators | high; not executed | Aggregator.LogMagnetMetricAsWrittenRaises | Aggregator.MetricAggregator.LogMagnetMetric |
| src/core/workflows/porter.py:82 | the flip metric is logged with four arguments (`m_id, 'flip', duration, env.now`), but the method takes three, so it raises `TypeError`; so do the calls at src/core/workflows/scanner.py:30, 42, 61 and 75 | any bed flip or scan phase | log the metric without the time stamp | high; not executed | Aggregator.LogMagnetMetricAsWrittenRaises | Aggregator.MetricAggregator.LogMagnetMetric |
| src/core/workflows/patient.py:173 | the bed flip is told the exam of `patient.exam_type`, which is never set, so the exam is always 'Unknown'; every flip after the first on a magnet is fast, whatever was scanned | two patients with different protocols scanned one after the other on the same magnet | the patient's own scan protocol, so that only a repeated protocol gets the fast flip | high; not executed | OutpatientFlow.AsWrittenAlwaysQuickChangeover | OutpatientFlow.IntendedChangeoverFollowsProtocols |
| src/core/workflow.py:158 | the journey calls `stats.log_gowned_waiting`, which `SimStats` does not define, so every journey stops at gowned waiting with an `AttributeError` and nobody is scanned | any patient reaching gowned waiting | record the wait with `log_waiting_room` | high; not executed | PatientJourney.Journey | PatientJourney.JourneyLogged |

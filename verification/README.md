# Cellular Manager: models and proofs

A Dafny model of the harder parts of the RDK Cellular Manager, with proofs of what they guarantee. `dafny verify
dfyconfig.toml` checks everything.

The compile flags are fixed as follows: QMI and RBUS on, `_SR213_PRODUCT_REQ_`, `LTE_USB_FEATURE_ENABLED`,
`WAN_MANAGER_UNIFICATION_ENABLED` and `CELLULAR_MGR_LITE` off.

## What is modelled

**Profile operations** (`ProfileScript`, `ProfileTask`, `ProfileProofs`, `ProfileHistory`, `ProfileStatus`,
`ProfileTraces`). Create, delete, modify and list share one fall-through `switch` that asynchronous callbacks re-enter.
`ProfileTask.Engine` is that coroutine: the task and the cached context are its fields, each case body and each callback
is a method, and an oracle answers the requests. It is proved to do, for every operation and every sequence of answers,
exactly what a straight-line script does (`ProfileScript`), with the same requests, callbacks and releases in the same
order, and to terminate: each request that follows an answer comes at a later step, or at the same step as the second
half of an exchange, or for the next entry of the list being read. The other modules prove properties of the
scripts: a task ends once, how often it calls back and asks, that a create never duplicates a profile, that each
creation costs three misses over any sequence of operations, and what the status that is reported really says.
`ProfileTraces` gives the whole trace of each operation, event by event and field by field, from the state it starts
with and the modem's answers.

**The policy state machine** (`PolicyModel`, `PolicyHistory`, `PolicyProofs`, `PolicyTurns`, `PolicyResults`,
`PolicyController`). `PolicyController.Controller` has the callbacks, transitions and states of the thread as methods.
Callbacks may arrive between turns of the loop and also during every sleep, HAL request and HAL query of a turn.
`PolicyModel` is the same machine on values: every change is an act that is kept in a log, and a turn is a sequence of
acts. The invariants of `PolicyProofs` hold after every prefix of every run, and the controller keeps them as its own;
`PolicyTurns` says of every state exactly where a turn leads and what it asks for, read off the history; `PolicyResults`
states what follows. The shared structure's fields are grouped into records by what they describe (thread, interface,
modem, two bearers).

**Device opening and registration monitoring** (`DeviceOpen`, `Registration`). Two smaller coroutines of the same file,
again as classes with a step counter and pending query. Each is proved against a description of its remaining run, and
that against a closed form: which queries are made, in which order, and what is told.

**Slots, ICCID, cells, byte counters** (`SlotSelection`, `Iccid`, `CellReport`, `PacketStats`). The loops and their
accounts, over repeated reports, samples and calls.

**Row contexts** (`RowContexts`). The rbus alias maps and the conversion of alias paths with two alternating buffers.

## Findings

The code is modelled as it is. Where it does not do what its comments or its intent suggest, the exact behaviour is
proved:

- A modify that makes the profile the default resumes at a step with no case after the default is set, so it never
  reports its status (`ProfileStatus.ModifyConfirmed`).
- The first scan of the profile table, unlike the second, does not reset the retry counter: once a miss is pending,
  every create that finds its profile reports "not ready" (`ProfileStatus.FoundWhileHindered`). With none pending, what
  it reports is `ProfileStatus.FoundReady`: the profile the policy machine creates is always to be the default
  (cellularmgr_sm.c:648, cellularmgr_cellular_apis.c:425), and if the modem refuses that, nobody is told anything.
- A profile that was really created is reported as ready, not as created, exactly when an earlier match is still
  remembered and the attach list is not changed for it; so one that is not to be the default is always reported ready
  after any match (`ProfileStatus.CreatedStatus`).
- Reading `X_RDK_PhyConnectedStatus` writes it from the reported state, which `TransitionDeactivated` does not
  withdraw. The published physical status is therefore exact only as far as `PolicyResults.PublishedLinkState` says;
  `PolicyResults.StalePhysicalStatus` is a run in which it is wrong.
- A slot report that answers no request lets the machine return to REGISTERED after a removal without a new
  registration (`PolicyResults.StaleRegistration`). `PolicyResults.FreshReattach` says exactly when the registration is
  new, and that it can be missing only in an episode with such a report.
- A transition to DOWN does not end the wait for a packet report (`PolicyHistory.Waiting`), and no family is started
  while one is pending (`PolicyResults.JustifiedRequests`). A device removed during a start comes back to REGISTERED and
  stays there until a callback arrives, however many turns pass: `PolicyResults.HeldUpAfterRemoval` is such a run.
- An open task reports "ready" when the allocation of a client failed (`DeviceOpen.ReadyWithoutClients`).
- Successful registrations count as retries and do not reset the static counter (`Registration.CounterAccount`), so
  after two answers without giving up a later monitor task asks only once (`Registration.TriesUsedUp`).
- The comment above the slot selection promises a switch to another slot; a report that loses the selected slot never
  selects another (`SlotSelection.ReplacementTakesTwoReports`).
- Losing the connection zeroes the sample and so counts as a user reset (`PacketStats.DisconnectResets`).
- The alias conversion never ends on a path with an unknown alias before its end (`RowContexts.ConversionDiverges`).

## Conventions

- One profile, open or registration task runs at a time. Sleeps and timeouts are oracles. Allocation succeeds.
- An answer of the modem is a value; a missing answer and an error are told apart only where the code does.
- The profile table is a sequence: a table with no profiles and no table are different values, and while a list is being
  read the table holds the entries read so far. The settings of an answer stand for what memory holds after it.
- Strings and sequences are unbounded. Byte counters are 64 bits wide; their sums and differences are proved not to
  wrap. ICCID bytes are signed, and the masks and the shift are two's complement.
- The log of a policy machine and the traces of tasks are ghost state.

## Model

| member | source | states |
|---|---|---|
| ProfileTask.FallThroughOrder | source/CellularManager/cellular_hal_qmi_apis.c:5655-6087 | the case bodies met by falling through from the top are, for each operation, the stages of its script in their order |
| ProfileTask.Lands | source/CellularManager/cellular_hal_qmi_apis.c:5655-6087 | after an answered request, the next step enters the switch where the next stage of the script is; only a default set by a modify enters it at the end |
| ProfileTask.Engine.Step | source/CellularManager/cellular_hal_qmi_apis.c:5643-6087 | entered at any step, the switch leaves the task with exactly what the script has left to do, at a step that is not smaller |
| ProfileTask.Engine.CaseAllocate | source/CellularManager/cellular_hal_qmi_apis.c:5666-5688 | performs the allocation stage: asks for a client unless there is one |
| ProfileTask.Engine.CaseReadDefault | source/CellularManager/cellular_hal_qmi_apis.c:5689-5722 | create and list ask for the default profile unless it is cached; the others pass by |
| ProfileTask.Engine.CaseDelete | source/CellularManager/cellular_hal_qmi_apis.c:5723-5734 | delete performs the removal stage, which asks for the removal of its profile (`ProfileTraces.Removals` says which); the others pass by |
| ProfileTask.Engine.CaseReadList | source/CellularManager/cellular_hal_qmi_apis.c:5735-5789 | the list is read anew by delete and list, and by create only if there is none |
| ProfileTask.Engine.CaseVerify | source/CellularManager/cellular_hal_qmi_apis.c:5790-5904 | both scans, the retry counters and the exit of the check against the table |
| ProfileTask.Engine.CaseCreate | source/CellularManager/cellular_hal_qmi_apis.c:5905-5927 | a missing profile is created only while no retry is pending |
| ProfileTask.Engine.CaseModify | source/CellularManager/cellular_hal_qmi_apis.c:5928-5963 | a modify changes the profile unless another one agrees with it |
| ProfileTask.Engine.CaseSetDefault | source/CellularManager/cellular_hal_qmi_apis.c:5964-6003 | when the default profile is set by a create and by a modify |
| ProfileTask.Engine.CaseAttach | source/CellularManager/cellular_hal_qmi_apis.c:6004-6031 | only a create reads the attach list, although the body is written for both |
| ProfileTask.Engine.CaseNotify | source/CellularManager/cellular_hal_qmi_apis.c:6032-6076 | the status told at the end of create, delete and modify |
| ProfileTask.Engine.Scan | source/CellularManager/cellular_hal_qmi_apis.c:5815-5843 | the loop finds the first entry that agrees with the input, passing over the own entry if asked to |
| ProfileTask.Engine.CountMiss | source/CellularManager/cellular_hal_qmi_apis.c:5857-5898 | the bookkeeping of a miss, the second scan and the wrap of the counter |
| ProfileTask.Engine.OnClientAllocated | source/CellularManager/cellular_hal_qmi_apis.c:5609-5641 | the script goes on after an allocated client and stops after a failure |
| ProfileTask.Engine.OnDefaultNumber | source/CellularManager/cellular_hal_qmi_apis.c:5491-5559 | the cached default profile is wiped by any answer; a number is followed by the request for its settings |
| ProfileTask.Engine.OnDefaultSettings | source/CellularManager/cellular_hal_qmi_apis.c:5333-5489 | the settings complete the cached default profile |
| ProfileTask.Engine.OnDeleted | source/CellularManager/cellular_hal_qmi_apis.c:5033-5073 | the script goes on after a removal and stops after a failure |
| ProfileTask.Engine.OnListReceived | source/CellularManager/cellular_hal_qmi_apis.c:6523-6592 | a list starts the reading of its entries, anything else leaves no profiles |
| ProfileTask.Engine.OnListSettings | source/CellularManager/cellular_hal_qmi_apis.c:6328-6521 | an entry's settings extend the table as `ProfileTraces.ListedProfiles` says field by field, and the next entry is asked for; a refusal drops the table, a failed call empties it |
| ProfileTask.Engine.OnCreated | source/CellularManager/cellular_hal_qmi_apis.c:4901-4973 | the new identifier is taken, or "not ready" is told and the script stops |
| ProfileTask.Engine.OnModified | source/CellularManager/cellular_hal_qmi_apis.c:5561-5607 | the script goes on after an accepted change and stops otherwise |
| ProfileTask.Engine.OnDefaultSet | source/CellularManager/cellular_hal_qmi_apis.c:5285-5331 | the input becomes the cached default; a modify then has nothing left to do |
| ProfileTask.Engine.OnAttachList | source/CellularManager/cellular_hal_qmi_apis.c:5144-5283 | the attach list is set only if the profile is neither attached nor pending |
| ProfileTask.Engine.OnAttachSet | source/CellularManager/cellular_hal_qmi_apis.c:5101-5142 | a changed attach list forgets an earlier match |
| ProfileTask.Engine.RunTask | source/CellularManager/cellular_hal_qmi_apis.c:5643-6087 | refinement and termination: for all operations and all answers the coroutine ends, with the trace and state of the script |
| ProfileTask.Engine.CollectList | source/CellularManager/cellular_hal_qmi_apis.c:6207-6262 | the end of the wait for a list: a complete one is handed over and taken back, a table without profiles is freed, a timeout hands over nothing and changes nothing |
| ProfileTask.Engine.Operate | source/CellularManager/cellular_hal_qmi_apis.c:6100-6282 | the entry point: a fresh task with the right input, "not ready" without a device, refusal of a modify without a profile, and for a list the profiles handed over |
| ProfileProofs.EndsOnce | source/CellularManager/cellular_hal_qmi_apis.c:6077-6087 | every task is released, or the process exits, exactly once and as the last thing |
| ProfileProofs.StatusCallback | source/CellularManager/cellular_hal_qmi_apis.c:4962-4973 | create, delete and modify call back exactly once if the script runs through or the creation fails, and never otherwise; a list never does |
| ProfileProofs.VerifyDecidesByAgreement | source/CellularManager/cellular_hal_qmi_apis.c:5795-5898 | with a table, the profile counts as present if and only if some entry agrees on APN, user, password, PDP type and authentication; what the check leaves in both cases |
| ProfileProofs.AgreesUpToNames | source/CellularManager/cellular_hal_qmi_apis.c:5824-5829 | profiles agree if and only if they differ at most in identifier, kind, context, name, flags, mark and the case of letters in the APN |
| ProfileProofs.CreatesNoDuplicate | source/CellularManager/cellular_hal_qmi_apis.c:5790-5926 | a create never asks for a profile with which an entry of its table agrees |
| ProfileHistory.VerifyAccount | source/CellularManager/cellular_hal_qmi_apis.c:5857-5898 | a check keeps the account of misses, except that the third miss before a creation lends it three |
| ProfileHistory.TaskAccount | source/CellularManager/cellular_hal_qmi_apis.c:5643-6087 | a task keeps the account; only a modify may lose misses; the counter stays below three |
| ProfileHistory.MissedMeansLoaded | source/CellularManager/cellular_hal_qmi_apis.c:5848-5926 | after the check, an unhindered create that found nothing follows a miss at once exactly if a table is loaded |
| ProfileHistory.CreatePays | source/CellularManager/cellular_hal_qmi_apis.c:5656-5926 | over every create run: one more creation follows a miss at once if and only if the run gets to the creation, nothing holds it back and a table is loaded there |
| ProfileHistory.ThreeMissesPerCreation | source/CellularManager/cellular_hal_qmi_apis.c:5857-5926 | over any calls, three times the creations made with a table loaded at the creation, plus the counter, never exceed the misses, with equality if there was no modify |
| ProfileStatus.ListRead | source/CellularManager/cellular_hal_qmi_apis.c:6473-6592 | if all settings arrive, the table holds the profiles of the list in its order (`ProfileTraces.ListedProfiles` gives their fields) |
| ProfileStatus.ListBroken | source/CellularManager/cellular_hal_qmi_apis.c:6338-6370 | the first entry whose settings do not arrive ends the reading, and what it leaves |
| ProfileStatus.ListAnswered | source/CellularManager/cellular_hal_qmi_apis.c:6213-6262 | the caller of a list is handed the table exactly if the client and the default profile could be had and the task was done before the wait timed out; otherwise it gets nothing and nothing changes |
| ProfileStatus.RequestBound | source/CellularManager/cellular_hal_qmi_apis.c:5643-6087 | a task asks the modem at most eight times, plus once for every profile |
| ProfileStatus.FoundWhileHindered | source/CellularManager/cellular_hal_qmi_apis.c:5824-5843 | while retries are pending, a create that finds its profile asks nothing, reports "not ready" and leaves the counters |
| ProfileStatus.FoundCloses | source/CellularManager/cellular_hal_qmi_apis.c:5790-6076 | with nothing pending, everything a create that finds its profile does from the check on, event by event, for default and other profiles |
| ProfileStatus.FoundReady | source/CellularManager/cellular_hal_qmi_apis.c:5790-6076 | for every profile, store and answer, each status is told by a create that finds its profile if and only if: "not ready" with retries pending; else nothing if the default is refused, "created" if the attach list is changed, and "ready" otherwise |
| ProfileStatus.CreatedStatus | source/CellularManager/cellular_hal_qmi_apis.c:5905-6076 | when a profile that was really created is reported as ready instead of created, or not at all, by the stored match, the default mark and the answers alone; a refused creation tells "not ready" of an unknown profile |
| ProfileStatus.ModifyConfirmed | source/CellularManager/cellular_hal_qmi_apis.c:5928-6076 | a modify gets to its notification if and only if it has a client, the check does not exit, and the profile is there or is changed and not to be the default |
| ProfileTraces.CreateCall | source/CellularManager/cellular_hal_qmi_apis.c:5643-6087 | every event of a create, from the profile, the store and the answers: which client, default and list requests open it; which entry is taken over; that the profile sought is sent, and when; and what is set, attached and told |
| ProfileTraces.DeleteCall | source/CellularManager/cellular_hal_qmi_apis.c:5723-5789 | every event of a delete: the removal of the profile it is given, then the list, then "deleted", or "not ready" with retries pending; nothing after a failure |
| ProfileTraces.Removals | source/CellularManager/cellular_hal_qmi_apis.c:5075-5099 | over all operations: a removal is asked for exactly by a delete that has or gets a client, once, before anything else then, and it carries the identifier of the profile passed in |
| ProfileTraces.ModifyCall | source/CellularManager/cellular_hal_qmi_apis.c:5790-6076 | every event of a modify: the entry found and what is told of it, or the profile sought being sent and set as the default, and the default profile cached afterwards |
| ProfileTraces.ListCall | source/CellularManager/cellular_hal_qmi_apis.c:5666-5789 | every event of a list: client, default number and its settings, list, and the settings of the entries up to the first that do not arrive |
| ProfileTraces.ListGiven | source/CellularManager/cellular_hal_qmi_apis.c:6207-6262 | what the waiting caller is handed, whatever flag an earlier list has left: the table exactly if a client and a default profile are there or can be had, and in time |
| ProfileTraces.ListedProfiles | source/CellularManager/cellular_hal_qmi_apis.c:6338-6521 | field by field: the j-th profile has the identifier and name of the j-th entry, the eight settings answered for it, the 3GPP kind, and the mark if and only if it is the default |
| ProfileTraces.NothingListed | source/CellularManager/cellular_hal_qmi_apis.c:6523-6592 | without a list, or with an empty one, no profiles are left, and a table that was there stays empty |
| ProfileTraces.DefaultRead | source/CellularManager/cellular_hal_qmi_apis.c:5333-5559 | field by field: the cached default has the number that was answered and the settings that were answered for that number; if they do not arrive nothing of an earlier default is left |
| ProfileTraces.CheckAdopts | source/CellularManager/cellular_hal_qmi_apis.c:5815-5898 | the check takes over the first entry that agrees (for a modify: another than the one to be changed, if there is one), with the default mark of the profile sought, in the task and in the table |
| ProfileTraces.DefaultKept | source/CellularManager/cellular_hal_qmi_apis.c:5320-5331 | a create that sets the default profile makes it the cached one if and only if the modem accepts it |
| ProfileTraces.CallRefused | source/CellularManager/cellular_hal_qmi_apis.c:6263-6282 | without an open device, or for a modify without a profile, nothing is asked for and nothing changes but the one status told |
| PolicyController.Controller.constructor | source/CellularManager/cellularmgr_sm.c:1212-1254 | the controller after initialisation and the first transition to DOWN, in which the invariant holds |
| PolicyController.Controller.UpdateEnable | source/CellularManager/cellularmgr_sm.c:869-893 | enabled if and only if wanted and the modem is online |
| PolicyController.Controller.OnDetection | source/CellularManager/cellularmgr_sm.c:102-121 | a detection report sets the presence and closes the device |
| PolicyController.Controller.OnOpen | source/CellularManager/cellularmgr_sm.c:123-164 | an open report sets status, modem mode and enabling |
| PolicyController.Controller.OnSlot | source/CellularManager/cellularmgr_sm.c:166-187 | a slot report sets the slot status |
| PolicyController.Controller.OnRegistration | source/CellularManager/cellularmgr_sm.c:206-231 | a loss reported while registered becomes a registration in progress, any other report is taken |
| PolicyController.Controller.OnProfile | source/CellularManager/cellularmgr_sm.c:233-254 | a profile report sets status and PDP type |
| PolicyController.Controller.OnIp | source/CellularManager/cellularmgr_sm.c:286-328 | an IP report ends the start of its family, and takes it down if not ready |
| PolicyController.Controller.OnPacket | source/CellularManager/cellularmgr_sm.c:518-544 | a packet report sets the family's status and ends its start and wait; other families are ignored |
| PolicyController.Controller.SetModemEnable | source/CellularManager/cellularmgr_cellular_apis.c:1224-1251 | enabling is recomputed only if the modem took the new mode |
| PolicyController.Controller.ReadPhy | source/TR-181/middle_layer_src/cellularmgr_rbus_dml.c:711-729 | the getter stores and returns whether the reported state is REGISTERED or CONNECTED |
| PolicyController.Controller.TransitionDown | source/CellularManager/cellularmgr_sm.c:547-571 | DOWN, no slot, both families down |
| PolicyController.Controller.TransitionDeactivated | source/CellularManager/cellularmgr_sm.c:573-604 | the device is asked to open, and the reported state stays |
| PolicyController.Controller.TransitionDeregistered | source/CellularManager/cellularmgr_sm.c:606-616 | a slot is asked for and the registration forgotten |
| PolicyController.Controller.TransitionRegistering | source/CellularManager/cellularmgr_sm.c:618-633 | the registration is asked for |
| PolicyController.Controller.TransitionRegistered | source/CellularManager/cellularmgr_sm.c:635-651 | both families are cleared and a profile is asked for |
| PolicyController.Controller.TransitionStartNetwork | source/CellularManager/cellularmgr_sm.c:653-707 | the families of the PDP type are started, the type being looked at again after the first |
| PolicyController.Controller.TransitionStopNetwork | source/CellularManager/cellularmgr_sm.c:716-821 | the families are stopped, and where the machine goes from there |
| PolicyController.Controller.InDown | source/CellularManager/cellularmgr_sm.c:895-930 | the presence is read anew; a present device that is not open is asked to open; DEACTIVATED follows as soon as it is open |
| PolicyController.Controller.InDeactivated | source/CellularManager/cellularmgr_sm.c:932-967 | back to DOWN without the device; with the modem enabled a slot is asked for if there is none, and DEREGISTERED follows even if none is ready yet |
| PolicyController.Controller.InDeregistered | source/CellularManager/cellularmgr_sm.c:969-1049 | the exits to DOWN and DEACTIVATED, the guards that keep it waiting, the registration request and the move to REGISTERED, in the order of the source |
| PolicyController.Controller.WaitForRegistration | source/CellularManager/cellularmgr_sm.c:1127-1139 | the wait loop: polls until the count is reached or the modem is not registered |
| PolicyController.Controller.WhileAttached | source/CellularManager/cellularmgr_sm.c:1088-1160 | with a usable card: what a lost registration, the profile status, a pending start, the wait and the packet statuses lead to |
| PolicyController.Controller.InRegistered | source/CellularManager/cellularmgr_sm.c:1051-1161 | the exits to DOWN, DEACTIVATED and DEREGISTERED come first, and the card status is read only when the slot is ready |
| PolicyController.Controller.InConnected | source/CellularManager/cellularmgr_sm.c:1163-1210 | a removed or closed device leads to DOWN or DEACTIVATED; any other reason to leave, a lost family of the PDP type included, clears both families and stops the network (`PolicyTurns.TurnInConnected` gives the exact conditions) |
| PolicyController.Controller.PublishConnectionStatus | source/CellularManager/cellularmgr_sm.c:824-857 | what a new state publishes; CONNECTED leaves the physical status |
| PolicyController.Controller.Cycle | source/CellularManager/cellularmgr_sm.c:1268-1313 | one turn of the loop: publication of a new state, then its function; the invariant is kept |
| PolicyController.Controller.Operate | source/CellularManager/cellularmgr_sm.c:1256-1323 | any turns and callbacks, in any order, do what the model's run does and keep the invariant of PolicyProofs in the object |
| PolicyProofs.NextKept | source/CellularManager/cellularmgr_sm.c:1268-1313 | every turn and every callback keeps the whole invariant |
| PolicyProofs.Invariant | source/CellularManager/cellularmgr_sm.c:1212-1323 | the invariant holds after every run from the start |
| PolicyResults.StateIsHistory | source/CellularManager/cellularmgr_sm.c:102-544 | in every run each field the callbacks and transitions write is what the history says: what was reported, set and asked last, from the settings before the start on |
| PolicyTurns.TurnInDown | source/CellularManager/cellularmgr_sm.c:895-930 | where a turn in DOWN leads and what it asks for, exactly, over all situations and all callbacks during the turn |
| PolicyTurns.TurnInDeactivated | source/CellularManager/cellularmgr_sm.c:932-967 | the same for DEACTIVATED |
| PolicyTurns.TurnInDeregistered | source/CellularManager/cellularmgr_sm.c:969-1049 | the same for DEREGISTERED |
| PolicyTurns.TurnInRegistered | source/CellularManager/cellularmgr_sm.c:1051-1161 | the same for REGISTERED: each exit with its condition, the profile request, the wait and its polls, and the families that are started |
| PolicyTurns.EntersConnected | source/CellularManager/cellularmgr_sm.c:1145-1161 | CONNECTED is entered from REGISTERED if and only if everything needed is there, no start is pending and every family of the PDP type has been reported up and not lost |
| PolicyTurns.TurnInConnected | source/CellularManager/cellularmgr_sm.c:1163-1210 | a turn in CONNECTED ends there if and only if nothing it needs is lost as it begins, every family of the PDP type included; each other exit with its condition, and the families that are stopped |
| PolicyHistory.NasAccount | source/CellularManager/cellularmgr_sm.c:218-228 | requests, other recoveries and a pending loss add up to the losses |
| PolicyResults.FamilyPhases | source/CellularManager/cellularmgr_sm.c:286-328 | a family being started waits and has no address, one that waits is not up, for both families and all interleavings |
| PolicyResults.PacketHistory | source/CellularManager/cellularmgr_sm.c:1111-1208 | the packet status is what the history says; CONNECTED is entered only with every family up; nothing is being started while connected |
| PolicyResults.ReportedState | source/CellularManager/cellularmgr_sm.c:573-604 | the reported state is the driven one, except in DEACTIVATED, where it is never DOWN |
| PolicyResults.PublishedLinkState | source/CellularManager/cellularmgr_sm.c:824-857 | at every dispatch: link holds exactly in CONNECTED; exactly when phy holds, reads of it included; link implies phy |
| PolicyResults.PublishedWithoutReads | source/CellularManager/cellularmgr_sm.c:824-857 | without reads phy holds exactly in REGISTERED and CONNECTED |
| PolicyResults.StalePhysicalStatus | source/TR-181/middle_layer_src/cellularmgr_rbus_dml.c:711-729 | a run in which a read makes phy true in DEACTIVATED |
| PolicyResults.JustifiedRequests | source/CellularManager/cellularmgr_sm.c:951-1142 | in every run a slot is asked for only with the device open and no slot, the registration only when lost and a slot is ready, a profile only when registered without one, the network started only when registered, and a family only when no start of it is pending |
| PolicyResults.OnlyCallbacksEndWait | source/CellularManager/cellularmgr_sm.c:1111-1118 | with a start pending in REGISTERED, any number of turns without callbacks changes nothing |
| PolicyResults.HeldUpAfterRemoval | source/CellularManager/cellularmgr_sm.c:547-571 | a run from the start in which the device is removed while the network is being started, comes back and registers anew, and is held up from then on for as long as no callback arrives |
| PolicyResults.RegistrationRequests | source/CellularManager/cellularmgr_sm.c:606-633 | registration requests plus a pending loss never exceed the losses, and what makes up the difference |
| PolicyHistory.RequestsNeedLosses | source/CellularManager/cellularmgr_sm.c:606-633 | from any earlier point of a run on, no more registrations are requested than losses are added or were pending |
| PolicyResults.LossWhileRegistered | source/CellularManager/cellularmgr_sm.c:218-228 | a loss that arrives while registered asks for nothing: however the run goes on, every later request answers a further loss |
| PolicyResults.StartDebounce | source/CellularManager/cellularmgr_sm.c:1120-1143 | no wait is half done between turns, one is due until the first start after CONNECTED, that start follows three good polls in a row, and a poll is good exactly if the modem was registered when it was made |
| PolicyResults.FreshReattach | source/CellularManager/cellularmgr_sm.c:547-616 | each CONNECTED has packet reports newer than DOWN; in REGISTERED and CONNECTED the registration is new if and only if a slot was asked for or a registration was reported since DOWN, and it is missing only in an episode with an unsolicited slot report |
| PolicyResults.LeavingDeactivated | source/CellularManager/cellularmgr_sm.c:947-966 | a turn from DEACTIVATED to DEREGISTERED leaves a slot asked for if and only if one had been asked for in this episode or none was ready or being selected when the turn began |
| PolicyResults.StaleRegistration | source/CellularManager/cellularmgr_sm.c:947-966 | a run that ends in REGISTERED after a removal without a new registration |
| DeviceOpen.OpenTask | source/CellularManager/cellular_hal_qmi_apis.c:1872-2117 | exactly the reached queries in order, one callback that says ready if and only if the device was or became open, one release at the end, and the clients afterwards |
| DeviceOpen.ReadyWithoutClients | source/CellularManager/cellular_hal_qmi_apis.c:1668-1745 | when "ready" is told without a registration client |
| DeviceOpen.Opener.Step | source/CellularManager/cellular_hal_qmi_apis.c:1872-2117 | the switch leaves the task with what remains from its step on |
| DeviceOpen.Opener.Deliver | source/CellularManager/cellular_hal_qmi_apis.c:718-768 | each answer leaves the task with what remains after it, at a later step |
| DeviceOpen.Opener.RunTask | source/CellularManager/cellular_hal_qmi_apis.c:1872-2117 | the coroutine ends, as the description of its steps says |
| Registration.MonitorTask | source/CellularManager/cellular_hal_qmi_apis.c:3804-4039 | at most three queries, all but the last undecided; the status, service and counter by the last answer, and the roaming told by the latest that carries an indicator, all read off the answers' fields; one callback and one release |
| Registration.SingleTask | source/CellularManager/cellular_hal_qmi_apis.c:3943-3968 | a task of the management interface asks once; status, service and roaming by that answer, and an undecided one leaves the status |
| Registration.CounterAccount | source/CellularManager/cellular_hal_qmi_apis.c:3844-3962 | over any sequence of monitor tasks the static counter is the number of answers that have arrived since a task last gave up, successes included |
| Registration.TriesUsedUp | source/CellularManager/cellular_hal_qmi_apis.c:3844-3962 | once two have arrived, a task of the policy machine asks only once and gives up if that answer does not decide |
| Registration.Monitor.FindLte | source/CellularManager/cellular_hal_qmi_apis.c:3878-3889 | the loop finds out whether a radio is LTE |
| Registration.Monitor.Weigh | source/CellularManager/cellular_hal_qmi_apis.c:3844-3962 | what an answer makes of status, service, roaming, counter and step (what is told of them in the end is `MonitorTask`) |
| Registration.Monitor.RunTask | source/CellularManager/cellular_hal_qmi_apis.c:3804-4039 | the coroutine ends despite its jump back, as the recursion says |
| SlotSelection.Selector.SelectAndNotify | source/CellularManager/cellular_hal_qmi_apis.c:3141-3189 | one report, with and without a callback: the lowest usable slot is chosen, a lost one is given up |
| SlotSelection.Selecting | source/CellularManager/cellular_hal_qmi_apis.c:3141-3189 | over any reports the selected slot is usable in the latest, and the notices alternate, one for each change |
| SlotSelection.SelectingAmong | source/CellularManager/cellular_hal_qmi_apis.c:3141-3189 | with reports of one length the selection is one of their slots |
| SlotSelection.ReplacementTakesTwoReports | source/CellularManager/cellular_hal_qmi_apis.c:3130-3189 | a lost slot is not replaced in the same report, and the next one chooses the lowest usable slot |
| SlotSelection.SelectsFirst | source/CellularManager/cellular_hal_qmi_apis.c:3141-3189 | without a selection the first slot that is active and has a card with an ICCID is selected, and none exactly if there is none; a selection stays exactly as long as its slot is such a one |
| SlotSelection.SilentReplacement | source/CellularManager/cellular_hal_qmi_apis.c:3141-3189 | without a callback a lost slot is replaced in the same pass, by the first usable one above it |
| Iccid.DecodeIccid | source/CellularManager/cellular_hal_qmi_apis.c:2993-3007 | the loop decodes two nibbles a byte, low one first |
| Iccid.RoundTrip | source/CellularManager/cellular_hal_qmi_apis.c:2993-3007 | digits of any number, encoded and decoded, read as a C string, come back as the characters of those digits |
| Iccid.TextOfAnything | source/CellularManager/cellular_hal_qmi_apis.c:480-480 | any bytes give digits only: those of the nibbles before the first that is none |
| Iccid.BytesSpelled | source/CellularManager/cellular_hal_qmi_apis.c:2993-3007 | each byte that the text covers, taken as unsigned, spells its low half first and its high half second |
| Iccid.EncodesBack | source/CellularManager/cellular_hal_qmi_apis.c:2993-3007 | the text determines the bytes as far as it goes |
| CellReport.NasContext.Parse | source/CellularManager/cellular_hal_qmi_apis.c:1278-1412 | the stored table is the first twenty cells, or unchanged if the report has none or failed |
| CellReport.NasContext.CopyGroups | source/CellularManager/cellular_hal_qmi_apis.c:1369-1394 | the groups are copied one after the other as far as there is room |
| CellReport.FlattenedAt | source/CellularManager/cellular_hal_qmi_apis.c:1369-1394 | where a cell of a group stands in the table |
| CellReport.NasContext.GetCellInformation | source/CellularManager/cellular_hal_qmi_apis.c:1170-1268 | the table with the serving cell marked, or an error and no cells |
| CellReport.ReportShown | source/CellularManager/cellular_hal_qmi_apis.c:1222-1268 | a report's first twenty cells come out in order with their channel and signals; the cell with the serving identity and channel carries the network's identity and timing, no other does |
| CellReport.RawCellShown | source/CellularManager/cellular_hal_qmi_apis.c:1271-1412 | where a cell of a frequency group comes out, with its channel and converted signals |
| CellReport.IntraCellShown | source/CellularManager/cellular_hal_qmi_apis.c:1354-1368 | the intra-frequency cells come out first, in order, on the channel of the report, with converted signals |
| CellReport.TableStays | source/CellularManager/cellular_hal_qmi_apis.c:1278-1346 | a report that failed, lacks its intra-frequency part or has no cells leaves the table as it was |
| CellReport.Units | source/CellularManager/cellular_hal_qmi_apis.c:1271-1276 | tenths are cut off towards zero, and a missing signal is zero |
| CellReport.Manager.GetCellInformation | source/CellularManager/cellularmgr_cellular_apis.c:1829-1919 | order and length are kept; a failed fetch wipes the cache |
| CellReport.CacheIsLastFetch | source/CellularManager/cellularmgr_cellular_apis.c:1829-1919 | over any calls, cached reads give what the last fetch brought, nothing if it failed or there was none |
| PacketStats.Statistics.ReadCounters | source/CellularManager/cellularmgr_cellular_apis.c:1273-1306 | zero without a connection, unchanged without an answer |
| PacketStats.Statistics.Update | source/CellularManager/cellularmgr_cellular_apis.c:1775-1827 | one sample is accounted for, and no difference wraps |
| PacketStats.ByteAccounts | source/CellularManager/cellularmgr_cellular_apis.c:1775-1827 | totals are the latest sample, router-mode counts the sum since the last fall, each fall counted once |
| PacketStats.Conservation | source/CellularManager/cellularmgr_cellular_apis.c:1799-1825 | router-mode counts and the rest add up to the totals |
| PacketStats.DisconnectResets | source/CellularManager/cellularmgr_cellular_apis.c:1298-1302 | losing the connection counts as a reset |
| RowContexts.ConversionIsSubstitution | source/TR-181/middle_layer_src/cellularmgr_rbus_helpers.c:46-95 | the loop ends if and only if the left-to-right substitution exists, and returns it |
| RowContexts.ConversionEnds | source/TR-181/middle_layer_src/cellularmgr_rbus_helpers.c:57-94 | it then takes at most one turn more than the path has characters |
| RowContexts.ConversionDiverges | source/TR-181/middle_layer_src/cellularmgr_rbus_helpers.c:80-92 | otherwise it never ends |
| RowContexts.StuckGrows | source/TR-181/middle_layer_src/cellularmgr_rbus_helpers.c:80-92 | an unknown alias that is not last makes the path longer with every turn |
| RowContexts.ResolvedIsPlain | source/TR-181/middle_layer_src/cellularmgr_rbus_helpers.c:46-95 | a path with known aliases converts to one without, which converts to itself |
| RowContexts.ContextMaps.ConvertPath | source/TR-181/middle_layer_src/cellularmgr_rbus_helpers.c:46-95 | the loop with two buffers returns the substitution |
| RowContexts.ContextMaps.SetRowContext | source/TR-181/middle_layer_src/cellularmgr_rbus_helpers.c:123-135 | what setting a row does to the three maps |
| RowContexts.DecimalSpells | source/TR-181/middle_layer_src/cellularmgr_rbus_helpers.c:126-126 | the number in a row's path is a numeral without leading zero that, read from left to right, gives the number back |
| RowContexts.RowPathsDiffer | source/TR-181/middle_layer_src/cellularmgr_rbus_helpers.c:126-126 | rows of one table with different numbers have different paths |
| RowContexts.RowIsFound | source/TR-181/middle_layer_src/cellularmgr_rbus_helpers.c:123-135 | a row is found under its table followed by the numeral of its number, and its alias is the table followed by the name in brackets; nothing else changes |
| RowContexts.SetKeepsInverse | source/TR-181/middle_layer_src/cellularmgr_rbus_helpers.c:123-135 | it keeps the alias maps inverse exactly if neither path nor alias is paired with another |
| RowContexts.ContextMaps.RemoveRowContextByName | source/TR-181/middle_layer_src/cellularmgr_rbus_helpers.c:144-154 | what removing a row does to the three maps |
| RowContexts.RowIsGone | source/TR-181/middle_layer_src/cellularmgr_rbus_helpers.c:144-154 | the removed row is gone with its alias, and every other row and alias stays |
| RowContexts.ContextMaps.RemoveRowContextByInstNum | source/TR-181/middle_layer_src/cellularmgr_rbus_helpers.c:137-142 | the same by instance number |
| RowContexts.NumberedConverts | source/TR-181/middle_layer_src/cellularmgr_rbus_helpers.c:137-142 | a converted table path with a number behind it converts again if and only if all aliases of the table path are known |
| RowContexts.SetThenRemove | source/TR-181/middle_layer_src/cellularmgr_rbus_helpers.c:123-154 | removing a fresh row, by path or by alias, gives back all three maps |
| RowContexts.ChangesKeepInverse | source/TR-181/middle_layer_src/cellularmgr_rbus_helpers.c:123-154 | over any such changes the alias maps stay inverse |
| RowContexts.ContextMaps.GetParentContext | source/TR-181/middle_layer_src/cellularmgr_rbus_helpers.c:97-116 | the context of the nearest ancestor that has one |

## Left out

- libqmi, GLib, rbus, CCSP, sysevent, syscfg, PSM, `system()` calls, logging, threads and mutexes: oracles and atomic steps.
- Two tasks of the same kind running at once, and task cancellation.
- Allocation failure, lengths of C buffers, lifetimes of the strings in the rbus maps, and lists of more than 255 profiles.
- The proxy and network-configuration fields of a profile.
- The serving-system, packet-service and event-report indications of libqmi, and starting and stopping a bearer in the HAL.
- Callbacks that arrive between two statements of a state function outside a sleep, HAL request or HAL query.
- `Interface.Status`, which other code writes too, and the WAN manager's and TR-181's copies of phy and link.
- The context profile chosen from the PLMN when REGISTERED is entered, and slot details other than ICCID (EID, eUICC, card state).
- The check for the device file before an open task, and the removal signal of an open device.
- `eutra_band_info`, radio-condition thresholds, and the sector, GPS and scan-type fields of a cell: tables and copies.
- `IsTimeToSyncDynamicTable`, `GetParamName` and the reference count of the rbus maps.
- `main`, daemonising, HAL forwarding, partner JSON, webconfig and getters that copy a cached string: easy members only.
- RowContexts.ContextMaps.ConvertPath: asks for aliases that resolve and for targets without aliases, because the loop does not end otherwise (`ConversionDiverges`).
- RowContexts.ContextMaps.RemoveRowContextByName: asks for the same of the removed path, whose conversion is that loop.
- RowContexts.ContextMaps.RemoveRowContextByInstNum: asks for a table whose aliases are all known, because exactly then both of its conversions end (`NumberedConverts`).

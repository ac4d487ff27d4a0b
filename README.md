# Firmware update state machine

This project models `FWUpdateManager` from DmIvanov/StateMachine, a Swift
state machine that drives a firmware update through these stages:

1. Check the current version.
2. Ask the remote API whether an update exists.
3. Download it with progress.
4. Store it locally.
5. Upload it to the device with progress.
6. Wait for the device to install and restart.

Every state change goes through a serial queue (`changeState`). When a
queued block runs, it assigns the state and starts its entry action. The
`state` observer tells the UI delegate of each assignment that differs
from the old value under the hand-written `==`. The collaborators are
mocks, and each one has a settable `error` field. `initiateError` arms
one of these fields, chosen by the current state. In the checking,
downloading and downloaded states it arms the API client's field. In the
uploading and waiting states it arms the device manager's field. The mock
transfers read their field on every iteration. The install reads the
device manager's field before it answers.

The model has five modules:

- `UpdateState` (`state.dfy`): the `State` and `FWUpdateError` enums,
  `FWFile`, `FWUpdateIntermediateResult`, and the hand-written `==`. It
  also has `stringRepresentation`, with a decimal rendering of integers
  and its parser.
- `Services` (`services.dfy`): the mock collaborators. The two transfer
  loops are one method, `TransferLoop`, proved against the recursive
  specification `Transfer`. Each asynchronous operation is modelled as
  the sequence of callbacks it delivers.
- `UpdateMachine` (`machine.dfy`): the manager as a value (`Machine`) and
  every operation as a function from one value to the next.
  - A `Machine` holds the current state, the log of delegate
    notifications, the serial queue, the operations started on the
    collaborators, and the two armed error fields.
  - `Run` drives the manager with a script of events: start, one queue
    step, fault injection, or a collaborator callback.
  - A callback is delivered only when it is `Admissible`. Its operation
    must have been started and its reply must be of the operation's
    kind. For the two transfers and the install, the reply must also be
    one the collaborator can give now. With its collaborator's field nil,
    a transfer reports progress of 95 to 99 percent or completes
    successfully. With the field armed, it can only fail with that error,
    and the install answers `false`. The answers of the update check and of the store are
    left free (see "## Left out").
- `MachineProperties` (`properties.dfy`) and `Traces` (`traces.dfy`):
  properties of single operations and of whole runs.
  - The notification log invariant covers every run.
  - The complete update run is described exactly.
  - A fault is covered in each state where `initiateError` does
    something:
    - checking: `Traces.CheckFaultRun`;
    - downloading: `Traces.DownloadFaultRun`;
    - downloaded: `Traces.FaultWhileDownloadedIsSilent`;
    - uploading: `Traces.UploadFaultRun` and `Traces.UploadFaultBlocksCompletion`;
    - waiting for the restart: `Traces.FaultWhileWaitingFailsInstall`.
- `Manager` (`manager.dfy`): the class `FWUpdateManager` with the fields
  the source updates in place. Each method is proved to move `Snapshot()`
  exactly as a function of `UpdateMachine` does:
  - the source's own methods move it as the function of the same name;
  - the `state` setter moves it as `Assign`;
  - one block of the serial queue (`RunQueuedBlock`) moves it as `Step`;
  - `ProcessResult` moves it as `ChangeState` of the continuation's state
    or of the error.

  The four entry points are `StartTheProcess`, `InitiateError`,
  `RunQueuedBlock` and `Deliver`. With the mock collaborators, each one is
  also proved equal to `Apply` on one event: `Start`, `Fault`, `Tick` or
  `Callback`. `Deliver` takes any well-formed reply to a started
  operation, and it is `Apply` of the `Callback` event when the reply is
  also `Admissible`.
  `Traces.RunOne` and `Traces.RunAppend` compose such equalities, so a
  sequence of calls takes the object to `Run` of the corresponding events.
  No lemma does this composition for a particular call sequence.

Five behaviours of the code that a reader may not expect:

- **Start is not guarded.** `startTheProcess` enqueues `.started`
  whatever the current state, so a finished or failed update starts
  again (`Traces.RestartAfterDone`).
- **Armed errors stay armed.** Nothing resets a collaborator's `error`,
  so a fault injected once affects every later transfer of that
  collaborator. A fault arms one collaborator only, so an API fault never
  affects an upload. After the fault, a transfer of that collaborator
  fails at its first iteration (`Traces.ArmedTransferFails`).
  After an upload fault, restarting runs the pipeline to `storedToFile`
  again, and then the upload fails with `deviceUploadingError`
  (`Traces.RetryWhileArmed`, `Traces.UploadFaultPersists`).
- **A fault after the download is silent.** In `downloadedFromAPI` the
  fault sets the API client's error to `storingError`. Nothing later in
  the same run reads that field, so the update reaches `storedToFile` as
  if no fault had happened (`Traces.FaultWhileDownloadedIsSilent`). A
  later update reads it: its download fails at once with `storingError`
  (`Traces.ArmedTransferFails`).
- **A fault in `storedToFile` does nothing.** Only a fault injected after
  the upload has reported progress makes it fail (`Traces.UploadFaultRun`).
- **`done` is never equal to itself.** The hand-written `==` has no arm
  for `(.done, .done)` (`UpdateState.EqualReflexiveExceptDone`).

## Model

| member | source | states |
|---|---|---|
| UpdateState.Equal | StateMachine/State.swift:85-111 | the hand-written `==`; its properties are stated by the five lemmas below |
| UpdateState.EqualIsIdentityExceptDone | StateMachine/State.swift:85-111 | the hand-written `==` holds exactly when the two states are structurally equal and not `done` |
| UpdateState.EqualReflexiveExceptDone | StateMachine/State.swift:85-111 | every state is `==` to itself except `done`, because the switch has no `(.done, .done)` arm |
| UpdateState.EqualSymmetric | StateMachine/State.swift:85-111 | `==` is symmetric |
| UpdateState.DifferentVariantsAreUnequal | StateMachine/State.swift:108-109 | states of different cases are never `==` (the default arm) |
| UpdateState.EqualComparesPayloads | StateMachine/State.swift:92-107 | each arm compares the whole payload of its case: version, percentage and path, file, or error |
| UpdateState.IntToStringRoundTrip | StateMachine/State.swift:66-75 | parsing the decimal rendering used by string interpolation gives back the integer, negative ones included |
| UpdateState.IntToStringInjective | StateMachine/State.swift:66-75 | distinct integers render differently |
| UpdateState.StringRepresentation | StateMachine/State.swift:63-82 | the status line of each state; its properties are stated by the lemmas below |
| UpdateState.StatusLinePrefixes | StateMachine/State.swift:63-82 | a status line starts with "v." exactly for the checking, downloading and downloaded states, and with "Error: " exactly for the error states |
| UpdateState.CheckingLine | StateMachine/State.swift:66-67 | the checking line starts with "v." and not with "Error: " |
| UpdateState.DownloadingLine | StateMachine/State.swift:68-69 | the downloading line starts with "v." and not with "Error: " |
| UpdateState.DownloadedLine | StateMachine/State.swift:70-71 | the downloaded line starts with "v." and not with "Error: " |
| UpdateState.RenderingIgnoresLocations | StateMachine/State.swift:63-82 | the status line does not depend on paths or files; every stored file renders as "file stored" |
| UpdateState.CheckingRenderingDeterminesVersion | StateMachine/State.swift:66-67 | the checking status line determines the current version |
| UpdateState.DownloadingRenderingDeterminesProgress | StateMachine/State.swift:68-69 | the download status line determines both the version and the percentage |
| UpdateState.DownloadedRenderingDeterminesVersion | StateMachine/State.swift:70-71 | the downloaded status line determines the version |
| UpdateState.UploadingRenderingDeterminesProgress | StateMachine/State.swift:74-75 | the upload status line determines the percentage |
| Services.Transfer | StateMachine/Services.swift:32-43 | the callbacks an iteration sequence delivers are progress for 95, 96, … while the error is nil. After that there is exactly one completion: a failure carrying the first error seen, or, once 100 is reached with no error, success |
| Services.TransferLoop | StateMachine/Services.swift:32-43 | the loop delivers exactly `Transfer` of its error field. With no error that is 95..99 percent progress and then success; with an error it is only the failing completion |
| Services.CleanTransfer | StateMachine/Services.swift:32-43 | from any percent on, with no error, the loop reports progress up to 99 and then completes successfully |
| Services.TransferWithoutFault | StateMachine/Services.swift:32-43 | a fault-free transfer reports 95, 96, 97, 98, 99 and then success |
| Services.FaultyTransfer | StateMachine/Services.swift:32-43 | an error first seen at iteration `percent + k` gives `k` progress callbacks, then that error as the only completion; later values of the field are never read |
| Services.TransferFaultAt | StateMachine/Services.swift:133-145 | an error armed after `k` upload iterations ends the transfer after `k` progress callbacks with one failing completion |
| Services.APIClient.CheckIfUpdateNeeded | StateMachine/Services.swift:22-27 | always answers version 4 and ignores the armed error |
| Services.APIClient.DownloadFirmware | StateMachine/Services.swift:29-45 | the download delivers the transfer callbacks of the client's error field |
| Services.FWValidator.UnpackFile | StateMachine/Services.swift:72-82 | unpacking keeps the version and uses the fixed unpacked path |
| Services.FWValidator.IsFWValid | StateMachine/Services.swift:84-89 | the mock check accepts every file |
| Services.FWValidator.ValidateOutcomes | StateMachine/Services.swift:57-70 | an unpacking failure is passed on unchanged, a valid unpacked file succeeds, and an invalid one fails with `downloadedVersionInvalid` |
| Services.FWValidator.UnpackAndValidate | StateMachine/Services.swift:57-70 | with the mock unpacker and checker, validation succeeds with the unpacked file of the same version |
| Services.DataStore.CurrentFWVersion | StateMachine/Services.swift:104-106 | the current version is 3 |
| Services.DataStore.PatchToSaveNewFW | StateMachine/Services.swift:108-110 | the save path is "some/local/path" |
| Services.DataStore.Store | StateMachine/Services.swift:112-118 | storing always reports success |
| Services.RemoteDeviceManager.UploadVersion | StateMachine/Services.swift:129-146 | the upload delivers the transfer callbacks of the device manager's error field |
| Services.RemoteDeviceManager.InstallAndRelaunch | StateMachine/Services.swift:148-153 | installation succeeds exactly when no error is armed |
| UpdateMachine.MockEnv | StateMachine/Services.swift:104-110 | the mock data store gives the current version 3 and the path "some/local/path"; the readiness check of FWUpdateManager.swift:126-130 says the device is ready |
| UpdateMachine.CheckPrerequisites | StateMachine/FWUpdateManager.swift:110-115 | a missing current version fails with `noCurrentVersion`; a present one succeeds with that version |
| UpdateMachine.CheckIfUploadingToDevicePossible | StateMachine/FWUpdateManager.swift:126-130 | the readiness check always answers `true` |
| UpdateMachine.Initial | StateMachine/FWUpdateManager.swift:25 | the state of a freshly constructed manager: `none`, no notifications, an empty queue, no operations and no armed error; `MachineProperties.InitialValid` and `Traces.MockHappyPath` state its contract |
| UpdateMachine.ChangeState | StateMachine/FWUpdateManager.swift:72-78 | `changeState` puts the new state at the end of the serial queue; `MachineProperties.StartEnqueuesStarted`, `MachineProperties.CallbackEnqueuesOne` and `MachineProperties.StepAppliesOldestState` state its contract |
| UpdateMachine.CheckIfUpdateIsNeeded | StateMachine/FWUpdateManager.swift:117-124 | starts the check and then enqueues checking; `MachineProperties.EntryActions` and `Traces.StartPhase` state its contract |
| UpdateMachine.DownloadNewVersion | StateMachine/FWUpdateManager.swift:132-150 | starts the download to the save path and then enqueues its 0% state; `MachineProperties.CallbackEffects` and `Traces.UpdateCheckedPhase` state its contract |
| UpdateMachine.StoreNewVersion | StateMachine/FWUpdateManager.swift:152-161 | starts the store of the downloaded file; `MachineProperties.EntryActions` and `Traces.DownloadCompletedPhase` state its contract |
| UpdateMachine.UploadFWToDevice | StateMachine/FWUpdateManager.swift:163-177 | starts the upload of the file; `MachineProperties.EntryActions` and `Traces.StoredPhase` state its contract |
| UpdateMachine.InstallAndRelaunchDevice | StateMachine/FWUpdateManager.swift:179-182 | starts the installation and then enqueues waiting; `MachineProperties.EntryActions` and `Traces.UploadCompletedPhase` state its contract |
| UpdateMachine.Assign | StateMachine/FWUpdateManager.swift:25-34 | the `state` setter and its observer; `MachineProperties.StepAppliesOldestState` and `MachineProperties.AssignPreservesValid` state its contract |
| UpdateMachine.Step | StateMachine/FWUpdateManager.swift:72-78 | one block of the serial queue: the oldest state is assigned, then processed; `MachineProperties.StepAppliesOldestState` states its contract |
| UpdateMachine.ProcessCurrentState | StateMachine/FWUpdateManager.swift:80-108 | the entry action of each state; `MachineProperties.EntryActions` and `MachineProperties.EntryActionsChangeNoState` state its contract |
| UpdateMachine.StartTheProcess | StateMachine/FWUpdateManager.swift:47-49 | start; `MachineProperties.StartEnqueuesStarted` states its contract |
| UpdateMachine.InitiateError | StateMachine/FWUpdateManager.swift:54-69 | fault injection; `MachineProperties.InitiateErrorArms` states its contract |
| UpdateMachine.ProcessResult | StateMachine/FWUpdateManager.swift:185-192 | the result dispatch; `MachineProperties.ProcessResultDispatch` states its contract |
| UpdateMachine.Deliver | StateMachine/FWUpdateManager.swift:117-177 | the closures registered for each operation; `MachineProperties.CallbackEffects`, `MachineProperties.FailedCallbacksEnqueueTheirError` and `MachineProperties.CallbackEnqueuesOne` state its contract |
| UpdateMachine.Watched | StateMachine/Services.swift:29-45 | the error field a started operation reads: the API client's for the download, the device manager's for the upload and the install |
| UpdateMachine.Consistent | StateMachine/Services.swift:32-43 | a transfer with its field armed delivers only the failing completion with that error; with the field nil it delivers progress of 95 to 99 percent or the successful completion; the install answers whether the device field is nil |
| UpdateMachine.TransferRepliesFit | StateMachine/Services.swift:32-43 | every reply of the transfer loop fits the value of the error field its iteration read, whatever the field holds at each iteration |
| UpdateMachine.LoopRepliesAreConsistent | StateMachine/Services.swift:32-43 | on a field that does not change, every reply the loop sends is one `Consistent` admits |
| UpdateMachine.Admissible | StateMachine/Services.swift:129-153 | a callback can be delivered when its operation was started, its reply has the operation's kind, and it is consistent with the armed fields |
| UpdateMachine.Apply | StateMachine/FWUpdateManager.swift:47-192 | one event; `MachineProperties.ApplyPreservesValid` states the invariant it keeps |
| UpdateMachine.Run | StateMachine/FWUpdateManager.swift:47-192 | a script of events; `MachineProperties.RunPreservesValid` and the lemmas of module Traces state its contracts |
| UpdateMachine.Deliveries | StateMachine/FWUpdateManager.swift:72-78 | each callback is followed by the queue step it enqueues: two events per callback |
| UpdateMachine.DeliveriesAlternate | StateMachine/FWUpdateManager.swift:72-78 | the `i`-th callback is event `2i` and the queue step it enqueued is event `2i+1` |
| MachineProperties.StepAppliesOldestState | StateMachine/FWUpdateManager.swift:25-34 | a queue step makes the oldest queued state current. The delegate is told of it exactly when it is not `==` to the old state; the rest of the queue keeps its order and the error fields are untouched |
| MachineProperties.EntryActionsChangeNoState | StateMachine/FWUpdateManager.swift:80-108 | an entry action never changes the state, the log or the error fields, and it only appends to the queue |
| MachineProperties.EntryActions | StateMachine/FWUpdateManager.swift:80-108 | the operations each state starts and the states it enqueues: `.error(noCurrentVersion)` without a version, the check, the store, upload or `deviceIsNotReady`, install then waiting, and nothing for the other states |
| MachineProperties.MockEntryActions | StateMachine/FWUpdateManager.swift:80-96 | with the mock collaborators, `.started` checks version 3 and `.storedToFile` always uploads |
| MachineProperties.CallbackEffects | StateMachine/FWUpdateManager.swift:117-177 | what each successful callback enqueues: the download of the answered version to the save path, progress states carrying the captured version, path and file, and the completed and stored states |
| MachineProperties.FailedCallbacksEnqueueTheirError | StateMachine/FWUpdateManager.swift:185-192 | a callback carrying an error enqueues exactly `.error` with that error and starts nothing |
| MachineProperties.CallbackEnqueuesOne | StateMachine/FWUpdateManager.swift:117-177 | every callback enqueues exactly one state and leaves the state, the log and the error fields alone |
| MachineProperties.ProcessResultDispatch | StateMachine/FWUpdateManager.swift:185-192 | a failure enqueues its error state and skips the continuation; a success runs the continuation on the value |
| MachineProperties.InitiateErrorArms | StateMachine/FWUpdateManager.swift:54-69 | fault injection arms exactly the field its state selects, with the error the source assigns, and does nothing in every other state |
| MachineProperties.StartEnqueuesStarted | StateMachine/FWUpdateManager.swift:47-49 | start enqueues `.started` whatever the state, and nothing else |
| MachineProperties.InitialValid | StateMachine/FWUpdateManager.swift:25 | a fresh manager satisfies the log invariant |
| MachineProperties.AssignPreservesValid | StateMachine/FWUpdateManager.swift:25-34 | assigning a state keeps the log invariant: the log ends in the current state and no two adjacent entries are `==` |
| MachineProperties.ApplyPreservesValid | StateMachine/FWUpdateManager.swift:25-192 | every single event keeps the log invariant |
| MachineProperties.RunPreservesValid | StateMachine/FWUpdateManager.swift:25-192 | every run keeps the log invariant |
| MachineProperties.DrainPassive | StateMachine/FWUpdateManager.swift:72-78 | draining a queue of states without entry actions applies them in FIFO order: the last becomes current and each one that differs from its predecessor is notified |
| MachineProperties.NotificationsAreDeduplicated | StateMachine/FWUpdateManager.swift:25-34 | the notifications of a drained queue never repeat a `==` state, and the first one differs from the state before it |
| Traces.RunAppend | StateMachine/FWUpdateManager.swift:72-78 | running two scripts one after the other is running their concatenation |
| Traces.DeliveriesAppend | StateMachine/FWUpdateManager.swift:72-78 | the deliveries of concatenated callbacks are the concatenated deliveries |
| Traces.DeliverAndRun | StateMachine/FWUpdateManager.swift:72-78 | a callback on a quiet manager followed by one step runs the closure and then the block it enqueued |
| Traces.StartPhase | StateMachine/FWUpdateManager.swift:47-49 | from a quiet manager that is not in `.started`, start and two steps notify started then checking, and start exactly the check of the current version |
| Traces.UpdateCheckedPhase | StateMachine/FWUpdateManager.swift:117-150 | the check's answer starts the download of the new version to the save path and notifies its 0% state |
| Traces.ProgressStates | StateMachine/FWUpdateManager.swift:137-141 | the states of `n` consecutive progress callbacks, with the request's captured version, path or file |
| Traces.ProgressPhase | StateMachine/FWUpdateManager.swift:137-141 | `n` successful progress callbacks, with percentages from 95 up to at most 99, notify the `n` progress states in order and start nothing |
| Traces.DownloadCompletedPhase | StateMachine/FWUpdateManager.swift:143-147 | the completed download notifies downloaded and starts the store of that version and path |
| Traces.StoredPhase | StateMachine/FWUpdateManager.swift:152-161 | the mock store's answer notifies stored and starts the upload of that file |
| Traces.UploadCompletedPhase | StateMachine/FWUpdateManager.swift:171-182 | the completed upload notifies uploaded then waiting, and starts the installation |
| Traces.InstalledPhase | StateMachine/FWUpdateManager.swift:97-104 | the installation answers whether the device field is nil: it notifies `done` when it is and `.error(deviceInstallingError)` when it is armed |
| Traces.FailurePhase | StateMachine/FWUpdateManager.swift:185-192 | a failing callback notifies the error it carries and starts nothing |
| Traces.FaultlessTransfer | StateMachine/FWUpdateManager.swift:132-177 | the callbacks of a fault-free transfer notify the five progress states before its completion |
| Traces.DownloadRun | StateMachine/FWUpdateManager.swift:47-161 | with no API error armed, the whole run from start to downloaded. The 9 states are notified in order, and exactly the check, the download and the store are started |
| Traces.UploadRun | StateMachine/FWUpdateManager.swift:163-182 | with no device error armed, the whole run from stored to done. The 8 upload and installation states are notified in order, and exactly the installation is started |
| Traces.HappyPathRun | StateMachine/FWUpdateManager.swift:47-192 | with neither error field armed, the complete fault-free update ends in `done`. It notifies exactly the pipeline's states in order and starts exactly check, download, store, upload and install |
| Traces.DownloadNotificationsShape | StateMachine/FWUpdateManager.swift:80-161 | the download part of the log has 9 entries, no error and no stored state |
| Traces.UploadNotificationsShape | StateMachine/FWUpdateManager.swift:163-182 | the upload part of the log has 8 entries, ends in `done` and has no error |
| Traces.HappyPathEndsInDone | StateMachine/FWUpdateManager.swift:47-192 | the complete log has 18 entries and its last one is `done` |
| Traces.HappyPathStoresOnce | StateMachine/FWUpdateManager.swift:152-161 | the complete log reports the stored file exactly once |
| Traces.HappyPathReportsNoError | StateMachine/FWUpdateManager.swift:47-192 | a fault-free update reports no error state |
| Traces.MockHappyPath | StateMachine/FWUpdateManager.swift:38-192 | a fresh manager with the mock collaborators updates from version 3 to 4 at "some/local/path": it ends in `done`, with an empty queue, no armed error and exactly the pipeline's log |
| Traces.RestartAfterDone | StateMachine/FWUpdateManager.swift:47-49 | after `done`, start runs the pipeline again from the version check |
| Traces.UploadFaultRun | StateMachine/FWUpdateManager.swift:54-69 | a fault during the upload, after `k` progress callbacks, notifies those `k` states and then `.error(deviceUploadingError)` and arms the device error |
| Traces.UploadFaultSkipsLaterStages | StateMachine/FWUpdateManager.swift:62-63 | after an upload fault the run ends in the error state. The earlier log is kept and no uploaded, waiting or done state is reported |
| Traces.CheckFaultRun | StateMachine/FWUpdateManager.swift:56-59 | a fault while checking makes the download fail at once. The log is started, checking, the 0% download state and `.error(apiError)` |
| Traces.FaultWhileDownloadedIsSilent | StateMachine/FWUpdateManager.swift:60-61 | a fault in `downloadedFromAPI` only arms the API client's error. The store still succeeds and the run reaches `storedToFile` unchanged |
| Traces.FaultWhileWaitingFailsInstall | StateMachine/FWUpdateManager.swift:64-65 | a fault while waiting for the restart makes the installation fail with `deviceInstallingError` |
| Traces.ArmedTransfer | StateMachine/Services.swift:32-43 | with the field armed before the first iteration, the transfer delivers only the failing completion |
| Traces.ArmedTransferFails | StateMachine/Services.swift:32-43 | a transfer started while its collaborator's field is armed notifies only that error and starts nothing |
| Traces.ArmedTransferDeliversNoSuccess | StateMachine/Services.swift:133-137 | with the field armed, no progress and no successful completion of the transfer is delivered |
| Traces.OutOfRangeProgressDropped | StateMachine/Services.swift:32-38 | a transfer's progress callback with a percentage outside 95 to 99 is not delivered |
| Traces.UploadFaultBlocksCompletion | StateMachine/FWUpdateManager.swift:62-63 | after a fault in `uploadingToDevice`, a successful upload completion is not delivered and the manager stays as the fault left it |
| Traces.DownloadFaultRun | StateMachine/FWUpdateManager.swift:58-59 | a fault during the download, after `k` progress callbacks, notifies those `k` states and then `.error(apiError)`; no store is started and no downloaded or stored state is notified |
| Traces.StoreThenArmedUpload | StateMachine/FWUpdateManager.swift:152-177 | with the device field armed, the stored file's upload fails at once with that error |
| Traces.RetryWhileArmed | StateMachine/FWUpdateManager.swift:47-177 | a new update started with the device field armed downloads and stores as usual, then ends in that error |
| Traces.UploadFaultPersists | StateMachine/FWUpdateManager.swift:54-69 | after an upload fault, a restart ends in `.error(deviceUploadingError)` at the next upload, and the device field stays armed |
| Manager.FWUpdateManager.constructor | StateMachine/FWUpdateManager.swift:38-44 | a fresh manager holds the given collaborators: state `none`, no notifications, an empty queue and no operations |
| Manager.FWUpdateManager.StartTheProcess | StateMachine/FWUpdateManager.swift:47-49 | the object moves as `UpdateMachine.StartTheProcess`, which is `Apply` of a start event |
| Manager.FWUpdateManager.InitiateError | StateMachine/FWUpdateManager.swift:54-69 | the collaborators' error fields move as `UpdateMachine.InitiateError`, which is `Apply` of a fault event |
| Manager.FWUpdateManager.ChangeState | StateMachine/FWUpdateManager.swift:72-78 | the new state joins the end of the queue |
| Manager.FWUpdateManager.SetState | StateMachine/FWUpdateManager.swift:25-34 | the state is assigned and the delegate notified exactly when the new state is not `==` to the old |
| Manager.FWUpdateManager.RunQueuedBlock | StateMachine/FWUpdateManager.swift:73-77 | running the oldest queued block moves the object as `UpdateMachine.Step` with the mock collaborators, which is `Apply` of a queue step |
| Manager.FWUpdateManager.ProcessCurrentState | StateMachine/FWUpdateManager.swift:80-108 | the object moves as `UpdateMachine.ProcessCurrentState` |
| Manager.FWUpdateManager.CheckIfUpdateIsNeeded | StateMachine/FWUpdateManager.swift:117-124 | the check is started, then checking is enqueued |
| Manager.FWUpdateManager.DownloadNewVersion | StateMachine/FWUpdateManager.swift:132-150 | the download is started, then its 0% state is enqueued |
| Manager.FWUpdateManager.StoreNewVersion | StateMachine/FWUpdateManager.swift:152-161 | the store of the file is started |
| Manager.FWUpdateManager.UploadFWToDevice | StateMachine/FWUpdateManager.swift:163-177 | the upload of the file is started |
| Manager.FWUpdateManager.InstallAndRelaunchDevice | StateMachine/FWUpdateManager.swift:179-182 | the installation is started, then waiting is enqueued |
| Manager.FWUpdateManager.ProcessResult | StateMachine/FWUpdateManager.swift:185-192 | a success enqueues the continuation's state; a failure enqueues its error state |
| Manager.FWUpdateManager.Deliver | StateMachine/FWUpdateManager.swift:117-177 | a well-formed reply to a started operation runs the closure registered for it and moves the object as `UpdateMachine.Deliver` with the mock save path; for an admissible reply that is `Apply` of the callback |

## Left out

- **UI and view controller.** `ViewController.swift` and the UI
  delegate's reaction are not modelled. The delegate calls are recorded
  as the `notified` log.
- **Threads and timing.** Grand Central Dispatch threads, the main
  queue, `sleep` and `[weak self]` are not modelled. The serial queue is
  a FIFO of states, each collaborator callback is an event of a run, and
  a released manager is not modelled.
- **Which value the delegate sees.** The main-queue closure reads
  `self.state` when it runs, which may be a later state than the one
  assigned. The log records the assigned state.
- **Interleaved transfers.** The traces deliver a transfer's callbacks
  as an uninterrupted sequence, each one followed by the queue step it
  causes. Other interleavings of callbacks and queue steps are not
  enumerated, except where a fault is injected part-way.
- **The race at the start of the download.** The download loop runs on a
  global queue with no `sleep` before its first iteration. Its 95%
  progress block can reach the serial queue before the 0% state that
  `downloadNewVersion` enqueues afterwards (`FWUpdateManager.swift:149`).
  With no error armed, the loop then sleeps and sends 96% to 99% and the
  completion, so the manager goes from 95% back to 0% and then on to
  `downloadedFromAPI` as usual. With the field armed, the failing
  completion can arrive before the 0% state. The 0% state then runs last,
  and the manager is left in `downloadingFromAPI(4, 0, path)`. The traces
  only cover the order in which the 0% state comes first.
- **The answers of the update check and the store.** `Consistent` leaves
  them free: a callback of the check may carry any version or any error,
  and the store's may report failure. The mock API client always answers
  version 4 (`Services.swift:25`), and the mock store always reports
  success (`Services.swift:112-118`). The trace lemmas take the answered
  version as a parameter, and `Traces.MockHappyPath` uses 4. The store's
  answer in the traces is the mock's, `DataStore.Store`. Runs in which the
  check fails or the store fails are admitted by `Run`, but the mocks
  never produce them.
- **How many callbacks an operation delivers.** `Admissible` constrains
  each callback on its own. It does not limit how many callbacks an
  operation delivers, or their order. The traces use the exact
  sequences that `Services.Transfer` computes.
- **Logging.** `print` is left out.
- **Firmware validation.** `FWValidatorDelegate` and the validation
  stage are not modelled, because the manager never calls the validator.
  The validator's own functions are modelled in `Services.FWValidator`.
- **Duplicate definitions.** `FWUpdateManager.swift:201-315` repeats the
  definitions of `State.swift` with identical text. They are modelled
  once, from `State.swift`.
- **Success carrying `false`.** The completion handlers assert that a
  successful result carries `true`. `UpdateMachine.WellFormed` excludes
  such a callback, so it is never delivered.
- **Integer width.** Swift's `Int` is 64 bits wide, and the model's
  integers are unbounded. Every version and percentage in the source is
  a small constant, so no overflow can happen.

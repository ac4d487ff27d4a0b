/**
 * The update manager as an object. Its fields are the ones the source
 * updates in place: the current state, its collaborators, and the serial
 * state-access queue. Two fields make the rest of its behaviour visible:
 * the log of states handed to the UI delegate, and the operations started
 * on the collaborators. Every method is proved to take the object from
 * `old(Snapshot())` to a value computed by module UpdateMachine: the
 * function of the same name for the source's own methods, `Assign` for the
 * `state` setter, `Step` for one block of the serial queue and
 * `ChangeState` for the continuation handed to `processResult`.
 *
 * The four entry points through which the object is driven from outside
 * (`StartTheProcess`, `InitiateError`, `RunQueuedBlock` and `Deliver`) are
 * each proved equal to `Apply` on one event, with the answers of the mock
 * collaborators (`MockEnv`); for `Deliver` this holds when the reply is
 * `Admissible`. A sequence of such calls therefore takes the
 * object to `Run` of the corresponding events (by `Traces.RunOne` and
 * `Traces.RunAppend`), and the properties of runs in modules
 * MachineProperties and Traces apply to it.
 *
 * `ProcessCurrentState` takes what its collaborators answer synchronously
 * (the current firmware version, the save path, whether the device is
 * ready) as an `Env`.
 */
module Manager {
  import opened UpdateState
  import opened Services
  import opened UpdateMachine

  class FWUpdateManager {
    const apiClient: APIClient
    const fwValidator: FWValidator
    const dataStore: DataStore
    const remoteDeviceManager: RemoteDeviceManager

    var state: State
    /** The states handed to the UI delegate, oldest first. */
    var notified: seq<State>
    /** The serial queue: states handed to `changeState` whose block has not run yet. */
    var pending: seq<State>
    /** The collaborator operations started, oldest first. */
    var requests: seq<Request>

    /** The object as a machine value; the error fields are those of the collaborators. */
    function Snapshot(): Machine
      reads this, apiClient, remoteDeviceManager
    {
      Machine(state, notified, pending, requests, apiClient.error, remoteDeviceManager.error)
    }

    constructor (apiClient: APIClient, dataStore: DataStore, remoteDeviceManager: RemoteDeviceManager, fwValidator: FWValidator)
      ensures this.apiClient == apiClient && this.dataStore == dataStore
      ensures this.remoteDeviceManager == remoteDeviceManager && this.fwValidator == fwValidator
      ensures Snapshot() == Initial().(apiError := apiClient.error, deviceError := remoteDeviceManager.error)
    {
      this.apiClient := apiClient;
      this.dataStore := dataStore;
      this.fwValidator := fwValidator;
      this.remoteDeviceManager := remoteDeviceManager;
      state := None;
      notified := [];
      pending := [];
      requests := [];
    }

    /** `startTheProcess`. */
    method StartTheProcess()
      modifies this
      ensures Snapshot() == UpdateMachine.StartTheProcess(old(Snapshot()))
      ensures Snapshot() == Apply(old(Snapshot()), MockEnv(), Event.Start)
    {
      ChangeState(Started);
    }

    /** `initiateError`: arms the error field of the collaborator that the current state names. */
    method InitiateError()
      modifies apiClient, remoteDeviceManager
      ensures Snapshot() == UpdateMachine.InitiateError(old(Snapshot()))
      ensures Snapshot() == Apply(old(Snapshot()), MockEnv(), Fault)
    {
      match state
      case CheckingIfUpdateNeeded(_) => apiClient.error := Some(ApiError);
      case DownloadingFromAPI(_, _, _) => apiClient.error := Some(ApiError);
      case DownloadedFromAPI(_, _) => apiClient.error := Some(StoringError);
      case UploadingToDevice(_, _) => remoteDeviceManager.error := Some(DeviceUploadingError);
      case WaitingForDeviceRestart => remoteDeviceManager.error := Some(DeviceInstallingError);
      case _ =>
    }

    /** `changeState`: the block for `newState` joins the end of the serial queue. */
    method ChangeState(newState: State)
      modifies this
      ensures Snapshot() == UpdateMachine.ChangeState(old(Snapshot()), newState)
    {
      pending := pending + [newState];
    }

    /** The `state` setter and its observer, which notifies the delegate of a change. */
    method SetState(newState: State)
      modifies this
      ensures Snapshot() == Assign(old(Snapshot()), newState)
    {
      var oldValue := state;
      state := newState;
      if !Equal(state, oldValue) {
        notified := notified + [state];
      }
    }

    /** The serial queue runs its oldest block: the state is set, then processed. */
    method RunQueuedBlock()
      requires pending != []
      modifies this
      ensures Snapshot() == Step(old(Snapshot()), MockEnv())
      ensures Snapshot() == Apply(old(Snapshot()), MockEnv(), Tick)
    {
      var newState := pending[0];
      pending := pending[1..];
      SetState(newState);
      ProcessCurrentState(MockEnv());
    }

    /** `processCurrentState`: the entry action of the current state. */
    method ProcessCurrentState(env: Env)
      modifies this
      ensures Snapshot() == UpdateMachine.ProcessCurrentState(old(Snapshot()), env)
    {
      match state
      case Started =>
        match UpdateMachine.CheckPrerequisites(env.currentVersion) {
          case Success(currentVersion) => CheckIfUpdateIsNeeded(currentVersion);
          case Failure(error) => ChangeState(Error(error));
        }
      case DownloadedFromAPI(newVersion, path) => StoreNewVersion(newVersion, path);
      case StoredToFile(file) =>
        if env.uploadPossible {
          UploadFWToDevice(file);
        } else {
          ChangeState(Error(DeviceIsNotReady));
        }
      case UploadedToDevice => InstallAndRelaunchDevice();
      case _ =>
    }

    /** `checkIfUpdateIsNeeded`: the check is started, then its state is enqueued. */
    method CheckIfUpdateIsNeeded(currentVersion: int)
      modifies this
      ensures Snapshot() == UpdateMachine.CheckIfUpdateIsNeeded(old(Snapshot()), currentVersion)
    {
      requests := requests + [CheckIfUpdateNeeded(currentVersion)];
      ChangeState(CheckingIfUpdateNeeded(currentVersion));
    }

    /** `downloadNewVersion`: the download to `path` is started, then its 0% state is enqueued. */
    method DownloadNewVersion(newVersion: int, path: string)
      modifies this
      ensures Snapshot() == UpdateMachine.DownloadNewVersion(old(Snapshot()), newVersion, path)
    {
      requests := requests + [DownloadFirmware(newVersion, path)];
      ChangeState(DownloadingFromAPI(newVersion, 0, path));
    }

    /** `storeNewVersion`: the store of the downloaded file is started. */
    method StoreNewVersion(version: int, path: string)
      modifies this
      ensures Snapshot() == UpdateMachine.StoreNewVersion(old(Snapshot()), version, path)
    {
      var file := FWFile(version, path);
      requests := requests + [Store(file)];
    }

    /** `uploadFWToDevice`: the upload of `file` is started. */
    method UploadFWToDevice(file: FWFile)
      modifies this
      ensures Snapshot() == UpdateMachine.UploadFWToDevice(old(Snapshot()), file)
    {
      requests := requests + [UploadVersion(file)];
    }

    /** `installAndRelaunch`: the installation is started, then the waiting state is enqueued. */
    method InstallAndRelaunchDevice()
      modifies this
      ensures Snapshot() == UpdateMachine.InstallAndRelaunchDevice(old(Snapshot()))
    {
      requests := requests + [Request.InstallAndRelaunch];
      ChangeState(WaitingForDeviceRestart);
    }

    /** `processResult`, for the continuation that enqueues `next`. */
    method ProcessResult<T>(result: IntermediateResult<T>, next: State)
      modifies this
      ensures result.Success? ==> Snapshot() == UpdateMachine.ChangeState(old(Snapshot()), next)
      ensures result.Failure? ==> Snapshot() == UpdateMachine.ChangeState(old(Snapshot()), Error(result.error))
    {
      match result
      case Success(_) => ChangeState(next);
      case Failure(error) => ChangeState(Error(error));
    }

    /**
     * The closure registered for `req` runs on `reply`: `req` was started
     * and `reply` has its kind (a successful completion of a transfer
     * carries `true`, as its handler asserts). When `reply` is also one the
     * collaborator can deliver now, the call is the `Callback` event.
     */
    method Deliver(req: Request, reply: Reply)
      requires req in requests && WellFormed(req, reply)
      modifies this
      ensures Snapshot() == UpdateMachine.Deliver(old(Snapshot()), MockEnv(), req, reply)
      ensures Admissible(old(Snapshot()), req, reply) ==>
        Snapshot() == Apply(old(Snapshot()), MockEnv(), Callback(req, reply))
    {
      var env := MockEnv();
      match req
      case CheckIfUpdateNeeded(_) =>
        match reply.returned {
          case Success(newVersion) => DownloadNewVersion(newVersion, env.savePath);
          case Failure(error) => ChangeState(Error(error));
        }
      case DownloadFirmware(newVersion, path) =>
        if reply.Progress? {
          match reply.progress {
            case Success(percentage) => ChangeState(DownloadingFromAPI(newVersion, percentage, path));
            case Failure(error) => ChangeState(Error(error));
          }
        } else {
          ProcessResult(reply.completion, DownloadedFromAPI(newVersion, path));
        }
      case Store(file) =>
        if reply.finished {
          ChangeState(StoredToFile(file));
        } else {
          ChangeState(Error(StoringError));
        }
      case UploadVersion(file) =>
        if reply.Progress? {
          match reply.progress {
            case Success(percentage) => ChangeState(UploadingToDevice(file, percentage));
            case Failure(error) => ChangeState(Error(error));
          }
        } else {
          ProcessResult(reply.completion, UploadedToDevice);
        }
      case InstallAndRelaunch =>
        if reply.finished {
          ChangeState(Done);
        } else {
          ChangeState(Error(DeviceInstallingError));
        }
    }
  }
}

/**
 * The update manager as a value: its current state, the notifications sent
 * to the UI delegate, the serial state-access queue (a FIFO of the states
 * handed to `changeState` and not yet applied), the collaborator operations
 * it has started, and the two error fields that fault injection arms.
 * Every operation of the manager is a function from one such value to the
 * next; the class in module Manager is proved to follow these functions.
 */
module UpdateMachine {
  import opened UpdateState
  import opened Services

  /** A collaborator operation the manager has started, with the values its callbacks capture. */
  datatype Request =
    | CheckIfUpdateNeeded(currentVersion: int)
    | DownloadFirmware(version: int, path: string)
    | Store(file: FWFile)
    | UploadVersion(file: FWFile)
    | InstallAndRelaunch

  /** The synchronous answers the manager obtains while processing a state. */
  datatype Env = Env(currentVersion: Optional<int>, savePath: string, uploadPossible: bool)

  datatype Machine = Machine(
    state: State,
    notified: seq<State>,
    pending: seq<State>,
    requests: seq<Request>,
    apiError: Optional<FWUpdateError>,
    deviceError: Optional<FWUpdateError>)

  /** The device-readiness check, whose two conditions are fixed to true. */
  function CheckIfUploadingToDevicePossible(): (possible: bool)
    ensures possible
  {
    var deviceIsConnected := true;
    var someOtherConditions := true;
    deviceIsConnected && someOtherConditions
  }

  /** The answers of the mock data store and of the readiness check. */
  function MockEnv(): (env: Env)
    ensures env == Env(Some(3), "some/local/path", true)
  {
    Env(DataStore.CurrentFWVersion(), DataStore.PatchToSaveNewFW(), CheckIfUploadingToDevicePossible())
  }

  /** A freshly constructed manager with freshly constructed collaborators. */
  function Initial(): Machine
  {
    Machine(None, [], [], [], Nil, Nil)
  }

  // ---------------------------------------------------------------------------
  // The primitive effects.

  /** `changeState`: the new state is put on the serial queue. */
  function ChangeState(m: Machine, newState: State): Machine
  {
    m.(pending := m.pending + [newState])
  }

  /** A collaborator operation is started. */
  function Call(m: Machine, r: Request): Machine
  {
    m.(requests := m.requests + [r])
  }

  /** The `state` setter: the delegate hears of the new state unless it `==` the old one. */
  function Assign(m: Machine, newState: State): Machine
  {
    m.(state := newState, notified := if Equal(newState, m.state) then m.notified else m.notified + [newState])
  }

  /** What an operation adds: operations started and states enqueued; nothing else changes. */
  function Effect(m: Machine, calls: seq<Request>, enqueued: seq<State>): Machine
  {
    m.(requests := m.requests + calls, pending := m.pending + enqueued)
  }

  // ---------------------------------------------------------------------------
  // Entry actions.

  function CheckPrerequisites(currentVersion: Optional<int>): (r: IntermediateResult<int>)
    ensures currentVersion.Nil? <==> r == Failure(NoCurrentVersion)
    ensures currentVersion.Some? ==> r == Success(currentVersion.value)
  {
    match currentVersion
    case Nil => Failure(NoCurrentVersion)
    case Some(v) => Success(v)
  }

  function CheckIfUpdateIsNeeded(m: Machine, currentVersion: int): Machine
  {
    ChangeState(Call(m, CheckIfUpdateNeeded(currentVersion)), CheckingIfUpdateNeeded(currentVersion))
  }

  function DownloadNewVersion(m: Machine, newVersion: int, path: string): Machine
  {
    ChangeState(Call(m, DownloadFirmware(newVersion, path)), DownloadingFromAPI(newVersion, 0, path))
  }

  function StoreNewVersion(m: Machine, version: int, path: string): Machine
  {
    Call(m, Store(FWFile(version, path)))
  }

  function UploadFWToDevice(m: Machine, file: FWFile): Machine
  {
    Call(m, UploadVersion(file))
  }

  function InstallAndRelaunchDevice(m: Machine): Machine
  {
    ChangeState(Call(m, InstallAndRelaunch), WaitingForDeviceRestart)
  }

  /** `processCurrentState`: the entry action of the current state. */
  function ProcessCurrentState(m: Machine, env: Env): Machine
  {
    match m.state
    case Started =>
      (match CheckPrerequisites(env.currentVersion)
       case Success(currentVersion) => CheckIfUpdateIsNeeded(m, currentVersion)
       case Failure(error) => ChangeState(m, Error(error)))
    case DownloadedFromAPI(newVersion, path) => StoreNewVersion(m, newVersion, path)
    case StoredToFile(file) =>
      if env.uploadPossible then UploadFWToDevice(m, file) else ChangeState(m, Error(DeviceIsNotReady))
    case UploadedToDevice => InstallAndRelaunchDevice(m)
    case _ => m
  }

  /** The states that have no entry action. */
  predicate Passive(s: State)
  {
    !(s.Started? || s.DownloadedFromAPI? || s.StoredToFile? || s.UploadedToDevice?)
  }

  /** The serial queue runs its oldest block: assign the state, then run its entry action. */
  function Step(m: Machine, env: Env): Machine
    requires m.pending != []
  {
    ProcessCurrentState(Assign(m.(pending := m.pending[1..]), m.pending[0]), env)
  }

  /** `startTheProcess`: `.started` is enqueued, whatever the current state. */
  function StartTheProcess(m: Machine): Machine
  {
    ChangeState(m, Started)
  }

  /**
   * `initiateError`: arms one collaborator's error field, chosen by the
   * current state. The API client's field is armed while checking,
   * downloading and downloaded; the device manager's field is armed while
   * uploading and waiting for the restart.
   */
  function InitiateError(m: Machine): Machine
  {
    match m.state
    case CheckingIfUpdateNeeded(_) => m.(apiError := Some(ApiError))
    case DownloadingFromAPI(_, _, _) => m.(apiError := Some(ApiError))
    case DownloadedFromAPI(_, _) => m.(apiError := Some(StoringError))
    case UploadingToDevice(_, _) => m.(deviceError := Some(DeviceUploadingError))
    case WaitingForDeviceRestart => m.(deviceError := Some(DeviceInstallingError))
    case _ => m
  }

  // ---------------------------------------------------------------------------
  // Callbacks.

  /** `processResult`: a success runs the continuation, a failure enqueues the error state. */
  function ProcessResult<T>(m: Machine, result: IntermediateResult<T>, continuation: T -> Machine): Machine
  {
    match result
    case Success(value) => continuation(value)
    case Failure(error) => ChangeState(m, Error(error))
  }

  /** Which callbacks the operation of a request delivers. */
  predicate Fits(req: Request, reply: Reply)
  {
    match req
    case CheckIfUpdateNeeded(_) => reply.Returned?
    case DownloadFirmware(_, _) => reply.Progress? || reply.Completion?
    case Store(_) => reply.Finished?
    case UploadVersion(_) => reply.Progress? || reply.Completion?
    case InstallAndRelaunch => reply.Finished?
  }

  /**
   * A callback the manager can receive: one its operation delivers, and not a
   * successful completion carrying `false`, which the manager asserts against.
   */
  predicate WellFormed(req: Request, reply: Reply)
  {
    Fits(req, reply) && reply != Completion(Success(false))
  }

  /** The error field the operation of `req` reads when it calls back; the check and the store read none. */
  function Watched(m: Machine, req: Request): Optional<FWUpdateError>
  {
    match req
    case DownloadFirmware(_, _) => m.apiError
    case UploadVersion(_) => m.deviceError
    case InstallAndRelaunch => m.deviceError
    case _ => Nil
  }

  /**
   * Whether the operation of `req` can deliver `reply` now. Each iteration
   * of a transfer loop reads its error field and calls back at once: an
   * armed field makes the failing completion carrying that error the only
   * callback it can deliver, and with the field nil no callback fails. The
   * installation reports success exactly when its field is nil. The check
   * and the store never read a field.
   */
  predicate Consistent(m: Machine, req: Request, reply: Reply)
  {
    match req
    case DownloadFirmware(_, _) => TransferReplyFits(m.apiError, reply)
    case UploadVersion(_) => TransferReplyFits(m.deviceError, reply)
    case InstallAndRelaunch => reply == Finished(m.deviceError.Nil?)
    case _ => true
  }

  /**
   * A reply an iteration of the loop `for percent in 95...100` can send
   * after reading `error`: the failing completion with the armed error, or
   * with no error the progress of an iteration below 100 or the success.
   */
  predicate TransferReplyFits(error: Optional<FWUpdateError>, reply: Reply)
  {
    match error
    case Some(e) => reply == Completion(Failure(e))
    case Nil =>
      (reply.Progress? && reply.progress.Success? && 95 <= reply.progress.value <= 99)
      || reply == Completion(Success(true))
  }

  /**
   * Every reply of the transfer loop fits the value of the error field that
   * its iteration read, whatever the field holds at each iteration.
   */
  lemma TransferRepliesFit(observed: seq<Optional<FWUpdateError>>)
    requires |observed| == 6
    ensures var rs := Transfer(95, observed);
      forall i :: 0 <= i < |rs| ==> TransferReplyFits(observed[i], rs[i])
  {
    var rs := Transfer(95, observed);
    forall i | 0 <= i < |rs|
      ensures TransferReplyFits(observed[i], rs[i])
    {
      if i < |rs| - 1 {
        assert rs[i] == Progress(Success(95 + i)) && observed[i] == Nil;
      }
    }
  }

  /** The replies that `Consistent` admits for a transfer include all that its loop sends on a fixed field. */
  lemma LoopRepliesAreConsistent(error: Optional<FWUpdateError>)
    ensures forall r :: r in Transfer(95, Repeat(error, 6)) ==> TransferReplyFits(error, r)
  {
    var rs := Transfer(95, Repeat(error, 6));
    TransferRepliesFit(Repeat(error, 6));
    forall r | r in rs
      ensures TransferReplyFits(error, r)
    {
      var i :| 0 <= i < |rs| && rs[i] == r;
    }
  }

  /** A callback that an operation that has been started can deliver now. */
  predicate Admissible(m: Machine, req: Request, reply: Reply)
  {
    req in m.requests && WellFormed(req, reply) && Consistent(m, req, reply)
  }

  /** The body of the closure registered for `req`, run on `reply`. */
  function Deliver(m: Machine, env: Env, req: Request, reply: Reply): Machine
    requires WellFormed(req, reply)
  {
    match req
    case CheckIfUpdateNeeded(_) =>
      ProcessResult(m, reply.returned, (newVersion: int) => DownloadNewVersion(m, newVersion, env.savePath))
    case DownloadFirmware(newVersion, path) =>
      if reply.Progress? then
        ProcessResult(m, reply.progress, (percentage: int) => ChangeState(m, DownloadingFromAPI(newVersion, percentage, path)))
      else
        ProcessResult(m, reply.completion, (_: bool) => ChangeState(m, DownloadedFromAPI(newVersion, path)))
    case Store(file) =>
      if reply.finished then ChangeState(m, StoredToFile(file)) else ChangeState(m, Error(StoringError))
    case UploadVersion(file) =>
      if reply.Progress? then
        ProcessResult(m, reply.progress, (percentage: int) => ChangeState(m, UploadingToDevice(file, percentage)))
      else
        ProcessResult(m, reply.completion, (_: bool) => ChangeState(m, UploadedToDevice))
    case InstallAndRelaunch =>
      if reply.finished then ChangeState(m, Done) else ChangeState(m, Error(DeviceInstallingError))
  }

  // ---------------------------------------------------------------------------
  // Runs: the manager driven by a script of external events.

  datatype Event =
    | Start                                   // startTheProcess
    | Tick                                    // the serial queue runs one block, if it holds one
    | Fault                                   // initiateError
    | Callback(req: Request, reply: Reply)    // a collaborator delivers a callback

  /** One event; a callback that no started operation can deliver now is dropped. */
  function Apply(m: Machine, env: Env, e: Event): Machine
  {
    match e
    case Start => StartTheProcess(m)
    case Tick => if m.pending == [] then m else Step(m, env)
    case Fault => InitiateError(m)
    case Callback(req, reply) => if Admissible(m, req, reply) then Deliver(m, env, req, reply) else m
  }

  function Run(m: Machine, env: Env, events: seq<Event>): Machine
    decreases |events|
  {
    if events == [] then m else Run(Apply(m, env, events[0]), env, events[1..])
  }

  /** Each callback of `replies`, each followed by the queue running the block it enqueued. */
  function Deliveries(req: Request, replies: seq<Reply>): (es: seq<Event>)
    ensures |es| == 2 * |replies|
  {
    if replies == [] then [] else [Callback(req, replies[0]), Tick] + Deliveries(req, replies[1..])
  }

  /** The events of `Deliveries` alternate: the `i`-th callback, then the queue step it enqueued. */
  lemma {:induction false} DeliveriesAlternate(req: Request, replies: seq<Reply>)
    ensures forall i :: 0 <= i < |replies| ==>
      Deliveries(req, replies)[2 * i] == Callback(req, replies[i]) && Deliveries(req, replies)[2 * i + 1] == Tick
    decreases |replies|
  {
    if replies != [] {
      var rest := replies[1..];
      DeliveriesAlternate(req, rest);
      var es := Deliveries(req, replies);
      forall i | 0 <= i < |replies|
        ensures es[2 * i] == Callback(req, replies[i]) && es[2 * i + 1] == Tick
      {
        if i > 0 {
          assert es[2 * i] == Deliveries(req, rest)[2 * (i - 1)];
          assert es[2 * i + 1] == Deliveries(req, rest)[2 * (i - 1) + 1];
          assert replies[i] == rest[i - 1];
        }
      }
    }
  }

  function Ticks(n: nat): seq<Event>
  {
    seq(n, _ => Tick)
  }
}

/**
 * Properties of the single operations of the update manager: what a queue
 * step does to the state and the notification log, what each entry action
 * and each callback adds to the queue and to the started operations, what
 * fault injection arms, and the invariant of the notification log.
 */
module MachineProperties {
  import opened UpdateState
  import opened Services
  import opened UpdateMachine

  /** A failure never runs the continuation and enqueues exactly the error state; a success runs it. */
  lemma ProcessResultDispatch<T>(m: Machine, result: IntermediateResult<T>, continuation: T -> Machine)
    ensures result.Failure? ==> ProcessResult(m, result, continuation) == Effect(m, [], [Error(result.error)])
    ensures result.Success? ==> ProcessResult(m, result, continuation) == continuation(result.value)
  {
    assert m.requests + [] == m.requests;
  }

  /**
   * Running the oldest queued block makes that state current; the delegate is
   * told of it exactly when it is not `==` to the state it replaces. The rest
   * of the queue keeps its order, and the error fields are untouched.
   */
  lemma StepAppliesOldestState(m: Machine, env: Env)
    requires m.pending != []
    ensures Step(m, env).state == m.pending[0]
    ensures Step(m, env).notified == m.notified + (if Equal(m.pending[0], m.state) then [] else [m.pending[0]])
    ensures |Step(m, env).pending| >= |m.pending| - 1 && Step(m, env).pending[..|m.pending| - 1] == m.pending[1..]
    ensures Step(m, env).apiError == m.apiError && Step(m, env).deviceError == m.deviceError
  {
    var m1 := Assign(m.(pending := m.pending[1..]), m.pending[0]);
    EntryActionsChangeNoState(m1, env);
  }

  lemma EntryActionsChangeNoState(m: Machine, env: Env)
    ensures var m' := ProcessCurrentState(m, env);
      m'.state == m.state && m'.notified == m.notified && m'.apiError == m.apiError && m'.deviceError == m.deviceError
      && |m'.pending| >= |m.pending| && m'.pending[..|m.pending|] == m.pending
  {
  }

  /** The entry action of every state, as the operations it starts and the states it enqueues. */
  lemma EntryActions(m: Machine, env: Env)
    ensures m.state == Started && env.currentVersion.Nil? ==>
      ProcessCurrentState(m, env) == Effect(m, [], [Error(NoCurrentVersion)])
    ensures m.state == Started && env.currentVersion.Some? ==>
      var v := env.currentVersion.value;
      ProcessCurrentState(m, env) == Effect(m, [CheckIfUpdateNeeded(v)], [CheckingIfUpdateNeeded(v)])
    ensures m.state.DownloadedFromAPI? ==>
      ProcessCurrentState(m, env) == Effect(m, [Store(FWFile(m.state.newVersion, m.state.path))], [])
    ensures m.state.StoredToFile? && env.uploadPossible ==>
      ProcessCurrentState(m, env) == Effect(m, [UploadVersion(m.state.file)], [])
    ensures m.state.StoredToFile? && !env.uploadPossible ==>
      ProcessCurrentState(m, env) == Effect(m, [], [Error(DeviceIsNotReady)])
    ensures m.state == UploadedToDevice ==>
      ProcessCurrentState(m, env) == Effect(m, [InstallAndRelaunch], [WaitingForDeviceRestart])
    ensures Passive(m.state) ==> ProcessCurrentState(m, env) == m
  {
    assert m.requests + [] == m.requests;
    assert m.pending + [] == m.pending;
  }

  /** With the mock collaborators the prerequisites hold and the device is always ready. */
  lemma MockEntryActions(m: Machine)
    ensures m.state == Started ==>
      ProcessCurrentState(m, MockEnv()) == Effect(m, [CheckIfUpdateNeeded(3)], [CheckingIfUpdateNeeded(3)])
    ensures m.state.StoredToFile? ==>
      ProcessCurrentState(m, MockEnv()) == Effect(m, [UploadVersion(m.state.file)], [])
  {
    EntryActions(m, MockEnv());
  }

  /** What each callback enqueues; every success of a transfer keeps the captured version, path and file. */
  lemma CallbackEffects(m: Machine, env: Env, req: Request, reply: Reply)
    requires WellFormed(req, reply)
    ensures req.CheckIfUpdateNeeded? && reply.returned.Success? ==>
      var newVersion := reply.returned.value;
      Deliver(m, env, req, reply) ==
        Effect(m, [DownloadFirmware(newVersion, env.savePath)], [DownloadingFromAPI(newVersion, 0, env.savePath)])
    ensures req.DownloadFirmware? && reply.Progress? && reply.progress.Success? ==>
      Deliver(m, env, req, reply) == Effect(m, [], [DownloadingFromAPI(req.version, reply.progress.value, req.path)])
    ensures req.DownloadFirmware? && reply.Completion? && reply.completion.Success? ==>
      Deliver(m, env, req, reply) == Effect(m, [], [DownloadedFromAPI(req.version, req.path)])
    ensures req.Store? ==>
      Deliver(m, env, req, reply) == Effect(m, [], [if reply.finished then StoredToFile(req.file) else Error(StoringError)])
    ensures req.UploadVersion? && reply.Progress? && reply.progress.Success? ==>
      Deliver(m, env, req, reply) == Effect(m, [], [UploadingToDevice(req.file, reply.progress.value)])
    ensures req.UploadVersion? && reply.Completion? && reply.completion.Success? ==>
      Deliver(m, env, req, reply) == Effect(m, [], [UploadedToDevice])
    ensures req.InstallAndRelaunch? ==>
      Deliver(m, env, req, reply) == Effect(m, [], [if reply.finished then Done else Error(DeviceInstallingError)])
  {
    assert m.requests + [] == m.requests;
  }

  /** The error a callback carries, if it carries one. */
  function CarriedError(reply: Reply): Optional<FWUpdateError>
  {
    match reply
    case Returned(r) => if r.Failure? then Some(r.error) else Nil
    case Progress(r) => if r.Failure? then Some(r.error) else Nil
    case Completion(r) => if r.Failure? then Some(r.error) else Nil
    case Finished(_) => Nil
  }

  /** A callback carrying an error enqueues exactly `.error` with that error, whatever the operation. */
  lemma FailedCallbacksEnqueueTheirError(m: Machine, env: Env, req: Request, reply: Reply)
    requires WellFormed(req, reply) && CarriedError(reply).Some?
    ensures Deliver(m, env, req, reply) == Effect(m, [], [Error(CarriedError(reply).value)])
  {
    assert m.requests + [] == m.requests;
  }

  /** Every callback enqueues exactly one state and leaves state, log and error fields alone. */
  lemma CallbackEnqueuesOne(m: Machine, env: Env, req: Request, reply: Reply)
    requires WellFormed(req, reply)
    ensures var m' := Deliver(m, env, req, reply);
      m'.state == m.state && m'.notified == m.notified && m'.apiError == m.apiError && m'.deviceError == m.deviceError
      && |m'.pending| == |m.pending| + 1 && m'.pending[..|m.pending|] == m.pending
      && |m'.requests| >= |m.requests| && m'.requests[..|m.requests|] == m.requests
  {
  }

  /** The states in which fault injection does nothing. */
  predicate FaultIgnored(s: State)
  {
    !(s.CheckingIfUpdateNeeded? || s.DownloadingFromAPI? || s.DownloadedFromAPI? || s.UploadingToDevice? || s.WaitingForDeviceRestart?)
  }

  /** Fault injection arms exactly the field its state selects and changes nothing else. */
  lemma InitiateErrorArms(m: Machine)
    ensures InitiateError(m) == m.(apiError := InitiateError(m).apiError, deviceError := InitiateError(m).deviceError)
    ensures m.state.CheckingIfUpdateNeeded? || m.state.DownloadingFromAPI? ==>
      InitiateError(m) == m.(apiError := Some(ApiError))
    ensures m.state.DownloadedFromAPI? ==> InitiateError(m) == m.(apiError := Some(StoringError))
    ensures m.state.UploadingToDevice? ==> InitiateError(m) == m.(deviceError := Some(DeviceUploadingError))
    ensures m.state == WaitingForDeviceRestart ==> InitiateError(m) == m.(deviceError := Some(DeviceInstallingError))
    ensures FaultIgnored(m.state) ==> InitiateError(m) == m
    ensures !FaultIgnored(m.state) ==> InitiateError(m).apiError.Some? || InitiateError(m).deviceError.Some?
  {
  }

  /** `startTheProcess` enqueues `.started` unconditionally and nothing else. */
  lemma StartEnqueuesStarted(m: Machine)
    ensures StartTheProcess(m) == Effect(m, [], [Started])
  {
    assert m.requests + [] == m.requests;
  }

  // ---------------------------------------------------------------------------
  // The notification log.

  /**
   * The log ends with the current state (or is empty while nothing was ever
   * assigned but `.none`), and no two consecutive notifications are `==`.
   */
  predicate Valid(m: Machine)
  {
    && (m.notified == [] ==> m.state == None)
    && (m.notified != [] ==> m.notified[|m.notified| - 1] == m.state)
    && (forall i :: 0 < i < |m.notified| ==> !Equal(m.notified[i - 1], m.notified[i]))
  }

  lemma InitialValid()
    ensures Valid(Initial())
  {
  }

  lemma AssignPreservesValid(m: Machine, s: State)
    requires Valid(m)
    ensures Valid(Assign(m, s))
  {
    var m' := Assign(m, s);
    EqualIsIdentityExceptDone(s, m.state);
    if !Equal(s, m.state) && m.notified != [] {
      EqualSymmetric(s, m.state);
    }
  }

  lemma ApplyPreservesValid(m: Machine, env: Env, e: Event)
    requires Valid(m)
    ensures Valid(Apply(m, env, e))
  {
    match e
    case Tick =>
      if m.pending != [] {
        var m1 := Assign(m.(pending := m.pending[1..]), m.pending[0]);
        AssignPreservesValid(m.(pending := m.pending[1..]), m.pending[0]);
        EntryActionsChangeNoState(m1, env);
      }
    case Callback(req, reply) =>
      if Admissible(m, req, reply) {
        CallbackEnqueuesOne(m, env, req, reply);
      }
    case _ =>
  }

  /** Every run keeps the log invariant. */
  lemma {:induction false} RunPreservesValid(m: Machine, env: Env, events: seq<Event>)
    requires Valid(m)
    ensures Valid(Run(m, env, events))
    decreases |events|
  {
    if events != [] {
      ApplyPreservesValid(m, env, events[0]);
      RunPreservesValid(Apply(m, env, events[0]), env, events[1..]);
    }
  }

  /** The notifications of a queue of states applied in order, starting after `prev`. */
  function Notifications(prev: State, queue: seq<State>): seq<State>
    decreases |queue|
  {
    if queue == [] then []
    else (if Equal(queue[0], prev) then [] else [queue[0]]) + Notifications(queue[0], queue[1..])
  }

  function LastOr(prev: State, queue: seq<State>): State
  {
    if queue == [] then prev else queue[|queue| - 1]
  }

  /**
   * Draining a queue of states without entry actions applies them in queue
   * order: the last one becomes current, and the delegate hears of each one
   * that differs from its predecessor.
   */
  lemma {:induction false} DrainPassive(m: Machine, env: Env)
    requires forall i :: 0 <= i < |m.pending| ==> Passive(m.pending[i])
    ensures Run(m, env, Ticks(|m.pending|)) ==
      m.(state := LastOr(m.state, m.pending), notified := m.notified + Notifications(m.state, m.pending), pending := [])
    decreases |m.pending|
  {
    if m.pending != [] {
      var head, tail := m.pending[0], m.pending[1..];
      var m1 := Assign(m.(pending := tail), head);
      var first := if Equal(head, m.state) then [] else [head];
      assert m1.state == head && m1.pending == tail && m1.notified == m.notified + first;
      assert LastOr(head, tail) == LastOr(m.state, m.pending);
      assert Notifications(m.state, m.pending) == first + Notifications(head, tail);
      calc {
        Run(m, env, Ticks(|m.pending|));
      == { DrainStep(m, env); }
        Run(m1, env, Ticks(|tail|));
      == { DrainPassive(m1, env); }
        m1.(state := LastOr(head, tail), notified := m.notified + first + Notifications(head, tail), pending := []);
      == { ConcatAssoc(m.notified, first, Notifications(head, tail)); }
        m.(state := LastOr(m.state, m.pending), notified := m.notified + Notifications(m.state, m.pending), pending := []);
      }
    } else {
      assert m.notified + [] == m.notified;
    }
  }

  /** One tick on a queue whose oldest state has no entry action. */
  lemma DrainStep(m: Machine, env: Env)
    requires m.pending != [] && Passive(m.pending[0])
    ensures Run(m, env, Ticks(|m.pending|)) == Run(Assign(m.(pending := m.pending[1..]), m.pending[0]), env, Ticks(|m.pending| - 1))
  {
    var m1 := Assign(m.(pending := m.pending[1..]), m.pending[0]);
    assert Ticks(|m.pending|)[0] == Tick;
    assert Ticks(|m.pending|)[1..] == Ticks(|m.pending| - 1);
    EntryActions(m1, env);
    assert Apply(m, env, Tick) == m1;
  }

  /** Consecutive notifications of a drained queue are never `==`, and the first differs from `prev`. */
  lemma {:induction false} NotificationsAreDeduplicated(prev: State, queue: seq<State>)
    ensures forall i :: 0 < i < |Notifications(prev, queue)| ==>
      !Equal(Notifications(prev, queue)[i - 1], Notifications(prev, queue)[i])
    ensures Notifications(prev, queue) != [] ==> !Equal(Notifications(prev, queue)[0], prev)
    decreases |queue|
  {
    if queue != [] {
      NotificationsAreDeduplicated(queue[0], queue[1..]);
      var rest := Notifications(queue[0], queue[1..]);
      if !Equal(queue[0], prev) && rest != [] {
        EqualSymmetric(rest[0], queue[0]);
      } else if Equal(queue[0], prev) && rest != [] {
        EqualIsIdentityExceptDone(queue[0], prev);
      }
    }
  }
}

/**
 * Runs of the update manager against the mock collaborators: each phase of
 * the pipeline as a lemma about any machine in the right state, and the
 * whole happy path and the fault-injection paths built from them.
 */
module Traces {
  import opened UpdateState
  import opened Services
  import opened UpdateMachine
  import opened MachineProperties

  // ---------------------------------------------------------------------------
  // Composing runs.

  lemma {:induction false} RunAppend(m: Machine, env: Env, a: seq<Event>, b: seq<Event>)
    ensures Run(m, env, a + b) == Run(Run(m, env, a), env, b)
    decreases |a|
  {
    if a == [] {
      assert a + b == b;
    } else {
      assert (a + b)[0] == a[0];
      assert (a + b)[1..] == a[1..] + b;
      RunAppend(Apply(m, env, a[0]), env, a[1..], b);
    }
  }

  lemma {:induction false} DeliveriesAppend(req: Request, a: seq<Reply>, b: seq<Reply>)
    ensures Deliveries(req, a + b) == Deliveries(req, a) + Deliveries(req, b)
    decreases |a|
  {
    if a == [] {
      assert a + b == b;
    } else {
      assert (a + b)[0] == a[0];
      assert (a + b)[1..] == a[1..] + b;
      DeliveriesAppend(req, a[1..], b);
    }
  }

  lemma RunOne(m: Machine, env: Env, e: Event)
    ensures Run(m, env, [e]) == Apply(m, env, e)
  {
    assert [e][1..] == [];
  }

  lemma RunTwo(m: Machine, env: Env, e1: Event, e2: Event)
    ensures Run(m, env, [e1, e2]) == Apply(Apply(m, env, e1), env, e2)
  {
    assert [e1, e2][1..] == [e2];
    RunOne(Apply(m, env, e1), env, e2);
  }

  lemma RunFault(m: Machine, env: Env)
    ensures Run(m, env, [Fault]) == InitiateError(m)
  {
    RunOne(m, env, Fault);
  }

  lemma DeliveriesOne(req: Request, reply: Reply)
    ensures Deliveries(req, [reply]) == [Callback(req, reply), Tick]
  {
    assert [reply][1..] == [];
  }

  /** With an empty queue, a callback followed by a tick runs exactly the block the callback enqueued. */
  lemma DeliverAndRun(m: Machine, env: Env, req: Request, reply: Reply)
    requires m.pending == [] && Admissible(m, req, reply)
    ensures Deliver(m, env, req, reply).pending != []
    ensures Run(m, env, Deliveries(req, [reply])) == Step(Deliver(m, env, req, reply), env)
  {
    CallbackEnqueuesOne(m, env, req, reply);
    DeliveriesOne(req, reply);
    RunTwo(m, env, Callback(req, reply), Tick);
    var d := Deliver(m, env, req, reply);
    assert Apply(m, env, Callback(req, reply)) == d;
    assert Apply(d, env, Tick) == Step(d, env);
  }

  /** A state without entry action, enqueued on an empty queue and then run, is simply assigned. */
  lemma RunPassive(m: Machine, env: Env, s: State)
    requires m.pending == [] && Passive(s)
    ensures Step(Effect(m, [], [s]), env) == Assign(m, s)
  {
    assert m.requests + [] == m.requests;
    EntryActions(Assign(m, s), env);
  }

  // ---------------------------------------------------------------------------
  // Phases of the pipeline.

  /** From a quiet machine in any state but `.started`, starting reaches the version check. */
  lemma StartPhase(m: Machine, env: Env)
    requires m.pending == [] && m.state != Started && env.currentVersion.Some?
    ensures var v := env.currentVersion.value;
      Run(m, env, [Start, Tick, Tick]) == m.(
        state := CheckingIfUpdateNeeded(v),
        notified := m.notified + [Started, CheckingIfUpdateNeeded(v)],
        requests := m.requests + [CheckIfUpdateNeeded(v)])
  {
    var v := env.currentVersion.value;
    var m1 := Apply(m, env, Start);
    var m2 := Apply(m1, env, Tick);
    var m3 := Apply(m2, env, Tick);
    EntryActions(Assign(m, Started), env);
    assert m2 == m.(state := Started, notified := m.notified + [Started],
      requests := m.requests + [CheckIfUpdateNeeded(v)], pending := [CheckingIfUpdateNeeded(v)]);
    EntryActions(Assign(m2.(pending := []), CheckingIfUpdateNeeded(v)), env);
    assert m3 == m.(state := CheckingIfUpdateNeeded(v), notified := m.notified + [Started, CheckingIfUpdateNeeded(v)],
      requests := m.requests + [CheckIfUpdateNeeded(v)]);
    assert Run(m, env, [Start, Tick, Tick]) == Run(m3, env, []);
  }

  /** The version check answering `newVersion` starts the download and shows it at 0%. */
  lemma UpdateCheckedPhase(m: Machine, env: Env, currentVersion: int, newVersion: int)
    requires m.pending == [] && CheckIfUpdateNeeded(currentVersion) in m.requests
    requires m.state != DownloadingFromAPI(newVersion, 0, env.savePath)
    ensures Run(m, env, Deliveries(CheckIfUpdateNeeded(currentVersion), [Returned(Success(newVersion))])) == m.(
      state := DownloadingFromAPI(newVersion, 0, env.savePath),
      notified := m.notified + [DownloadingFromAPI(newVersion, 0, env.savePath)],
      requests := m.requests + [DownloadFirmware(newVersion, env.savePath)])
  {
    var req, reply := CheckIfUpdateNeeded(currentVersion), Returned(Success(newVersion));
    var s := DownloadingFromAPI(newVersion, 0, env.savePath);
    DeliverAndRun(m, env, req, reply);
    CallbackEffects(m, env, req, reply);
    var m1 := Call(m, DownloadFirmware(newVersion, env.savePath));
    assert Deliver(m, env, req, reply) == Effect(m1, [], [s]);
    RunPassive(m1, env, s);
  }

  /** The state a progress callback of a transfer enqueues. */
  function ProgressState(req: Request, percentage: int): State
    requires req.DownloadFirmware? || req.UploadVersion?
  {
    if req.DownloadFirmware? then DownloadingFromAPI(req.version, percentage, req.path)
    else UploadingToDevice(req.file, percentage)
  }

  /** The states `n` progress callbacks from `from` on enqueue, in order. */
  function ProgressStates(req: Request, from: int, n: nat): (ss: seq<State>)
    requires req.DownloadFirmware? || req.UploadVersion?
    ensures |ss| == n && forall i :: 0 <= i < n ==> ss[i] == ProgressState(req, from + i)
    decreases n
  {
    if n == 0 then [] else [ProgressState(req, from)] + ProgressStates(req, from + 1, n - 1)
  }

  lemma ProgressOne(m: Machine, env: Env, req: Request, from: int)
    requires m.pending == [] && (req.DownloadFirmware? || req.UploadVersion?) && req in m.requests
    requires Watched(m, req) == Nil && 95 <= from <= 99
    requires m.state != ProgressState(req, from)
    ensures var s := ProgressState(req, from);
      Run(m, env, Deliveries(req, [Progress(Success(from))])) == m.(state := s, notified := m.notified + [s])
  {
    var reply := Progress(Success(from));
    var s := ProgressState(req, from);
    DeliverAndRun(m, env, req, reply);
    CallbackEffects(m, env, req, reply);
    RunPassive(m, env, s);
    EqualIsIdentityExceptDone(s, m.state);
  }

  /** The first of `n` progress callbacks, split off the rest. */
  lemma ProgressHead(m: Machine, env: Env, req: Request, from: int, n: nat)
    requires m.pending == [] && (req.DownloadFirmware? || req.UploadVersion?) && req in m.requests
    requires Watched(m, req) == Nil && 95 <= from && from + n <= 100
    requires n > 0 && m.state != ProgressState(req, from)
    ensures var s := ProgressState(req, from);
      Run(m, env, Deliveries(req, ProgressRun(from, n)))
        == Run(m.(state := s, notified := m.notified + [s]), env, Deliveries(req, ProgressRun(from + 1, n - 1)))
  {
    var reply := Progress(Success(from));
    ProgressRunCons(from, n);
    DeliveriesAppend(req, [reply], ProgressRun(from + 1, n - 1));
    RunAppend(m, env, Deliveries(req, [reply]), Deliveries(req, ProgressRun(from + 1, n - 1)));
    ProgressOne(m, env, req, from);
  }

  /**
   * Progress callbacks `from`, `from + 1`, ... of a started transfer whose
   * error field is nil each become the current state, and the delegate
   * hears of every one of them.
   */
  lemma {:induction false} ProgressPhase(m: Machine, env: Env, req: Request, from: int, n: nat)
    requires m.pending == [] && (req.DownloadFirmware? || req.UploadVersion?) && req in m.requests
    requires Watched(m, req) == Nil && 95 <= from && from + n <= 100
    requires n > 0 ==> m.state != ProgressState(req, from)
    ensures Run(m, env, Deliveries(req, ProgressRun(from, n))) == m.(
      state := if n == 0 then m.state else ProgressState(req, from + n - 1),
      notified := m.notified + ProgressStates(req, from, n))
    decreases n
  {
    if n == 0 {
      assert Deliveries(req, ProgressRun(from, 0)) == [];
      assert m.notified + [] == m.notified;
    } else {
      var s := ProgressState(req, from);
      var m1 := m.(state := s, notified := m.notified + [s]);
      assert n - 1 > 0 ==> s.percentage != from + 1;
      ProgressPhase(m1, env, req, from + 1, n - 1);
      ProgressStep(m, env, req, from, n);
    }
  }

  /** The inductive step of `ProgressPhase`: the first callback, then the rest as the hypothesis gives them. */
  lemma ProgressStep(m: Machine, env: Env, req: Request, from: int, n: nat)
    requires m.pending == [] && (req.DownloadFirmware? || req.UploadVersion?) && req in m.requests
    requires Watched(m, req) == Nil && 95 <= from && from + n <= 100
    requires n > 0 && m.state != ProgressState(req, from)
    requires var s := ProgressState(req, from);
      var m1 := m.(state := s, notified := m.notified + [s]);
      Run(m1, env, Deliveries(req, ProgressRun(from + 1, n - 1))) == m1.(
        state := if n - 1 == 0 then m1.state else ProgressState(req, from + 1 + (n - 1) - 1),
        notified := m1.notified + ProgressStates(req, from + 1, n - 1))
    ensures Run(m, env, Deliveries(req, ProgressRun(from, n))) == m.(
      state := ProgressState(req, from + n - 1),
      notified := m.notified + ProgressStates(req, from, n))
  {
    var s := ProgressState(req, from);
    var rest := ProgressStates(req, from + 1, n - 1);
    ProgressHead(m, env, req, from, n);
    assert ProgressStates(req, from, n) == [s] + rest;
    ConcatAssoc(m.notified, [s], rest);
  }

  /** A successful download completion makes the download current and starts storing the file. */
  lemma DownloadCompletedPhase(m: Machine, env: Env, version: int, path: string)
    requires m.pending == [] && DownloadFirmware(version, path) in m.requests && m.apiError == Nil
    requires m.state != DownloadedFromAPI(version, path)
    ensures Run(m, env, Deliveries(DownloadFirmware(version, path), [Completion(Success(true))])) == m.(
      state := DownloadedFromAPI(version, path),
      notified := m.notified + [DownloadedFromAPI(version, path)],
      requests := m.requests + [Store(FWFile(version, path))])
  {
    var req, reply := DownloadFirmware(version, path), Completion(Success(true));
    var s := DownloadedFromAPI(version, path);
    DeliverAndRun(m, env, req, reply);
    CallbackEffects(m, env, req, reply);
    assert m.requests + [] == m.requests;
    EntryActions(Assign(m, s), env);
  }

  /** The store completing as the mock data store does makes the file current and starts the upload. */
  lemma StoredPhase(m: Machine, env: Env, file: FWFile)
    requires m.pending == [] && Store(file) in m.requests && env.uploadPossible
    requires m.state != StoredToFile(file)
    ensures Run(m, env, Deliveries(Store(file), [Finished(DataStore.Store(file))])) == m.(
      state := StoredToFile(file),
      notified := m.notified + [StoredToFile(file)],
      requests := m.requests + [UploadVersion(file)])
  {
    var req, reply := Store(file), Finished(DataStore.Store(file));
    DeliverAndRun(m, env, req, reply);
    CallbackEffects(m, env, req, reply);
    assert m.requests + [] == m.requests;
    EntryActions(Assign(m, StoredToFile(file)), env);
  }

  /** A successful upload completion reaches `.uploadedToDevice`, starts the install and waits for the restart. */
  lemma UploadCompletedPhase(m: Machine, env: Env, file: FWFile)
    requires m.pending == [] && UploadVersion(file) in m.requests && m.deviceError == Nil
    requires m.state != UploadedToDevice
    ensures Run(m, env, Deliveries(UploadVersion(file), [Completion(Success(true))]) + [Tick]) == m.(
      state := WaitingForDeviceRestart,
      notified := m.notified + [UploadedToDevice, WaitingForDeviceRestart],
      requests := m.requests + [InstallAndRelaunch])
  {
    var req, reply := UploadVersion(file), Completion(Success(true));
    var m1 := m.(state := UploadedToDevice, notified := m.notified + [UploadedToDevice],
      requests := m.requests + [InstallAndRelaunch], pending := [WaitingForDeviceRestart]);
    RunAppend(m, env, Deliveries(req, [reply]), [Tick]);
    UploadCompletionDelivered(m, env, file);
    WaitingTick(m1, env);
    ConcatAssoc(m.notified, [UploadedToDevice], [WaitingForDeviceRestart]);
  }

  lemma UploadCompletionDelivered(m: Machine, env: Env, file: FWFile)
    requires m.pending == [] && UploadVersion(file) in m.requests && m.deviceError == Nil
    requires m.state != UploadedToDevice
    ensures Run(m, env, Deliveries(UploadVersion(file), [Completion(Success(true))])) == m.(
      state := UploadedToDevice, notified := m.notified + [UploadedToDevice],
      requests := m.requests + [InstallAndRelaunch], pending := [WaitingForDeviceRestart])
  {
    var req, reply := UploadVersion(file), Completion(Success(true));
    DeliverAndRun(m, env, req, reply);
    CallbackEffects(m, env, req, reply);
    assert m.requests + [] == m.requests;
    EntryActions(Assign(m, UploadedToDevice), env);
  }

  lemma WaitingTick(m: Machine, env: Env)
    requires m.pending == [WaitingForDeviceRestart] && m.state == UploadedToDevice
    ensures Run(m, env, [Tick]) == m.(state := WaitingForDeviceRestart, notified := m.notified + [WaitingForDeviceRestart], pending := [])
  {
    RunOne(m, env, Tick);
    EntryActions(Assign(m.(pending := []), WaitingForDeviceRestart), env);
  }

  /**
   * The install reports success exactly when the device manager's error
   * field is nil, and its result ends the run: `.done` on success,
   * `.error(.deviceInstallingError)` otherwise.
   */
  lemma InstalledPhase(m: Machine, env: Env)
    requires m.pending == [] && InstallAndRelaunch in m.requests && m.state == WaitingForDeviceRestart
    ensures var final := if m.deviceError.Nil? then Done else Error(DeviceInstallingError);
      Run(m, env, Deliveries(InstallAndRelaunch, [Finished(m.deviceError.Nil?)])) == m.(
        state := final, notified := m.notified + [final])
  {
    var success := m.deviceError.Nil?;
    var req, reply := InstallAndRelaunch, Finished(success);
    DeliverAndRun(m, env, req, reply);
    CallbackEffects(m, env, req, reply);
    RunPassive(m, env, if success then Done else Error(DeviceInstallingError));
  }

  /** A callback carrying error `e` ends the run in `.error(e)`, starting nothing. */
  lemma FailurePhase(m: Machine, env: Env, req: Request, reply: Reply, e: FWUpdateError)
    requires m.pending == [] && Admissible(m, req, reply) && CarriedError(reply) == Some(e)
    requires m.state != Error(e)
    ensures Run(m, env, Deliveries(req, [reply])) == m.(state := Error(e), notified := m.notified + [Error(e)])
  {
    DeliverAndRun(m, env, req, reply);
    FailedCallbacksEnqueueTheirError(m, env, req, reply);
    RunPassive(m, env, Error(e));
  }


  // ---------------------------------------------------------------------------
  // Whole runs.

  /** A fault-free transfer: five progress callbacks, then the successful completion. */
  lemma FaultlessTransfer(m: Machine, env: Env, req: Request)
    requires m.pending == [] && (req.DownloadFirmware? || req.UploadVersion?) && req in m.requests
    requires Watched(m, req) == Nil
    requires m.state != ProgressState(req, 95)
    ensures Run(m, env, Deliveries(req, Transfer(95, Repeat(Nil, 6))))
      == Run(m.(state := ProgressState(req, 99), notified := m.notified + ProgressStates(req, 95, 5)),
           env, Deliveries(req, [Completion(Success(true))]))
  {
    var m1 := m.(state := ProgressState(req, 99), notified := m.notified + ProgressStates(req, 95, 5));
    var done := Deliveries(req, [Completion(Success(true))]);
    calc {
      Run(m, env, Deliveries(req, Transfer(95, Repeat(Nil, 6))));
    == { TransferWithoutFault();
         DeliveriesAppend(req, ProgressRun(95, 5), [Completion(Success(true))]); }
      Run(m, env, Deliveries(req, ProgressRun(95, 5)) + done);
    == { RunAppend(m, env, Deliveries(req, ProgressRun(95, 5)), done); }
      Run(Run(m, env, Deliveries(req, ProgressRun(95, 5))), env, done);
    == { ProgressPhase(m, env, req, 95, 5);
         assert Run(m, env, Deliveries(req, ProgressRun(95, 5))) == m1; }
      Run(m1, env, done);
    }
  }

  /** Start, the version check of `currentVersion` answering `newVersion`, and a fault-free download to `path`. */
  function DownloadEvents(currentVersion: int, newVersion: int, path: string): seq<Event>
  {
    [Start, Tick, Tick]
    + Deliveries(CheckIfUpdateNeeded(currentVersion), [Returned(Success(newVersion))])
    + Deliveries(DownloadFirmware(newVersion, path), Transfer(95, Repeat(Nil, 6)))
  }

  function DownloadNotifications(currentVersion: int, newVersion: int, path: string): seq<State>
  {
    [Started, CheckingIfUpdateNeeded(currentVersion)] + [DownloadingFromAPI(newVersion, 0, path)]
    + ProgressStates(DownloadFirmware(newVersion, path), 95, 5)
    + [DownloadedFromAPI(newVersion, path)]
  }

  function DownloadRequests(currentVersion: int, newVersion: int, path: string): seq<Request>
  {
    [CheckIfUpdateNeeded(currentVersion)] + [DownloadFirmware(newVersion, path)] + [Store(FWFile(newVersion, path))]
  }

  /**
   * From any quiet machine not in `.started` whose API client has no error
   * armed, a start followed by the callbacks the API client then delivers
   * ends in `.downloadedFromAPI` with the store started.
   */
  lemma DownloadRun(m: Machine, env: Env, currentVersion: int, newVersion: int)
    requires m.pending == [] && m.state != Started && env.currentVersion == Some(currentVersion)
    requires m.apiError == Nil
    ensures var path := env.savePath;
      Run(m, env, DownloadEvents(currentVersion, newVersion, path)) == m.(
        state := DownloadedFromAPI(newVersion, path),
        notified := m.notified + DownloadNotifications(currentVersion, newVersion, path),
        requests := m.requests + DownloadRequests(currentVersion, newVersion, path))
  {
    var path := env.savePath;
    var N, R := m.notified, m.requests;
    var req := DownloadFirmware(newVersion, path);
    var x1, x2, x3, x4 := [Started, CheckingIfUpdateNeeded(currentVersion)], [DownloadingFromAPI(newVersion, 0, path)],
      ProgressStates(req, 95, 5), [DownloadedFromAPI(newVersion, path)];
    var r1, r2, r3 := [CheckIfUpdateNeeded(currentVersion)], [req], [Store(FWFile(newVersion, path))];
    var e1 := [Start, Tick, Tick];
    var e2 := Deliveries(CheckIfUpdateNeeded(currentVersion), [Returned(Success(newVersion))]);
    var e3 := Deliveries(req, Transfer(95, Repeat(Nil, 6)));
    var done := Deliveries(req, [Completion(Success(true))]);
    var m1 := m.(state := CheckingIfUpdateNeeded(currentVersion), notified := N + x1, requests := R + r1);
    var m2 := m.(state := DownloadingFromAPI(newVersion, 0, path), notified := N + (x1 + x2), requests := R + (r1 + r2));
    var m3 := m2.(state := ProgressState(req, 99), notified := N + (x1 + x2 + x3));
    var m4 := m.(state := DownloadedFromAPI(newVersion, path), notified := N + (x1 + x2 + x3 + x4),
      requests := R + (r1 + r2 + r3));
    calc {
      Run(m, env, DownloadEvents(currentVersion, newVersion, path));
    == { RunAppend(m, env, e1 + e2, e3); RunAppend(m, env, e1, e2); }
      Run(Run(Run(m, env, e1), env, e2), env, e3);
    == { StartPhase(m, env); assert [Started, CheckingIfUpdateNeeded(currentVersion)] == x1;
         assert Run(m, env, e1) == m1; }
      Run(Run(m1, env, e2), env, e3);
    == { UpdateCheckedPhase(m1, env, currentVersion, newVersion); ConcatAssoc(N, x1, x2); ConcatAssoc(R, r1, r2);
         assert Run(m1, env, e2) == m2; }
      Run(m2, env, e3);
    == { FaultlessTransfer(m2, env, req); ConcatAssoc(N, x1 + x2, x3); }
      Run(m3, env, done);
    == { DownloadCompletedPhase(m3, env, newVersion, path); ConcatAssoc(N, x1 + x2 + x3, x4); ConcatAssoc(R, r1 + r2, r3); }
      m4;
    }
  }

  /** The data store's completion of the store of `file`. */
  function StoreEvents(file: FWFile): seq<Event>
  {
    Deliveries(Store(file), [Finished(DataStore.Store(file))])
  }

  /** A fault-free upload of `file`, the queue running `.waitingForDeviceRestart`, and a successful install. */
  function UploadEvents(file: FWFile): seq<Event>
  {
    Deliveries(UploadVersion(file), Transfer(95, Repeat(Nil, 6))) + [Tick]
    + Deliveries(InstallAndRelaunch, [Finished(true)])
  }

  function UploadNotifications(file: FWFile): seq<State>
  {
    ProgressStates(UploadVersion(file), 95, 5) + [UploadedToDevice, WaitingForDeviceRestart] + [Done]
  }

  /** From `.storedToFile`, the callbacks the device manager delivers with no error armed end in `.done`. */
  lemma UploadRun(m: Machine, env: Env, file: FWFile)
    requires m.pending == [] && m.state == StoredToFile(file) && UploadVersion(file) in m.requests
    requires m.deviceError == Nil
    ensures Run(m, env, UploadEvents(file)) == m.(
      state := Done,
      notified := m.notified + UploadNotifications(file),
      requests := m.requests + [InstallAndRelaunch])
  {
    var N := m.notified;
    var req := UploadVersion(file);
    var x1, x2, x3 := ProgressStates(req, 95, 5), [UploadedToDevice, WaitingForDeviceRestart], [Done];
    var e1 := Deliveries(req, Transfer(95, Repeat(Nil, 6)));
    var e2 := [Tick];
    var e3 := Deliveries(InstallAndRelaunch, [Finished(true)]);
    var done := Deliveries(req, [Completion(Success(true))]);
    var m1 := m.(state := ProgressState(req, 99), notified := N + x1);
    var m2 := m.(state := WaitingForDeviceRestart, notified := N + (x1 + x2), requests := m.requests + [InstallAndRelaunch]);
    var m3 := m2.(state := Done, notified := N + (x1 + x2 + x3));
    calc {
      Run(m, env, UploadEvents(file));
    == { RunAppend(m, env, e1 + e2, e3); RunAppend(m, env, e1, e2); }
      Run(Run(Run(m, env, e1), env, e2), env, e3);
    == { FaultlessTransfer(m, env, req); }
      Run(Run(Run(m1, env, done), env, e2), env, e3);
    == { RunAppend(m1, env, done, e2); }
      Run(Run(m1, env, done + e2), env, e3);
    == { UploadCompletedPhase(m1, env, file); ConcatAssoc(N, x1, x2);
         assert Run(m1, env, done + e2) == m2; }
      Run(m2, env, e3);
    == { InstalledPhase(m2, env); ConcatAssoc(N, x1 + x2, x3); }
      m3;
    }
  }

  /** The whole pipeline with no fault injected. */
  function HappyPathEvents(currentVersion: int, newVersion: int, path: string): seq<Event>
  {
    DownloadEvents(currentVersion, newVersion, path) + StoreEvents(FWFile(newVersion, path))
    + UploadEvents(FWFile(newVersion, path))
  }

  function HappyPathNotifications(currentVersion: int, newVersion: int, path: string): seq<State>
  {
    DownloadNotifications(currentVersion, newVersion, path) + [StoredToFile(FWFile(newVersion, path))]
    + UploadNotifications(FWFile(newVersion, path))
  }

  function HappyPathRequests(currentVersion: int, newVersion: int, path: string): seq<Request>
  {
    DownloadRequests(currentVersion, newVersion, path) + [UploadVersion(FWFile(newVersion, path))] + [InstallAndRelaunch]
  }

  /**
   * From any quiet machine not in `.started` with no error armed, the
   * prerequisites met and the device ready, the callbacks of a fault-free
   * update end in `.done`; the five operations are started once each and
   * in pipeline order.
   */
  lemma HappyPathRun(m: Machine, env: Env, newVersion: int)
    requires m.pending == [] && m.state != Started && env.currentVersion.Some? && env.uploadPossible
    requires m.apiError == Nil && m.deviceError == Nil
    ensures var cv, path := env.currentVersion.value, env.savePath;
      Run(m, env, HappyPathEvents(cv, newVersion, path)) == m.(
        state := Done,
        notified := m.notified + HappyPathNotifications(cv, newVersion, path),
        requests := m.requests + HappyPathRequests(cv, newVersion, path))
  {
    var cv, path := env.currentVersion.value, env.savePath;
    var N, R := m.notified, m.requests;
    var file := FWFile(newVersion, path);
    var x1, x2, x3 := DownloadNotifications(cv, newVersion, path), [StoredToFile(file)], UploadNotifications(file);
    var r1, r2, r3 := DownloadRequests(cv, newVersion, path), [UploadVersion(file)], [InstallAndRelaunch];
    var e1 := DownloadEvents(cv, newVersion, path);
    var e2 := StoreEvents(file);
    var e3 := UploadEvents(file);
    var m1 := m.(state := DownloadedFromAPI(newVersion, path), notified := N + x1, requests := R + r1);
    var m2 := m.(state := StoredToFile(file), notified := N + (x1 + x2), requests := R + (r1 + r2));
    var m3 := m.(state := Done, notified := N + (x1 + x2 + x3), requests := R + (r1 + r2 + r3));
    calc {
      Run(m, env, HappyPathEvents(cv, newVersion, path));
    == { RunAppend(m, env, e1 + e2, e3); RunAppend(m, env, e1, e2); }
      Run(Run(Run(m, env, e1), env, e2), env, e3);
    == { DownloadRun(m, env, cv, newVersion); }
      Run(Run(m1, env, e2), env, e3);
    == { StoredPhase(m1, env, file); ConcatAssoc(N, x1, x2); ConcatAssoc(R, r1, r2);
         assert Run(m1, env, e2) == m2; }
      Run(m2, env, e3);
    == { UploadRun(m2, env, file); ConcatAssoc(N, x1 + x2, x3); ConcatAssoc(R, r1 + r2, r3); }
      m3;
    }
  }

  /** No state of `log` satisfies `bad`. */
  predicate Avoids(log: seq<State>, bad: State -> bool)
  {
    forall i :: 0 <= i < |log| ==> !bad(log[i])
  }

  predicate IsError(s: State)
  {
    s.Error?
  }

  predicate IsStored(s: State)
  {
    s.StoredToFile?
  }

  /** The states the pipeline reaches only after a successful upload. */
  predicate IsAfterUpload(s: State)
  {
    s.UploadedToDevice? || s.WaitingForDeviceRestart? || s.Done?
  }

  lemma AvoidsAppend(a: seq<State>, b: seq<State>, bad: State -> bool)
    requires Avoids(a, bad) && Avoids(b, bad)
    ensures Avoids(a + b, bad)
  {
  }

  lemma NoneStoredCount(log: seq<State>, file: FWFile)
    requires Avoids(log, IsStored)
    ensures multiset(log)[StoredToFile(file)] == 0
  {
    assert StoredToFile(file) !in log by {
      assert forall i :: 0 <= i < |log| ==> !IsStored(log[i]);
    }
  }

  /** Progress states are never errors, stored files or stages after the upload. */
  lemma ProgressStatesShape(req: Request, from: int, n: nat)
    requires req.DownloadFirmware? || req.UploadVersion?
    ensures var ss := ProgressStates(req, from, n);
      Avoids(ss, IsError) && Avoids(ss, IsStored) && Avoids(ss, IsAfterUpload)
  {
  }

  lemma DownloadNotificationsShape(currentVersion: int, newVersion: int, path: string)
    ensures var d := DownloadNotifications(currentVersion, newVersion, path);
      |d| == 9 && Avoids(d, IsError) && Avoids(d, IsStored)
  {
    var a := [Started, CheckingIfUpdateNeeded(currentVersion)] + [DownloadingFromAPI(newVersion, 0, path)];
    var downs := ProgressStates(DownloadFirmware(newVersion, path), 95, 5);
    var b := [DownloadedFromAPI(newVersion, path)];
    ProgressStatesShape(DownloadFirmware(newVersion, path), 95, 5);
    AvoidsAppend(a, downs, IsError);
    AvoidsAppend(a + downs, b, IsError);
    AvoidsAppend(a, downs, IsStored);
    AvoidsAppend(a + downs, b, IsStored);
  }

  lemma UploadNotificationsShape(file: FWFile)
    ensures var u := UploadNotifications(file);
      |u| == 8 && u[7] == Done && Avoids(u, IsError) && Avoids(u, IsStored)
  {
    var ups := ProgressStates(UploadVersion(file), 95, 5);
    var b := [UploadedToDevice, WaitingForDeviceRestart] + [Done];
    ProgressStatesShape(UploadVersion(file), 95, 5);
    assert UploadNotifications(file) == ups + b;
    AvoidsAppend(ups, b, IsError);
    AvoidsAppend(ups, b, IsStored);
  }

  /** The notifications of a fault-free update are eighteen, the last of them `.done`. */
  lemma HappyPathEndsInDone(currentVersion: int, newVersion: int, path: string)
    ensures var log := HappyPathNotifications(currentVersion, newVersion, path);
      |log| == 18 && log[|log| - 1] == Done
  {
    DownloadNotificationsShape(currentVersion, newVersion, path);
    UploadNotificationsShape(FWFile(newVersion, path));
  }

  /** A fault-free update notifies `.storedToFile` exactly once. */
  lemma HappyPathStoresOnce(currentVersion: int, newVersion: int, path: string)
    ensures multiset(HappyPathNotifications(currentVersion, newVersion, path))[StoredToFile(FWFile(newVersion, path))] == 1
  {
    var file := FWFile(newVersion, path);
    var d := DownloadNotifications(currentVersion, newVersion, path);
    var u := UploadNotifications(file);
    DownloadNotificationsShape(currentVersion, newVersion, path);
    UploadNotificationsShape(file);
    NoneStoredCount(d, file);
    NoneStoredCount(u, file);
    assert multiset(d + [StoredToFile(file)] + u) == multiset(d) + multiset([StoredToFile(file)]) + multiset(u);
  }

  /** A fault-free update notifies no error. */
  lemma HappyPathReportsNoError(currentVersion: int, newVersion: int, path: string)
    ensures Avoids(HappyPathNotifications(currentVersion, newVersion, path), IsError)
  {
    var file := FWFile(newVersion, path);
    var d := DownloadNotifications(currentVersion, newVersion, path);
    DownloadNotificationsShape(currentVersion, newVersion, path);
    UploadNotificationsShape(file);
    AvoidsAppend(d, [StoredToFile(file)], IsError);
    AvoidsAppend(d + [StoredToFile(file)], UploadNotifications(file), IsError);
  }

  /**
   * The mock run: the data store reports version 3, the API client offers
   * version 4, and with no fault injected the freshly constructed manager
   * ends in `.done`.
   */
  lemma MockHappyPath(m: Machine, env: Env)
    requires m == Initial() && env == MockEnv()
    ensures APIClient.CheckIfUpdateNeeded(3) == Success(4)
    ensures env.currentVersion == Some(3) && env.savePath == "some/local/path"
    ensures var final := Run(m, env, HappyPathEvents(env.currentVersion.value, 4, env.savePath));
      final.state == Done && final.pending == [] && final.apiError == Nil && final.deviceError == Nil
      && final.notified == HappyPathNotifications(env.currentVersion.value, 4, env.savePath)
  {
    HappyPathRun(m, env, 4);
  }

  /** The source has no guard on starting: a run that ended in `.done` starts over. */
  lemma RestartAfterDone(m: Machine, env: Env)
    requires m.pending == [] && m.state == Done && env.currentVersion.Some?
    ensures var v := env.currentVersion.value;
      Run(m, env, [Start, Tick, Tick]).state == CheckingIfUpdateNeeded(v)
      && Run(m, env, [Start, Tick, Tick]).notified == m.notified + [Started, CheckingIfUpdateNeeded(v)]
  {
    StartPhase(m, env);
  }

  // ---------------------------------------------------------------------------
  // Fault injection.

  /**
   * A fault injected after `k` upload progress callbacks (1 <= k <= 5) is
   * seen by the upload loop's next iteration, which completes with
   * deviceUploadingError; the run ends in that error, with none of the
   * stages after the upload reached.
   */
  lemma UploadFaultRun(m: Machine, env: Env, file: FWFile, k: nat)
    requires m.pending == [] && m.state == StoredToFile(file) && UploadVersion(file) in m.requests && 1 <= k <= 5
    requires m.deviceError == Nil
    ensures var req := UploadVersion(file);
      Run(m, env, Deliveries(req, ProgressRun(95, k)) + [Fault]
        + Deliveries(req, [Completion(Failure(DeviceUploadingError))])) == m.(
        state := Error(DeviceUploadingError),
        notified := m.notified + (ProgressStates(req, 95, k) + [Error(DeviceUploadingError)]),
        deviceError := Some(DeviceUploadingError))
  {
    var N := m.notified;
    var req := UploadVersion(file);
    var x1, x2 := ProgressStates(req, 95, k), [Error(DeviceUploadingError)];
    var e1 := Deliveries(req, ProgressRun(95, k));
    var e3 := Deliveries(req, [Completion(Failure(DeviceUploadingError))]);
    var m1 := m.(state := ProgressState(req, 95 + k - 1), notified := N + x1);
    var m2 := m1.(deviceError := Some(DeviceUploadingError));
    var m3 := m2.(state := Error(DeviceUploadingError), notified := N + (x1 + x2));
    calc {
      Run(m, env, e1 + [Fault] + e3);
    == { RunAppend(m, env, e1 + [Fault], e3); RunAppend(m, env, e1, [Fault]); }
      Run(Run(Run(m, env, e1), env, [Fault]), env, e3);
    == { ProgressPhase(m, env, req, 95, k); assert Run(m, env, e1) == m1; }
      Run(Run(m1, env, [Fault]), env, e3);
    == { RunFault(m1, env); InitiateErrorArms(m1); }
      Run(m2, env, e3);
    == { FailurePhase(m2, env, req, Completion(Failure(DeviceUploadingError)), DeviceUploadingError); ConcatAssoc(N, x1, x2); }
      m3;
    }
  }

  /**
   * The replies of an upload whose error field is first seen armed at the
   * iteration for `95 + k` take the run from `.storedToFile` to
   * `.error(.deviceUploadingError)`, and none of `.uploadedToDevice`,
   * `.waitingForDeviceRestart` and `.done` is notified on the way.
   */
  lemma UploadFaultSkipsLaterStages(m: Machine, env: Env, file: FWFile, k: nat)
    requires m.pending == [] && m.state == StoredToFile(file) && UploadVersion(file) in m.requests && 1 <= k <= 5
    requires m.deviceError == Nil
    ensures Transfer(95, Repeat(Nil, k) + [Some(DeviceUploadingError)] + Repeat(Some(DeviceUploadingError), 5 - k))
      == ProgressRun(95, k) + [Completion(Failure(DeviceUploadingError))]
    ensures var req := UploadVersion(file);
      var final := Run(m, env, Deliveries(req, ProgressRun(95, k)) + [Fault]
        + Deliveries(req, [Completion(Failure(DeviceUploadingError))]));
      final.state == Error(DeviceUploadingError)
      && |final.notified| == |m.notified| + k + 1 && final.notified[..|m.notified|] == m.notified
      && Avoids(final.notified[|m.notified|..], IsAfterUpload)
  {
    TransferFaultAt(k, DeviceUploadingError, Repeat(Some(DeviceUploadingError), 5 - k));
    var req := UploadVersion(file);
    var tail := ProgressStates(req, 95, k) + [Error(DeviceUploadingError)];
    UploadFaultRun(m, env, file, k);
    ProgressStatesShape(req, 95, k);
    AvoidsAppend(ProgressStates(req, 95, k), [Error(DeviceUploadingError)], IsAfterUpload);
    assert (m.notified + tail)[|m.notified|..] == tail;
    assert (m.notified + tail)[..|m.notified|] == m.notified;
  }

  /**
   * A fault injected while the update check is pending is not seen by the
   * check, which ignores the error field, but by the download it starts:
   * that download fails at once with apiError, reporting no progress.
   */
  lemma CheckFaultRun(m: Machine, env: Env, currentVersion: int, newVersion: int)
    requires m.pending == [] && m.state != Started && env.currentVersion == Some(currentVersion)
    ensures Transfer(95, Repeat(Some(ApiError), 6)) == [Completion(Failure(ApiError))]
    ensures var path := env.savePath;
      Run(m, env, [Start, Tick, Tick] + [Fault]
        + Deliveries(CheckIfUpdateNeeded(currentVersion), [Returned(Success(newVersion))])
        + Deliveries(DownloadFirmware(newVersion, path), Transfer(95, Repeat(Some(ApiError), 6))))
      == m.(
        state := Error(ApiError),
        notified := m.notified + ([Started, CheckingIfUpdateNeeded(currentVersion)] + [DownloadingFromAPI(newVersion, 0, path)] + [Error(ApiError)]),
        requests := m.requests + ([CheckIfUpdateNeeded(currentVersion)] + [DownloadFirmware(newVersion, path)]),
        apiError := Some(ApiError))
  {
    TransferFaultAt(0, ApiError, Repeat(Some(ApiError), 5));
    assert Repeat(Nil, 0) + [Some(ApiError)] + Repeat(Some(ApiError), 5) == Repeat(Some(ApiError), 6);
    var path := env.savePath;
    var N, R := m.notified, m.requests;
    var req := DownloadFirmware(newVersion, path);
    var x1, x2, x3 := [Started, CheckingIfUpdateNeeded(currentVersion)], [DownloadingFromAPI(newVersion, 0, path)], [Error(ApiError)];
    var r1, r2 := [CheckIfUpdateNeeded(currentVersion)], [req];
    var e1 := [Start, Tick, Tick];
    var e2 := Deliveries(CheckIfUpdateNeeded(currentVersion), [Returned(Success(newVersion))]);
    var e3 := Deliveries(req, [Completion(Failure(ApiError))]);
    var m1 := m.(state := CheckingIfUpdateNeeded(currentVersion), notified := N + x1, requests := R + r1);
    var m2 := m1.(apiError := Some(ApiError));
    var m3 := m2.(state := DownloadingFromAPI(newVersion, 0, path), notified := N + (x1 + x2), requests := R + (r1 + r2));
    var m4 := m3.(state := Error(ApiError), notified := N + (x1 + x2 + x3));
    calc {
      Run(m, env, e1 + [Fault] + e2 + Deliveries(req, Transfer(95, Repeat(Some(ApiError), 6))));
    ==
      Run(m, env, e1 + [Fault] + e2 + e3);
    == { RunAppend(m, env, e1 + [Fault] + e2, e3); RunAppend(m, env, e1 + [Fault], e2); RunAppend(m, env, e1, [Fault]); }
      Run(Run(Run(Run(m, env, e1), env, [Fault]), env, e2), env, e3);
    == { StartPhase(m, env); assert Run(m, env, e1) == m1; }
      Run(Run(Run(m1, env, [Fault]), env, e2), env, e3);
    == { RunFault(m1, env); InitiateErrorArms(m1); }
      Run(Run(m2, env, e2), env, e3);
    == { UpdateCheckedPhase(m2, env, currentVersion, newVersion); ConcatAssoc(N, x1, x2); ConcatAssoc(R, r1, r2);
         assert Run(m2, env, e2) == m3; }
      Run(m3, env, e3);
    == { FailurePhase(m3, env, req, Completion(Failure(ApiError)), ApiError); ConcatAssoc(N, x1 + x2, x3); }
      m4;
    }
  }

  /**
   * A fault injected in `.downloadedFromAPI` arms the API client, whose
   * download has already completed, and the data store ignores errors: the
   * run continues exactly as without the fault.
   */
  lemma FaultWhileDownloadedIsSilent(m: Machine, env: Env, version: int, path: string)
    requires m.pending == [] && m.state == DownloadedFromAPI(version, path)
    requires Store(FWFile(version, path)) in m.requests && env.uploadPossible
    ensures var events := StoreEvents(FWFile(version, path));
      Run(m, env, [Fault] + events) == Run(m, env, events).(apiError := Some(StoringError))
      && Run(m, env, events).state == StoredToFile(FWFile(version, path))
  {
    var file := FWFile(version, path);
    var m1 := m.(apiError := Some(StoringError));
    calc {
      Run(m, env, [Fault] + StoreEvents(file));
    == { RunAppend(m, env, [Fault], StoreEvents(file)); RunOne(m, env, Fault); }
      Run(m1, env, StoreEvents(file));
    == { StoredPhase(m1, env, file); StoredPhase(m, env, file); }
      Run(m, env, StoreEvents(file)).(apiError := Some(StoringError));
    }
    StoredPhase(m, env, file);
  }

  /**
   * A fault injected while waiting for the restart makes the install report
   * failure — the mock reports success exactly when its error field is nil —
   * and the run ends in `.error(.deviceInstallingError)`.
   */
  lemma FaultWhileWaitingFailsInstall(m: Machine, env: Env)
    requires m.pending == [] && m.state == WaitingForDeviceRestart && InstallAndRelaunch in m.requests
    ensures var armed := InitiateError(m);
      armed.deviceError == Some(DeviceInstallingError)
      && Run(m, env, [Fault] + Deliveries(InstallAndRelaunch, [Finished(armed.deviceError.Nil?)])) == armed.(
        state := Error(DeviceInstallingError),
        notified := m.notified + [Error(DeviceInstallingError)])
  {
    var armed := m.(deviceError := Some(DeviceInstallingError));
    var events := Deliveries(InstallAndRelaunch, [Finished(false)]);
    calc {
      Run(m, env, [Fault] + events);
    == { RunAppend(m, env, [Fault], events); RunOne(m, env, Fault); }
      Run(armed, env, events);
    == { InstalledPhase(armed, env); }
      armed.(state := Error(DeviceInstallingError), notified := m.notified + [Error(DeviceInstallingError)]);
    }
  }
  /** With its error field armed with `e`, every iteration of a transfer sees `e`: the loop fails at once. */
  lemma ArmedTransfer(e: FWUpdateError)
    ensures Transfer(95, Repeat(Some(e), 6)) == [Completion(Failure(e))]
  {
    TransferFaultAt(0, e, Repeat(Some(e), 5));
    assert Repeat(Nil, 0) + [Some(e)] + Repeat(Some(e), 5) == Repeat(Some(e), 6);
  }

  /**
   * A transfer started while its collaborator's error field is armed
   * delivers only the failing completion, and the run ends in that error.
   */
  lemma ArmedTransferFails(m: Machine, env: Env, req: Request)
    requires m.pending == [] && (req.DownloadFirmware? || req.UploadVersion?) && req in m.requests
    requires Watched(m, req).Some? && m.state != Error(Watched(m, req).value)
    ensures var e := Watched(m, req).value;
      Run(m, env, Deliveries(req, Transfer(95, Repeat(Watched(m, req), 6))))
        == m.(state := Error(e), notified := m.notified + [Error(e)])
  {
    var e := Watched(m, req).value;
    ArmedTransfer(e);
    FailurePhase(m, env, req, Completion(Failure(e)), e);
  }

  /**
   * Once a transfer's error field is armed, a progress callback or a
   * successful completion of it cannot be delivered: such an event changes
   * nothing.
   */
  lemma ArmedTransferDeliversNoSuccess(m: Machine, env: Env, req: Request, reply: Reply)
    requires (req.DownloadFirmware? || req.UploadVersion?) && Watched(m, req).Some?
    requires reply.Progress? || reply == Completion(Success(true))
    ensures Apply(m, env, Callback(req, reply)) == m
  {
  }

  /**
   * A transfer's loop reports only the percentages 95 to 99, so a progress
   * callback carrying any other percentage is not delivered.
   */
  lemma OutOfRangeProgressDropped(m: Machine, env: Env, req: Request, p: int)
    requires (req.DownloadFirmware? || req.UploadVersion?) && !(95 <= p <= 99)
    ensures Apply(m, env, Callback(req, Progress(Success(p)))) == m
  {
  }

  /**
   * A fault injected in `.uploadingToDevice` is followed by no successful
   * upload completion: a `Completion(Success(true))` after it is not
   * delivered and the manager stays where the fault left it.
   */
  lemma UploadFaultBlocksCompletion(m: Machine, env: Env, file: FWFile, percentage: int)
    requires m.state == UploadingToDevice(file, percentage)
    ensures var armed := InitiateError(m);
      armed.deviceError == Some(DeviceUploadingError)
      && Run(m, env, [Fault, Callback(UploadVersion(file), Completion(Success(true)))]) == armed
  {
    var armed := InitiateError(m);
    RunTwo(m, env, Fault, Callback(UploadVersion(file), Completion(Success(true))));
    ArmedTransferDeliversNoSuccess(armed, env, UploadVersion(file), Completion(Success(true)));
  }

  /**
   * A fault injected while the download is in progress, after `k` progress
   * callbacks (0 <= k <= 5), is seen by the download loop's next iteration,
   * which completes with apiError. The run ends in `.error(.apiError)`, and
   * neither the downloaded state nor the store is ever reached.
   */
  lemma DownloadFaultRun(m: Machine, env: Env, version: int, path: string, k: nat)
    requires m.pending == [] && m.state == DownloadingFromAPI(version, 0, path)
    requires DownloadFirmware(version, path) in m.requests && m.apiError == Nil && k <= 5
    ensures var req := DownloadFirmware(version, path);
      Run(m, env, Deliveries(req, ProgressRun(95, k)) + [Fault]
        + Deliveries(req, [Completion(Failure(ApiError))])) == m.(
        state := Error(ApiError),
        notified := m.notified + (ProgressStates(req, 95, k) + [Error(ApiError)]),
        apiError := Some(ApiError))
  {
    var N := m.notified;
    var req := DownloadFirmware(version, path);
    var x1, x2 := ProgressStates(req, 95, k), [Error(ApiError)];
    var e1 := Deliveries(req, ProgressRun(95, k));
    var e3 := Deliveries(req, [Completion(Failure(ApiError))]);
    var m1 := m.(state := if k == 0 then m.state else ProgressState(req, 95 + k - 1), notified := N + x1);
    var m2 := m1.(apiError := Some(ApiError));
    var m3 := m2.(state := Error(ApiError), notified := N + (x1 + x2));
    calc {
      Run(m, env, e1 + [Fault] + e3);
    == { RunAppend(m, env, e1 + [Fault], e3); RunAppend(m, env, e1, [Fault]); }
      Run(Run(Run(m, env, e1), env, [Fault]), env, e3);
    == { ProgressPhase(m, env, req, 95, k); assert Run(m, env, e1) == m1; }
      Run(Run(m1, env, [Fault]), env, e3);
    == { RunFault(m1, env); InitiateErrorArms(m1); }
      Run(m2, env, e3);
    == { FailurePhase(m2, env, req, Completion(Failure(ApiError)), ApiError); ConcatAssoc(N, x1, x2); }
      m3;
    }
  }

  /** A new update whose upload transfer sees the device field as `observed`. */
  function RetryEvents(currentVersion: int, newVersion: int, path: string, observed: Optional<FWUpdateError>): seq<Event>
  {
    DownloadEvents(currentVersion, newVersion, path)
    + (StoreEvents(FWFile(newVersion, path)) + Deliveries(UploadVersion(FWFile(newVersion, path)), Transfer(95, Repeat(observed, 6))))
  }

  /** The store completes and the upload it starts fails at once on the armed device error. */
  lemma StoreThenArmedUpload(m: Machine, env: Env, file: FWFile)
    requires m.pending == [] && Store(file) in m.requests && env.uploadPossible
    requires m.state != StoredToFile(file) && m.deviceError.Some?
    ensures Run(m, env, StoreEvents(file) + Deliveries(UploadVersion(file), Transfer(95, Repeat(m.deviceError, 6)))) == m.(
      state := Error(m.deviceError.value),
      notified := m.notified + [StoredToFile(file), Error(m.deviceError.value)],
      requests := m.requests + [UploadVersion(file)])
  {
    var e := m.deviceError.value;
    var m2 := m.(state := StoredToFile(file), notified := m.notified + [StoredToFile(file)],
      requests := m.requests + [UploadVersion(file)]);
    RunAppend(m, env, StoreEvents(file), Deliveries(UploadVersion(file), Transfer(95, Repeat(m.deviceError, 6))));
    StoredPhase(m, env, file);
    ArmedTransferFails(m2, env, UploadVersion(file));
    ConcatAssoc(m.notified, [StoredToFile(file)], [Error(e)]);
  }

  /**
   * Nothing clears an armed device error: a new update started while it is
   * armed downloads and stores the file as usual, and then its upload fails
   * at once with that error.
   */
  lemma RetryWhileArmed(m: Machine, env: Env, newVersion: int)
    requires m.pending == [] && m.state != Started && env.currentVersion.Some? && env.uploadPossible
    requires m.apiError == Nil && m.deviceError.Some?
    ensures var cv, path, e := env.currentVersion.value, env.savePath, m.deviceError.value;
      Run(m, env, RetryEvents(cv, newVersion, path, m.deviceError)) == m.(
        state := Error(e),
        notified := m.notified + (DownloadNotifications(cv, newVersion, path) + [StoredToFile(FWFile(newVersion, path)), Error(e)]),
        requests := m.requests + (DownloadRequests(cv, newVersion, path) + [UploadVersion(FWFile(newVersion, path))]))
  {
    var cv, path := env.currentVersion.value, env.savePath;
    var file := FWFile(newVersion, path);
    var x1, r1 := DownloadNotifications(cv, newVersion, path), DownloadRequests(cv, newVersion, path);
    var e1 := DownloadEvents(cv, newVersion, path);
    var e23 := StoreEvents(file) + Deliveries(UploadVersion(file), Transfer(95, Repeat(m.deviceError, 6)));
    var m1 := m.(state := DownloadedFromAPI(newVersion, path), notified := m.notified + x1, requests := m.requests + r1);
    RunAppend(m, env, e1, e23);
    DownloadRun(m, env, cv, newVersion);
    assert Run(m, env, e1) == m1;
    StoreThenArmedUpload(m1, env, file);
    ConcatAssoc(m.notified, x1, [StoredToFile(file), Error(m.deviceError.value)]);
    ConcatAssoc(m.requests, r1, [UploadVersion(file)]);
  }

  /**
   * After an upload that failed by a fault, restarting runs the pipeline up
   * to the stored file again, and the next upload fails at once with
   * deviceUploadingError: the injected fault is never cleared.
   */
  lemma UploadFaultPersists(m: Machine, env: Env, file: FWFile, k: nat, newVersion: int)
    requires m.pending == [] && m.state == StoredToFile(file) && UploadVersion(file) in m.requests && 1 <= k <= 5
    requires m.deviceError == Nil && m.apiError == Nil && env.currentVersion.Some? && env.uploadPossible
    ensures var req, cv, path := UploadVersion(file), env.currentVersion.value, env.savePath;
      var failed := Deliveries(req, ProgressRun(95, k)) + [Fault] + Deliveries(req, [Completion(Failure(DeviceUploadingError))]);
      var final := Run(m, env, failed + RetryEvents(cv, newVersion, path, Some(DeviceUploadingError)));
      final.state == Error(DeviceUploadingError) && final.deviceError == Some(DeviceUploadingError)
      && final.notified == m.notified + (ProgressStates(req, 95, k) + [Error(DeviceUploadingError)])
        + (DownloadNotifications(cv, newVersion, path) + [StoredToFile(FWFile(newVersion, path)), Error(DeviceUploadingError)])
  {
    var req, cv, path := UploadVersion(file), env.currentVersion.value, env.savePath;
    var failed := Deliveries(req, ProgressRun(95, k)) + [Fault] + Deliveries(req, [Completion(Failure(DeviceUploadingError))]);
    var retry := RetryEvents(cv, newVersion, path, Some(DeviceUploadingError));
    var m1 := m.(state := Error(DeviceUploadingError),
      notified := m.notified + (ProgressStates(req, 95, k) + [Error(DeviceUploadingError)]),
      deviceError := Some(DeviceUploadingError));
    RunAppend(m, env, failed, retry);
    UploadFaultRun(m, env, file, k);
    assert Run(m, env, failed) == m1;
    RetryWhileArmed(m1, env, newVersion);
  }
}

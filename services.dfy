/**
 * The collaborators of the update manager, as the mock implementations
 * define them: the remote API client, the validator, the local data store and
 * the remote device manager. Each one carries a settable `error` field; what
 * is modelled of an asynchronous operation is the sequence of callbacks it
 * delivers, as a function of that field.
 */
module Services {
  import opened UpdateState

  /** One callback a collaborator delivers to the manager. */
  datatype Reply =
    | Returned(returned: IntermediateResult<int>)        // completion of checkIfUpdateNeeded
    | Progress(progress: IntermediateResult<int>)        // a ProgressHandler call, carrying a percentage
    | Completion(completion: IntermediateResult<bool>)   // a ComplitionHandler call
    | Finished(finished: bool)                           // completion of store and installAndRelaunch

  /** `n` progress callbacks carrying the percentages `from`, `from + 1`, ... */
  function ProgressRun(from: int, n: nat): (rs: seq<Reply>)
    ensures |rs| == n && forall i :: 0 <= i < n ==> rs[i] == Progress(Success(from + i))
  {
    seq(n, i => Progress(Success(from + i)))
  }

  /** The same value observed `n` times. */
  function Repeat(x: Optional<FWUpdateError>, n: nat): (xs: seq<Optional<FWUpdateError>>)
    ensures |xs| == n && forall i :: 0 <= i < n ==> xs[i] == x
  {
    seq(n, _ => x)
  }

  /**
   * The callbacks of the transfer loop `for percent in 95...100`, from the
   * iteration for `percent` on, where `observed[k]` is the value the `error`
   * field has when the iteration for `percent + k` checks it. An armed error
   * ends the loop with a failing completion; otherwise the iterations below
   * 100 report progress and the one for 100 completes successfully.
   */
  function Transfer(percent: int, observed: seq<Optional<FWUpdateError>>): (rs: seq<Reply>)
    requires 95 <= percent <= 100 && |observed| == 101 - percent
    decreases 100 - percent
    ensures 1 <= |rs| <= |observed|
    ensures forall i :: 0 <= i < |rs| - 1 ==> rs[i] == Progress(Success(percent + i)) && observed[i] == Nil
    ensures observed[|rs| - 1].Some? ==> rs[|rs| - 1] == Completion(Failure(observed[|rs| - 1].value))
    ensures observed[|rs| - 1].Nil? ==> |rs| == |observed| && rs[|rs| - 1] == Completion(Success(true))
  {
    match observed[0]
    case Some(err) => [Completion(Failure(err))]
    case Nil =>
      if percent == 100 then [Completion(Success(true))]
      else [Progress(Success(percent))] + Transfer(percent + 1, observed[1..])
  }

  lemma ProgressRunCons(from: int, n: nat)
    requires n > 0
    ensures ProgressRun(from, n) == [Progress(Success(from))] + ProgressRun(from + 1, n - 1)
  {
    assert ProgressRun(from, n)[1..] == ProgressRun(from + 1, n - 1);
  }

  /** With no error armed, the iterations from `percent` on report progress up to 99 and then complete. */
  lemma {:induction false} CleanTransfer(percent: int)
    requires 95 <= percent <= 100
    ensures Transfer(percent, Repeat(Nil, 101 - percent)) == ProgressRun(percent, 100 - percent) + [Completion(Success(true))]
    decreases 100 - percent
  {
    var observed := Repeat(Nil, 101 - percent);
    if percent == 100 {
      assert ProgressRun(percent, 0) == [];
    } else {
      assert observed[1..] == Repeat(Nil, 100 - percent);
      CleanTransfer(percent + 1);
      ProgressRunCons(percent, 100 - percent);
      ConcatAssoc([Progress(Success(percent))], ProgressRun(percent + 1, 99 - percent), [Completion(Success(true))]);
    }
  }

  /** With no error armed, a transfer reports 95 to 99 percent and then completes successfully. */
  lemma TransferWithoutFault()
    ensures Transfer(95, Repeat(Nil, 6)) == ProgressRun(95, 5) + [Completion(Success(true))]
  {
    CleanTransfer(95);
  }

  /**
   * When the iterations from `percent` on see the error field nil `k` times
   * and then armed with `err`, they report `k` progress callbacks and then
   * that error as their only completion; what they would see later is never read.
   */
  lemma {:induction false} FaultyTransfer(percent: int, k: nat, err: FWUpdateError, later: seq<Optional<FWUpdateError>>)
    requires 95 <= percent && percent + k <= 100 && |later| == 100 - percent - k
    ensures Transfer(percent, Repeat(Nil, k) + [Some(err)] + later) == ProgressRun(percent, k) + [Completion(Failure(err))]
    decreases k
  {
    var observed := Repeat(Nil, k) + [Some(err)] + later;
    if k == 0 {
      assert observed[0] == Some(err);
      assert ProgressRun(percent, 0) == [];
    } else {
      assert observed[0] == Nil;
      assert observed[1..] == Repeat(Nil, k - 1) + [Some(err)] + later;
      FaultyTransfer(percent + 1, k - 1, err, later);
      ProgressRunCons(percent, k);
      ConcatAssoc([Progress(Success(percent))], ProgressRun(percent + 1, k - 1), [Completion(Failure(err))]);
    }
  }

  /**
   * When the error field is first seen set at the iteration for `95 + k`,
   * the transfer has reported `k` progress callbacks and then reports that
   * error as its only completion; nothing follows it.
   */
  lemma TransferFaultAt(k: nat, err: FWUpdateError, later: seq<Optional<FWUpdateError>>)
    requires k <= 5 && |later| == 5 - k
    ensures Transfer(95, Repeat(Nil, k) + [Some(err)] + later) == ProgressRun(95, k) + [Completion(Failure(err))]
  {
    FaultyTransfer(95, k, err, later);
  }

  /**
   * The loop shared by `downloadFirmware` and `uploadVerision`, with the
   * error field read at the start of every iteration.
   */
  method TransferLoop(error: Optional<FWUpdateError>) returns (replies: seq<Reply>)
    ensures replies == Transfer(95, Repeat(error, 6))
    ensures error.Nil? ==> replies == ProgressRun(95, 5) + [Completion(Success(true))]
    ensures error.Some? ==> replies == [Completion(Failure(error.value))]
  {
    replies := [];
    for percent := 95 to 101
      invariant error.Some? ==> percent == 95 && replies == []
      invariant error.Nil? && percent <= 100 ==> replies == ProgressRun(95, percent - 95)
      invariant error.Nil? && percent == 101 ==> replies == ProgressRun(95, 5) + [Completion(Success(true))]
    {
      if error.Some? {
        replies := replies + [Completion(Failure(error.value))];
        assert Repeat(error, 6)[0] == error;
        return;
      }
      if percent < 100 {
        assert ProgressRun(95, percent - 95) + [Progress(Success(percent))] == ProgressRun(95, percent + 1 - 95);
        replies := replies + [Progress(Success(percent))];
      } else {
        replies := replies + [Completion(Success(true))];
      }
    }
    TransferWithoutFault();
  }

  /** Mock of the remote API client. */
  class APIClient {
    var error: Optional<FWUpdateError>

    constructor ()
      ensures error == Nil
    {
      error := Nil;
    }

    /** Always reports that version 4 is available; the armed error is never consulted. */
    static function CheckIfUpdateNeeded(currentVersion: int): (r: IntermediateResult<int>)
      ensures r == Success(4)
    {
      Success(4)
    }

    /** The callbacks of a download of `version` to `path`. */
    method DownloadFirmware(version: int, path: string) returns (replies: seq<Reply>)
      ensures replies == Transfer(95, Repeat(error, 6))
      ensures error.Nil? ==> replies == ProgressRun(95, 5) + [Completion(Success(true))]
      ensures error.Some? ==> replies == [Completion(Failure(error.value))]
    {
      replies := TransferLoop(error);
    }
  }

  /** Mock of the firmware validator. */
  class FWValidator {
    var error: Optional<FWUpdateError>

    constructor ()
      ensures error == Nil
    {
      error := Nil;
    }

    /** Unpacking keeps the version and places the result at a fixed path. */
    static function UnpackFile(downloadedFile: FWFile): (r: IntermediateResult<FWFile>)
      ensures r == Success(FWFile(downloadedFile.fwVersion, "path/for/unpacked.file"))
    {
      Success(FWFile(downloadedFile.fwVersion, "path/for/unpacked.file"))
    }

    /** The format and signature check, which accepts every file. */
    static function IsFWValid(file: FWFile): (valid: bool)
      ensures valid
    {
      true
    }

    /** Composes an unpacking result with the validity check. */
    static function Validate(unpackingResult: IntermediateResult<FWFile>, isValid: FWFile -> bool): IntermediateResult<FWFile>
    {
      match unpackingResult
      case Failure(error) => Failure(error)
      case Success(unpackedFile) =>
        if isValid(unpackedFile) then Success(unpackedFile) else Failure(DownloadedVersionInvalid)
    }

    /** An unpacking failure passes through; an invalid file fails with downloadedVersionInvalid. */
    static lemma ValidateOutcomes(unpackingResult: IntermediateResult<FWFile>, isValid: FWFile -> bool)
      ensures unpackingResult.Failure? ==> Validate(unpackingResult, isValid) == unpackingResult
      ensures unpackingResult.Success? ==>
        (Validate(unpackingResult, isValid).Success? <==> isValid(unpackingResult.value))
      ensures unpackingResult.Success? && isValid(unpackingResult.value) ==>
        Validate(unpackingResult, isValid) == unpackingResult
      ensures unpackingResult.Success? && !isValid(unpackingResult.value) ==>
        Validate(unpackingResult, isValid) == Failure(DownloadedVersionInvalid)
    {
    }

    /** With the mock unpacker and checker, validation always succeeds with the unpacked file. */
    static function UnpackAndValidate(downloadedFile: FWFile): (r: IntermediateResult<FWFile>)
      ensures r.Success?
      ensures r.value.fwVersion == downloadedFile.fwVersion && r.value.localPath == "path/for/unpacked.file"
    {
      Validate(UnpackFile(downloadedFile), IsFWValid)
    }
  }

  /** Mock of the local data store. */
  class DataStore {
    var error: Optional<FWUpdateError>

    constructor ()
      ensures error == Nil
    {
      error := Nil;
    }

    static function CurrentFWVersion(): (v: Optional<int>)
      ensures v == Some(3)
    {
      Some(3)
    }

    static function PatchToSaveNewFW(): (path: string)
      ensures path == "some/local/path"
    {
      "some/local/path"
    }

    /** Storing always succeeds; the armed error is never consulted. */
    static function Store(file: FWFile): (success: bool)
      ensures success
    {
      true
    }
  }

  /** Mock of the remote device manager. */
  class RemoteDeviceManager {
    var error: Optional<FWUpdateError>

    constructor ()
      ensures error == Nil
    {
      error := Nil;
    }

    /** The callbacks of a transfer of `fromFile` to the device. */
    method UploadVersion(fromFile: FWFile) returns (replies: seq<Reply>)
      ensures replies == Transfer(95, Repeat(error, 6))
      ensures error.Nil? ==> replies == ProgressRun(95, 5) + [Completion(Success(true))]
      ensures error.Some? ==> replies == [Completion(Failure(error.value))]
    {
      replies := TransferLoop(error);
    }

    /** Install and relaunch succeed exactly when no error is armed. */
    function InstallAndRelaunch(): (success: bool)
      reads this
      ensures success <==> error.Nil?
    {
      error.Nil?
    }
  }
}

/**
 * The value types of the firmware-update pipeline: the update error taxonomy,
 * the firmware file record, the result envelope every collaborator callback
 * uses, and the pipeline State with its hand-written equality and its status
 * rendering.
 */
module UpdateState {

  /** Swift's `Optional`: `nil` or a wrapped value. */
  datatype Optional<T> = Nil | Some(value: T)

  // ---------------------------------------------------------------------------
  // A sequence helper, declared here because every other module imports this one.

  /** Concatenation of sequences is associative; the run proofs regroup logs and scripts with it. */
  lemma ConcatAssoc<T>(a: seq<T>, b: seq<T>, c: seq<T>)
    ensures a + b + c == a + (b + c)
  {
  }

  /** The closed set of failure kinds (`FWUpdateError`). */
  datatype FWUpdateError =
    | NoCurrentVersion
    | DownloadedVersionInvalid
    | ApiError
    | UnpackingError
    | DeviceUploadingError
    | DeviceInstallingError
    | DeviceIsNotReady
    | StoringError

  /** A firmware image: its version and where it is stored locally. Equality is structural. */
  datatype FWFile = FWFile(fwVersion: int, localPath: string)

  /** The result envelope `FWUpdateIntermediateResult<T>`. */
  datatype IntermediateResult<T> = Success(value: T) | Failure(error: FWUpdateError)

  /** The stages of the pipeline; exactly one is live at a time. */
  datatype State =
    | None
    | Started
    | CheckingIfUpdateNeeded(currentVersion: int)
    | DownloadingFromAPI(newVersion: int, percentage: int, path: string)
    | DownloadedFromAPI(newVersion: int, path: string)
    | StoredToFile(file: FWFile)
    | UploadingToDevice(file: FWFile, percentage: int)
    | UploadedToDevice
    | WaitingForDeviceRestart
    | Done
    | Error(error: FWUpdateError)

  /** The position of a state's variant in the declaration, used to speak of "the same variant". */
  function Variant(s: State): nat
  {
    match s
    case None => 0
    case Started => 1
    case CheckingIfUpdateNeeded(_) => 2
    case DownloadingFromAPI(_, _, _) => 3
    case DownloadedFromAPI(_, _) => 4
    case StoredToFile(_) => 5
    case UploadingToDevice(_, _) => 6
    case UploadedToDevice => 7
    case WaitingForDeviceRestart => 8
    case Done => 9
    case Error(_) => 10
  }

  /**
   * The hand-written `==` on states. Every variant has an arm comparing its
   * payload, except `done`: a pair of `done` states falls to the default arm
   * and compares unequal.
   */
  function Equal(lhs: State, rhs: State): bool
  {
    match (lhs, rhs)
    case (None, None) => true
    case (Started, Started) => true
    case (CheckingIfUpdateNeeded(version1), CheckingIfUpdateNeeded(version2)) =>
      version1 == version2
    case (DownloadingFromAPI(version1, percentage1, path1), DownloadingFromAPI(version2, percentage2, path2)) =>
      version1 == version2 && percentage1 == percentage2 && path1 == path2
    case (DownloadedFromAPI(version1, path1), DownloadedFromAPI(version2, path2)) =>
      (version1, path1) == (version2, path2)
    case (StoredToFile(file1), StoredToFile(file2)) => file1 == file2
    case (UploadingToDevice(file1, percentage1), UploadingToDevice(file2, percentage2)) =>
      file1 == file2 && percentage1 == percentage2
    case (UploadedToDevice, UploadedToDevice) => true
    case (WaitingForDeviceRestart, WaitingForDeviceRestart) => true
    case (Error(err1), Error(err2)) => err1 == err2
    case _ => false
  }

  /** The hand-written equality is structural equality, with `done` never equal to anything. */
  lemma EqualIsIdentityExceptDone(lhs: State, rhs: State)
    ensures Equal(lhs, rhs) <==> lhs == rhs && !lhs.Done?
  {
  }

  lemma EqualSymmetric(lhs: State, rhs: State)
    ensures Equal(lhs, rhs) == Equal(rhs, lhs)
  {
  }

  lemma DifferentVariantsAreUnequal(lhs: State, rhs: State)
    requires Variant(lhs) != Variant(rhs)
    ensures !Equal(lhs, rhs)
  {
  }

  /** What each arm compares: the whole payload, and only the payload. */
  lemma EqualComparesPayloads(lhs: State, rhs: State)
    ensures lhs.CheckingIfUpdateNeeded? && rhs.CheckingIfUpdateNeeded? ==>
      (Equal(lhs, rhs) <==> lhs.currentVersion == rhs.currentVersion)
    ensures lhs.DownloadingFromAPI? && rhs.DownloadingFromAPI? ==>
      (Equal(lhs, rhs) <==> lhs.newVersion == rhs.newVersion && lhs.percentage == rhs.percentage && lhs.path == rhs.path)
    ensures lhs.DownloadedFromAPI? && rhs.DownloadedFromAPI? ==>
      (Equal(lhs, rhs) <==> lhs.newVersion == rhs.newVersion && lhs.path == rhs.path)
    ensures lhs.StoredToFile? && rhs.StoredToFile? ==>
      (Equal(lhs, rhs) <==> lhs.file.fwVersion == rhs.file.fwVersion && lhs.file.localPath == rhs.file.localPath)
    ensures lhs.UploadingToDevice? && rhs.UploadingToDevice? ==>
      (Equal(lhs, rhs) <==> lhs.file == rhs.file && lhs.percentage == rhs.percentage)
    ensures lhs.Error? && rhs.Error? ==> (Equal(lhs, rhs) <==> lhs.error == rhs.error)
  {
  }

  /** Every state but `done` is equal to itself; `done == done` is false. */
  lemma EqualReflexiveExceptDone(s: State)
    ensures Equal(s, s) <==> !s.Done?
    ensures !Equal(Done, Done)
  {
  }

  // ---------------------------------------------------------------------------
  // Decimal rendering of integers, as Swift's string interpolation prints an Int,
  // and a parser that is its inverse.

  predicate IsDigit(c: char)
  {
    '0' <= c <= '9'
  }

  predicate AllDigits(s: string)
  {
    forall k :: 0 <= k < |s| ==> IsDigit(s[k])
  }

  function DigitChar(d: nat): (c: char)
    requires d < 10
    ensures IsDigit(c) && c as int - '0' as int == d
  {
    (d + '0' as int) as char
  }

  function DigitValue(c: char): nat
    requires IsDigit(c)
  {
    c as int - '0' as int
  }

  /** The decimal digits of `n`, most significant first, without leading zeros. */
  function NatToString(n: nat): (s: string)
    ensures |s| >= 1 && AllDigits(s)
  {
    if n < 10 then [DigitChar(n)] else NatToString(n / 10) + [DigitChar(n % 10)]
  }

  /** The value of a non-empty string of decimal digits. */
  function ParseNat(s: string): nat
    requires |s| >= 1 && AllDigits(s)
  {
    if |s| == 1 then DigitValue(s[0])
    else ParseNat(s[..|s| - 1]) * 10 + DigitValue(s[|s| - 1])
  }

  function IntToString(i: int): (s: string)
    ensures |s| >= 1 && forall k :: 0 <= k < |s| ==> IsNumeral(s[k])
  {
    if i < 0 then "-" + NatToString(-i) else NatToString(i)
  }

  function ParseInt(s: string): Optional<int>
  {
    if |s| >= 2 && s[0] == '-' && AllDigits(s[1..]) then Some(-(ParseNat(s[1..]) as int))
    else if |s| >= 1 && AllDigits(s) then Some(ParseNat(s))
    else Nil
  }

  lemma {:induction false} ParseNatOfNatToString(n: nat)
    ensures ParseNat(NatToString(n)) == n
  {
    if n >= 10 {
      var s := NatToString(n);
      assert s[..|s| - 1] == NatToString(n / 10);
      ParseNatOfNatToString(n / 10);
    }
  }

  /** Parsing undoes rendering, for every integer. */
  lemma IntToStringRoundTrip(i: int)
    ensures ParseInt(IntToString(i)) == Some(i)
  {
    if i < 0 {
      var s := IntToString(i);
      assert s[1..] == NatToString(-i);
      ParseNatOfNatToString(-i);
    } else {
      ParseNatOfNatToString(i);
    }
  }

  /** Distinct integers render as distinct strings. */
  lemma IntToStringInjective(i: int, j: int)
    ensures IntToString(i) == IntToString(j) ==> i == j
  {
    IntToStringRoundTrip(i);
    IntToStringRoundTrip(j);
  }

  // ---------------------------------------------------------------------------
  // Status strings.

  /** Swift's default rendering of an error: the case name. */
  function ErrorName(e: FWUpdateError): string
  {
    match e
    case NoCurrentVersion => "noCurrentVersion"
    case DownloadedVersionInvalid => "downloadedVersionInvalid"
    case ApiError => "apiError"
    case UnpackingError => "unpackingError"
    case DeviceUploadingError => "deviceUploadingError"
    case DeviceInstallingError => "deviceInstallingError"
    case DeviceIsNotReady => "deviceIsNotReady"
    case StoringError => "storingError"
  }

  /**
   * `stringRepresentation`. The states without a dedicated arm carry no payload,
   * and Swift's `String(describing:)` renders such a case as its name.
   */
  function StringRepresentation(s: State): string
  {
    match s
    case CheckingIfUpdateNeeded(currentVersion) => "v." + IntToString(currentVersion) + " checking for update..."
    case DownloadingFromAPI(newVersion, percentage, _) =>
      "v." + IntToString(newVersion) + " API downloading: " + IntToString(percentage) + "%"
    case DownloadedFromAPI(newVersion, _) => "v." + IntToString(newVersion) + " downloaded"
    case StoredToFile(_) => "file stored"
    case UploadingToDevice(_, percentage) => "uploading to device: " + IntToString(percentage) + "%"
    case Error(error) => "Error: " + ErrorName(error)
    case None => "none"
    case Started => "started"
    case UploadedToDevice => "uploadedToDevice"
    case WaitingForDeviceRestart => "waitingForDeviceRestart"
    case Done => "done"
  }

  /** Where `line` starts with `prefix`. */
  predicate StartsWith(line: string, prefix: string)
  {
    |prefix| <= |line| && line[..|prefix|] == prefix
  }

  lemma StartsWithConcat(prefix: string, rest: string)
    ensures StartsWith(prefix + rest, prefix)
  {
    assert (prefix + rest)[..|prefix|] == prefix;
  }

  /**
   * A status line starts with "v." exactly for the three states that carry a
   * version, and with "Error: " exactly for the error states.
   */
  lemma StatusLinePrefixes(s: State)
    ensures StartsWith(StringRepresentation(s), "v.") <==>
      (s.CheckingIfUpdateNeeded? || s.DownloadingFromAPI? || s.DownloadedFromAPI?)
    ensures StartsWith(StringRepresentation(s), "Error: ") <==> s.Error?
  {
    var line := StringRepresentation(s);
    match s
    case CheckingIfUpdateNeeded(v) => CheckingLine(v);
    case DownloadingFromAPI(v, p, path) => DownloadingLine(v, p, path);
    case DownloadedFromAPI(v, path) => DownloadedLine(v, path);
    case Error(e) =>
      StartsWithConcat("Error: ", ErrorName(e));
      assert line[0] == 'E';
      FirstCharDiffers(line, "v.");
    case UploadingToDevice(_, p) =>
      assert line == "uploading to device: " + (IntToString(p) + "%");
      OtherLine(line);
    case StoredToFile(_) => OtherLine(line);
    case None => OtherLine(line);
    case Started => OtherLine(line);
    case UploadedToDevice => OtherLine(line);
    case WaitingForDeviceRestart => OtherLine(line);
    case Done => OtherLine(line);
  }

  lemma CheckingLine(v: int)
    ensures var line := StringRepresentation(CheckingIfUpdateNeeded(v));
      StartsWith(line, "v.") && !StartsWith(line, "Error: ")
  {
    ConcatAssoc("v.", IntToString(v), " checking for update...");
    VersionLine(StringRepresentation(CheckingIfUpdateNeeded(v)), IntToString(v) + " checking for update...");
  }

  lemma DownloadingLine(v: int, p: int, path: string)
    ensures var line := StringRepresentation(DownloadingFromAPI(v, p, path));
      StartsWith(line, "v.") && !StartsWith(line, "Error: ")
  {
    var rest := IntToString(v) + " API downloading: " + IntToString(p) + "%";
    assert StringRepresentation(DownloadingFromAPI(v, p, path)) == "v." + rest;
    VersionLine(StringRepresentation(DownloadingFromAPI(v, p, path)), rest);
  }

  lemma DownloadedLine(v: int, path: string)
    ensures var line := StringRepresentation(DownloadedFromAPI(v, path));
      StartsWith(line, "v.") && !StartsWith(line, "Error: ")
  {
    ConcatAssoc("v.", IntToString(v), " downloaded");
    VersionLine(StringRepresentation(DownloadedFromAPI(v, path)), IntToString(v) + " downloaded");
  }

  lemma FirstCharDiffers(line: string, prefix: string)
    requires line != [] && prefix != [] && line[0] != prefix[0]
    ensures !StartsWith(line, prefix)
  {
    assert |prefix| <= |line| ==> line[..|prefix|][0] == line[0];
  }

  lemma VersionLine(line: string, rest: string)
    requires line == "v." + rest
    ensures StartsWith(line, "v.") && !StartsWith(line, "Error: ")
  {
    StartsWithConcat("v.", rest);
    FirstCharDiffers(line, "Error: ");
  }

  lemma OtherLine(line: string)
    requires line != [] && line[0] != 'v' && line[0] != 'E'
    ensures !StartsWith(line, "v.") && !StartsWith(line, "Error: ")
  {
    FirstCharDiffers(line, "v.");
    FirstCharDiffers(line, "Error: ");
  }

  /** The status line ignores paths and files. */
  lemma RenderingIgnoresLocations(v: int, p: int, path1: string, path2: string, file1: FWFile, file2: FWFile)
    ensures StringRepresentation(DownloadingFromAPI(v, p, path1)) == StringRepresentation(DownloadingFromAPI(v, p, path2))
    ensures StringRepresentation(DownloadedFromAPI(v, path1)) == StringRepresentation(DownloadedFromAPI(v, path2))
    ensures StringRepresentation(StoredToFile(file1)) == StringRepresentation(StoredToFile(file2)) == "file stored"
    ensures StringRepresentation(UploadingToDevice(file1, p)) == StringRepresentation(UploadingToDevice(file2, p))
  {
  }

  predicate IsNumeral(c: char)
  {
    IsDigit(c) || c == '-'
  }

  /** The length of the run of digits and minus signs a string starts with. */
  function NumeralRun(s: string): nat
  {
    if s == [] || !IsNumeral(s[0]) then 0 else 1 + NumeralRun(s[1..])
  }

  lemma {:induction false} NumeralRunOfConcat(x: string, t: string)
    requires forall k :: 0 <= k < |x| ==> IsNumeral(x[k])
    requires |t| >= 1 && !IsNumeral(t[0])
    ensures NumeralRun(x + t) == |x|
  {
    if x != [] {
      assert (x + t)[1..] == x[1..] + t;
      NumeralRunOfConcat(x[1..], t);
    } else {
      assert x + t == t;
    }
  }

  /** In "<prefix><int><suffix>", where the suffix starts with neither a digit nor '-', the integer is recoverable. */
  lemma EmbeddedIntDetermined(prefix: string, i: int, j: int, suffix1: string, suffix2: string)
    requires |suffix1| >= 1 && |suffix2| >= 1
    requires !IsNumeral(suffix1[0]) && !IsNumeral(suffix2[0])
    requires prefix + IntToString(i) + suffix1 == prefix + IntToString(j) + suffix2
    ensures i == j && suffix1 == suffix2
  {
    var a, b := IntToString(i), IntToString(j);
    var s1, s2 := prefix + a + suffix1, prefix + b + suffix2;
    assert s1[|prefix|..] == a + suffix1;
    assert s2[|prefix|..] == b + suffix2;
    NumeralRunOfConcat(a, suffix1);
    NumeralRunOfConcat(b, suffix2);
    assert |a| == |b|;
    assert a == s1[|prefix|..|prefix| + |a|] == s2[|prefix|..|prefix| + |b|] == b;
    assert suffix1 == s1[|prefix| + |a|..] == s2[|prefix| + |b|..] == suffix2;
    IntToStringInjective(i, j);
  }

  /** The checking status line identifies the current version. */
  lemma CheckingRenderingDeterminesVersion(v1: int, v2: int)
    requires StringRepresentation(CheckingIfUpdateNeeded(v1)) == StringRepresentation(CheckingIfUpdateNeeded(v2))
    ensures v1 == v2
  {
    EmbeddedIntDetermined("v.", v1, v2, " checking for update...", " checking for update...");
  }

  /** The download status line identifies the version and the percentage, whatever the paths. */
  lemma DownloadingRenderingDeterminesProgress(v1: int, p1: int, path1: string, v2: int, p2: int, path2: string)
    requires StringRepresentation(DownloadingFromAPI(v1, p1, path1)) == StringRepresentation(DownloadingFromAPI(v2, p2, path2))
    ensures v1 == v2 && p1 == p2
  {
    var x := " API downloading: ";
    var tail1, tail2 := x + IntToString(p1) + "%", x + IntToString(p2) + "%";
    var a1, a2 := "v." + IntToString(v1), "v." + IntToString(v2);
    assert a1 + tail1 == StringRepresentation(DownloadingFromAPI(v1, p1, path1)) by {
      ConcatAssoc(a1 + x, IntToString(p1), "%");
      ConcatAssoc(a1, x, IntToString(p1) + "%");
      ConcatAssoc(x, IntToString(p1), "%");
    }
    assert a2 + tail2 == StringRepresentation(DownloadingFromAPI(v2, p2, path2)) by {
      ConcatAssoc(a2 + x, IntToString(p2), "%");
      ConcatAssoc(a2, x, IntToString(p2) + "%");
      ConcatAssoc(x, IntToString(p2), "%");
    }
    EmbeddedIntDetermined("v.", v1, v2, tail1, tail2);
    EmbeddedIntDetermined(x, p1, p2, "%", "%");
  }

  /** The downloaded status line identifies the version. */
  lemma DownloadedRenderingDeterminesVersion(v1: int, path1: string, v2: int, path2: string)
    requires StringRepresentation(DownloadedFromAPI(v1, path1)) == StringRepresentation(DownloadedFromAPI(v2, path2))
    ensures v1 == v2
  {
    EmbeddedIntDetermined("v.", v1, v2, " downloaded", " downloaded");
  }

  /** The upload status line identifies the percentage, whatever the files. */
  lemma UploadingRenderingDeterminesProgress(file1: FWFile, p1: int, file2: FWFile, p2: int)
    requires StringRepresentation(UploadingToDevice(file1, p1)) == StringRepresentation(UploadingToDevice(file2, p2))
    ensures p1 == p2
  {
    EmbeddedIntDetermined("uploading to device: ", p1, p2, "%", "%");
  }
}

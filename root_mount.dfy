/**
 * `_mount_root_vol`: mount the booted APFS volume writable at
 * /System/Volumes/Update/mnt1 unless it is already there, and check that it is.
 *
 * The outside world is an environment: the parsed output of `diskutil info -plist /`,
 * whether the marker directory exists, the status the `mount` command will report and
 * whether the marker exists once it has run. `Flow` says what one call does to it;
 * `Mounter.MountRootVol` does it step by step and is proved to agree.
 */
module RootMount {
  import opened Wrappers
  import opened Text
  import opened VolumeInfo
  import opened Executor

  const MountLocation: string := "/System/Volumes/Update/mnt1"
  /**
   * The marker path: it exists only when the real system tree is exposed at the
   * mount location. The `marker` field of `Mounter` stands for whether it exists.
   */
  const MarkerPath: string := MountLocation + "/System/Library/Extensions"
  /** The probe run by `check_if_root_is_apfs_snapshot` and again by `get_root_vol`. */
  const DiskutilInfoRoot: Argv := ["diskutil", "info", "-plist", "/"]

  /**
   * The command `_mount_root_vol` hands to `elevated` for the device `id`: `mount`
   * with the non-browsable option, the APFS type, the device node of `id` as source
   * and the auxiliary location as target.
   */
  function MountArgv(id: string): (argv: Argv)
    ensures |argv| == 7 && argv[0] == "mount"
    ensures argv[1..3] == ["-o", "nobrowse"] && argv[3..5] == ["-t", "apfs"]
    ensures argv[5] == "/dev/" + id && argv[6] == MountLocation
  {
    ["mount", "-o", "nobrowse", "-t", "apfs", "/dev/" + id, MountLocation]
  }

  /** Where one call of `_mount_root_vol` ends; each phase determines the sequence of messages printed. */
  datatype Phase =
    | Raised(error: PyError)    // an exception escapes from a probe
    | NotADisk                  // the identifier does not start with "disk"
    | AlreadyMounted            // the marker was there before anything was mounted
    | NotSnapshotBacked         // the APFSSnapshot flag is not `True`
    | MountRejected(status: int)// mount exited non-zero; its output is printed
    | UnmountedUnexpectedly     // mount exited 0 but the marker is not there
    | Verified                  // mount exited 0 and the marker is there

  /** The phases in which the privileged mount command has been issued. */
  predicate Mounted(p: Phase) {
    p.MountRejected? || p.UnmountedUnexpectedly? || p.Verified?
  }

  /** What one call of `_mount_root_vol` produces: its phase, the commands it issued, and the marker afterwards. */
  datatype Run = Run(phase: Phase, issued: seq<Argv>, marker: bool)

  /** Python's return value: a boolean, or `None` when the function falls off its end. */
  datatype PyReturn = PyBool(b: bool) | PyNone

  /**
   * The value `_mount_root_vol` returns AS WRITTEN. Its final `return False` is indented
   * under the `startswith("disk")` test, so an identifier without that prefix reaches
   * the end of the function and `None` is returned.
   */
  function AsWrittenReturn(p: Phase): (r: Result<PyReturn, PyError>)
    ensures r.Failure? <==> p.Raised?
    ensures r == Success(PyNone) <==> p == NotADisk
    ensures r == Success(PyBool(true)) <==> p == AlreadyMounted || p == Verified
  {
    match p
    case Raised(e) => Failure(e)
    case NotADisk => Success(PyNone)
    case AlreadyMounted => Success(PyBool(true))
    case Verified => Success(PyBool(true))
    case _ => Success(PyBool(false))
  }

  /**
   * The value `_mount_root_vol` returns as its `-> bool` annotation and docstring
   * promise: `True` on success, `False` on every other normal return.
   */
  function Returned(p: Phase): (r: Result<bool, PyError>)
    ensures r.Failure? <==> p.Raised?
    ensures r == Success(true) <==> p == AlreadyMounted || p == Verified
  {
    match p
    case Raised(e) => Failure(e)
    case AlreadyMounted => Success(true)
    case Verified => Success(true)
    case _ => Success(false)
  }

  /** The two differ only where the function falls off its end. */
  lemma AsWrittenDiffersOnlyOnNotADisk(p: Phase)
    ensures p != NotADisk ==> AsWrittenReturn(p) == (match Returned(p)
      case Success(b) => Success(PyBool(b))
      case Failure(e) => Failure(e))
    ensures p == NotADisk ==> AsWrittenReturn(p) == Success(PyNone) && Returned(p) == Success(false)
  {
  }

  /**
   * A root volume whose identifier does not start with "disk" (here "nvme0") makes
   * `_mount_root_vol` return `None`, which is not a `bool`, where `False` was meant.
   */
  lemma NonDiskReturnsNone()
    ensures var run := Flow(501, Some(map[DeviceIdentifierKey := PString("nvme0")]), false, 0, false);
      && run.phase == NotADisk
      && AsWrittenReturn(run.phase) == Success(PyNone)
      && Returned(run.phase) == Success(false)
  {
  }

  /**
   * As written, `_mount_root_vol` returns `None` exactly when the probes succeed
   * and the identifier does not start with "disk"; every other normal return is a
   * boolean.
   */
  lemma AsWrittenNoneIff(uid: nat, probe: Option<PlistDict>, marker: bool, status: int, markerAfter: bool)
    ensures AsWrittenReturn(Flow(uid, probe, marker, status, markerAfter).phase) == Success(PyNone) <==>
      probe.Some? && RootVolume(probe.value).Success? && !StartsWith(RootVolume(probe.value).value, "disk")
  {
  }

  /**
   * One call of `_mount_root_vol` in the environment (`uid`, `probe`, `marker`,
   * `status`, `markerAfter`); `probe` is `None` when the property list does not parse.
   *
   * It succeeds exactly when the identifier starts with "disk" and either the marker
   * was already there or the flag is `True`, the mount exits 0 and the marker is then
   * there. It raises exactly when a probe does. It issues the diskutil probe once or
   * twice and then at most one more command, the elevated mount of "/dev/" + id,
   * and only when the identifier starts with "disk", the marker was absent and the
   * flag is `True`. Only that mount can change the marker.
   */
  function Flow(uid: nat, probe: Option<PlistDict>, marker: bool, status: int, markerAfter: bool): (run: Run)
    ensures Returned(run.phase).Failure? <==> probe.None? || RootVolume(probe.value).Failure?
    ensures Returned(run.phase) == Success(true) <==>
      && probe.Some? && RootVolume(probe.value).Success?
      && StartsWith(RootVolume(probe.value).value, "disk")
      && (marker || (IsTrue(SnapshotFlag(probe.value)) && status == 0 && markerAfter))
    ensures Mounted(run.phase) <==>
      && probe.Some? && RootVolume(probe.value).Success?
      && StartsWith(RootVolume(probe.value).value, "disk")
      && !marker && IsTrue(SnapshotFlag(probe.value))
    ensures !Mounted(run.phase) ==>
      run.issued == (if probe.None? then [DiskutilInfoRoot] else [DiskutilInfoRoot, DiskutilInfoRoot])
    ensures Mounted(run.phase) ==>
      run.issued == [DiskutilInfoRoot, DiskutilInfoRoot, Elevated(uid, MountArgv(RootVolume(probe.value).value))]
    ensures run.marker == if Mounted(run.phase) then markerAfter else marker
    ensures run.phase == NotADisk <==>
      probe.Some? && RootVolume(probe.value).Success? && !StartsWith(RootVolume(probe.value).value, "disk")
    ensures Mounted(run.phase) ==>
      run.phase == (if status != 0 then MountRejected(status) else if markerAfter then Verified else UnmountedUnexpectedly)
  {
    match probe
    case None => Run(Raised(PlistParseError), [DiskutilInfoRoot], marker)
    case Some(info) =>
      var flag := SnapshotFlag(info);
      var probed := [DiskutilInfoRoot, DiskutilInfoRoot];
      match RootVolume(info)
      case Failure(e) => Run(Raised(e), probed, marker)
      case Success(id) =>
        if !StartsWith(id, "disk") then Run(NotADisk, probed, marker)
        else if marker then Run(AlreadyMounted, probed, marker)
        else if !IsTrue(flag) then Run(NotSnapshotBacked, probed, marker)
        else
          var issued := probed + [Elevated(uid, MountArgv(id))];
          if status != 0 then Run(MountRejected(status), issued, markerAfter)
          else if markerAfter then Run(Verified, issued, markerAfter)
          else Run(UnmountedUnexpectedly, issued, markerAfter)
  }

  /**
   * Idempotence: after a call that returned `True`, the marker is there, so a second
   * call in the same system (whatever mount would now report) returns `True` from the
   * short-circuit and issues nothing but the two diskutil probes.
   */
  lemma SecondCallIsNoOp(uid: nat, probe: Option<PlistDict>, marker: bool, status: int, markerAfter: bool,
                         uid': nat, status': int, markerAfter': bool)
    requires Returned(Flow(uid, probe, marker, status, markerAfter).phase) == Success(true)
    ensures var second := Flow(uid', probe, Flow(uid, probe, marker, status, markerAfter).marker, status', markerAfter');
      && second.phase == AlreadyMounted
      && second.issued == [DiskutilInfoRoot, DiskutilInfoRoot]
      && second.marker
  {
  }

  /**
   * A verification failure is told apart from a rejected mount: exit status 0 with
   * the marker absent afterwards ends in `UnmountedUnexpectedly` and returns `False`;
   * a non-zero status ends in `MountRejected` and returns `False` whatever the marker.
   */
  lemma MountWithoutMarkerIsNotSuccess(uid: nat, info: PlistDict, status: int, markerAfter: bool)
    requires RootVolume(info).Success? && StartsWith(RootVolume(info).value, "disk")
    requires IsTrue(SnapshotFlag(info))
    ensures Flow(uid, Some(info), false, 0, false).phase == UnmountedUnexpectedly
    ensures status != 0 ==> Flow(uid, Some(info), false, status, markerAfter).phase == MountRejected(status)
    ensures status != 0 ==> Returned(Flow(uid, Some(info), false, status, markerAfter).phase) == Success(false)
    ensures Returned(Flow(uid, Some(info), false, 0, false).phase) == Success(false)
  {
  }

  /**
   * The environment of one call: the user id, the probe output, the marker directory
   * and the scripted behaviour of the mount command; `log` records every command
   * issued, in order.
   */
  class Mounter {
    const uid: nat
    const probe: Option<PlistDict>
    var marker: bool
    const mountStatus: int
    const markerAfterMount: bool
    var log: seq<Argv>

    constructor (uid: nat, probe: Option<PlistDict>, marker: bool, mountStatus: int, markerAfterMount: bool)
      ensures this.uid == uid && this.probe == probe && this.marker == marker
      ensures this.mountStatus == mountStatus && this.markerAfterMount == markerAfterMount
      ensures log == []
    {
      this.uid := uid;
      this.probe := probe;
      this.marker := marker;
      this.mountStatus := mountStatus;
      this.markerAfterMount := markerAfterMount;
      log := [];
    }

    /** `diskutil info -plist /` and `plistlib.loads` of its output. */
    method DescribeRoot() returns (info: Result<PlistDict, PyError>)
      modifies this`log
      ensures log == old(log) + [DiskutilInfoRoot]
      ensures info == if probe.None? then Failure(PlistParseError) else Success(probe.value)
    {
      log := log + [DiskutilInfoRoot];
      if probe.None? {
        info := Failure(PlistParseError);
      } else {
        info := Success(probe.value);
      }
    }

    /** `check_if_root_is_apfs_snapshot()`. */
    method CheckIfRootIsApfsSnapshot() returns (flag: Result<PlistValue, PyError>)
      modifies this`log
      ensures log == old(log) + [DiskutilInfoRoot]
      ensures flag == if probe.None? then Failure(PlistParseError) else Success(SnapshotFlag(probe.value))
    {
      var info := DescribeRoot();
      if info.Failure? {
        return Failure(info.error);
      }
      flag := Success(SnapshotFlag(info.value));
    }

    /** `get_root_vol()`. */
    method GetRootVol() returns (id: Result<string, PyError>)
      modifies this`log
      ensures log == old(log) + [DiskutilInfoRoot]
      ensures id == if probe.None? then Failure(PlistParseError) else RootVolume(probe.value)
    {
      var info := DescribeRoot();
      if info.Failure? {
        return Failure(info.error);
      }
      id := RootVolume(info.value);
    }

    /** `Path(MarkerPath).exists()`. */
    method MarkerExists() returns (present: bool)
      ensures present == marker
    {
      present := marker;
    }

    /** `elevated(MountArgv(id), ...)`: issue the mount and read its exit status. */
    method Mount(id: string) returns (status: int)
      modifies this`log, this`marker
      ensures log == old(log) + [Elevated(uid, MountArgv(id))]
      ensures status == mountStatus && marker == markerAfterMount
    {
      log := log + [Elevated(uid, MountArgv(id))];
      marker := markerAfterMount;
      status := mountStatus;
    }

    /**
     * `_mount_root_vol()`: ends in the phase `Flow` gives, returns the corrected
     * boolean for it, appends exactly the commands `Flow` issues to the log and leaves
     * the marker as `Flow` says.
     */
    method MountRootVol() returns (phase: Phase, ok: Result<bool, PyError>)
      modifies this`log, this`marker
      ensures phase == Flow(uid, probe, old(marker), mountStatus, markerAfterMount).phase
      ensures ok == Returned(phase)
      ensures log == old(log) + Flow(uid, probe, old(marker), mountStatus, markerAfterMount).issued
      ensures marker == Flow(uid, probe, old(marker), mountStatus, markerAfterMount).marker
    {
      var flag := CheckIfRootIsApfsSnapshot();
      if flag.Failure? {
        phase := Raised(flag.error);
        return phase, Returned(phase);
      }
      var root := GetRootVol();
      if root.Failure? {
        phase := Raised(root.error);
        return phase, Returned(phase);
      }
      var id := root.value;
      if !StartsWith(id, "disk") {
        phase := NotADisk;
        return phase, Returned(phase);
      }
      var present := MarkerExists();
      if present {
        phase := AlreadyMounted;
      } else if !IsTrue(flag.value) {
        phase := NotSnapshotBacked;
      } else {
        var status := Mount(id);
        if status != 0 {
          phase := MountRejected(status);
        } else {
          present := MarkerExists();
          phase := if present then Verified else UnmountedUnexpectedly;
        }
      }
      ok := Returned(phase);
    }
  }
}

# macOS Snapshot Manager — a Dafny model of its decision logic

`snapshot_tool.py` is a command-line script. It lists, creates and deletes local
Time Machine snapshots with `tmutil`. It can also mount the booted APFS system
volume writable at `/System/Volumes/Update/mnt1`. Most of the script only calls
`tmutil`, `diskutil`, `mount` and `sudo`. This project models the decisions made
between those calls, with the outside world supplied as inputs:

- `wrappers.dfy` (`Wrappers`): `Option` (Python's `None`) and `Result` (a return
  value or a raised exception).
- `text.dfy` (`Text`): the Python `str` operations the script depends on.
  These are `count`, `startswith`, `strip()`, `split` and `join`. `count`,
  `split` and `join` are recursive; `startswith` compares a slice, and `strip()`
  slices around two recursive whitespace scans. Each is tied to a reference
  meaning: multiset multiplicity for `count`, pointwise comparison for
  `startswith`, the split/join round trip in both directions, and for `strip()`
  its own contract (the slice after the leading whitespace, followed only by
  whitespace, neither starting nor ending with whitespace).
- `volume_info.dfy` (`VolumeInfo`): reading the parsed `diskutil info -plist /`
  property list.
  - `get_root_vol` returns `DeviceIdentifier`. When the identifier holds more than
    one `s` (the `s` of `disk` counts), the last two characters are dropped.
  - `check_if_root_is_apfs_snapshot` returns `APFSSnapshot`, or `False` when the
    key is absent.
- `executor.dfy` (`Executor`): `elevated`, which runs a command as it is for uid 0
  and prefixes it with `sudo` otherwise.
- `snapshots.dfy` (`Snapshots`): the three `tmutil` command vectors, and how
  `list_snapshots` turns `tmutil`'s exit status and output into its result.
- `root_mount.dfy` (`RootMount`): `_mount_root_vol`.
  - `Flow` is a pure specification of one call. Given the environment, it gives
    the phase the call ends in, the commands it issues and the marker afterwards.
    The environment is the user id, the parsed probe, whether
    `/System/Volumes/Update/mnt1/System/Library/Extensions` exists, the status
    `mount` reports, and whether the marker exists after the mount.
  - The class `Mounter` holds that environment and a log of issued commands.
    Its method `MountRootVol` goes through the source's steps in order and is
    proved to agree with `Flow`.
- `cli.dfy` (`Cli`): the action dispatch, including the guard that rejects
  `delete` without a non-empty `--id` before `tmutil` is called.

The `mount` argument `f"/dev/{ root_mount_path}"` spans a line inside the braces.
Python 3.12 and later accept this, and it evaluates to `"/dev/" + id`. The
condition `os.getuid() == 0 != None` is a chained comparison, so it holds exactly
when the uid is 0.

The source and its usual reading disagree in one place: `_mount_root_vol` does not
return `False` for an identifier that does not start with `disk`. The final
`return False` is indented under that test, so the function falls off its end and
returns `None`. The model records this as written (`AsWrittenReturn`). It then uses
the boolean the annotation and docstring promise (`Returned`). See "## Findings".

## Model

| member | source | states |
|---|---|---|
| `Text.StartsWith` | snapshot_tool.py:111 | `startswith` holds iff the prefix is no longer than the string and agrees with it character by character |
| `Text.IsSpace` | snapshot_tool.py:16 | the whitespace `strip()` removes includes space, tab, newline and carriage return, and never an ASCII letter, digit, `.` or `-` |
| `Text.Count` | snapshot_tool.py:68 | `id.count("s")` never exceeds the length of the identifier |
| `Text.CountIsMultiplicity` | snapshot_tool.py:68 | the recursive count equals the multiplicity of the character in the string's multiset |
| `Text.CountAppend` | snapshot_tool.py:68 | the count of a concatenation is the sum of the counts |
| `Text.Strip` | snapshot_tool.py:16 | `strip()` gives the slice after the leading whitespace; only whitespace follows it; it neither starts nor ends with whitespace |
| `Text.StripIdempotent` | snapshot_tool.py:16 | stripping a stripped string changes nothing |
| `Text.Split` | snapshot_tool.py:16 | `split("\n")` gives one more piece than there are newlines, so never an empty list; no piece contains a newline |
| `Text.JoinSplit` | snapshot_tool.py:16 | joining the pieces with the separator gives back the string that was split |
| `Text.SplitJoin` | snapshot_tool.py:16 | splitting a join of a non-empty list of separator-free pieces gives back the pieces |
| `VolumeInfo.Normalise` | snapshot_tool.py:66-69 | the result is a prefix of the identifier; it is two characters shorter iff the identifier has more than one `s`, and otherwise equal to it |
| `VolumeInfo.DropsLastSlice` | snapshot_tool.py:66-69 | an identifier `base + "s" + d` with an `s` in `base` normalises to `base` |
| `VolumeInfo.KeepsSingleS` | snapshot_tool.py:66-69 | an identifier with at most one `s` is returned unchanged |
| `VolumeInfo.NormaliseExamples` | snapshot_tool.py:66-69 | `disk3s1s1` → `disk3s1`, `disk3s1` → `disk3`, `disk3` → `disk3`, and the two-digit slice `disk3s1s10` → `disk3s1s` |
| `VolumeInfo.RootVolume` | snapshot_tool.py:65-70 | a missing `DeviceIdentifier` raises `KeyError`; success iff the key holds a string (every non-string is taken to raise, see "## Left out"); the result is `Normalise` of that string |
| `VolumeInfo.SnapshotFlag` | snapshot_tool.py:85-89 | the `APFSSnapshot` value when present, whatever its type; `False` (not an error) when absent |
| `VolumeInfo.IsTrue` | snapshot_tool.py:117 | `is True` holds exactly for the boolean `True`, not for `1` or the string `"True"` |
| `VolumeInfo.SnapshotFlagTrue` | snapshot_tool.py:117 | the flag is `True` (Python `is True`) iff the key is present and holds the boolean `True` |
| `Executor.Elevated` | snapshot_tool.py:49-53 | uid 0 runs the argv unchanged; any other uid runs `"sudo"` followed by the unchanged argv, one element longer |
| `Snapshots.ListArgv` | snapshot_tool.py:11 | `list_snapshots` runs `tmutil listlocalsnapshots <volume>` |
| `Snapshots.CreateArgv` | snapshot_tool.py:26 | `create_snapshot` runs `tmutil localsnapshot <volume>` |
| `Snapshots.DeleteArgv` | snapshot_tool.py:39 | `delete_snapshot` runs `tmutil deletelocalsnapshots <id>` |
| `Snapshots.ListSnapshots` | snapshot_tool.py:8-20 | `None` iff the exit status is non-zero; otherwise a non-empty list of newline-free lines that join back to the stripped output |
| `Snapshots.EmptyOutputListsOneEmptyLine` | snapshot_tool.py:16 | empty or all-whitespace output lists as `[""]`, not as an empty list |
| `RootMount.MountArgv` | snapshot_tool.py:119-120 | the mount vector: `mount`, option `-o nobrowse`, type `-t apfs`, source `/dev/<id>`, target `/System/Volumes/Update/mnt1` |
| `RootMount.AsWrittenReturn` | snapshot_tool.py:111-133 | the value as written: raises iff a probe raised; `None` exactly for a non-`disk` identifier; `True` exactly when already mounted or verified |
| `RootMount.Returned` | snapshot_tool.py:92-102 | the intended result: failure iff an exception escaped; `True` iff the call ended already mounted or verified; `False` otherwise |
| `RootMount.AsWrittenDiffersOnlyOnNotADisk` | snapshot_tool.py:111-133 | the as-written value equals the intended boolean in every phase except a non-`disk` identifier, where it is `None` instead of `False` |
| `RootMount.AsWrittenNoneIff` | snapshot_tool.py:111-133 | as written, the call returns `None` iff the probes succeed and the identifier does not start with `disk` |
| `RootMount.NonDiskReturnsNone` | snapshot_tool.py:111-133 | with device identifier `nvme0`, the call as written returns `None` where `False` is intended |
| `RootMount.Flow` | snapshot_tool.py:104-133 | returns `True` iff the identifier starts with `disk` and either the marker existed or (flag is `True`, mount status 0, marker present after); raises iff a probe raises; issues the mount iff prefix ok, marker absent and flag `True`; otherwise only the diskutil probes are issued; at most one mount, exactly the elevated `mount -o nobrowse -t apfs /dev/<id> /System/Volumes/Update/mnt1`; only the mount can change the marker; the call ends in `NotADisk` iff the probes succeed and the identifier does not start with `disk`; a mount ends rejected on a non-zero status, verified on status 0 with the marker, unmounted-unexpectedly otherwise |
| `RootMount.SecondCallIsNoOp` | snapshot_tool.py:113-115 | after a call that returned `True`, a second call short-circuits to already-mounted, returns `True` and issues only the two diskutil probes |
| `RootMount.MountWithoutMarkerIsNotSuccess` | snapshot_tool.py:119-130 | status 0 without the marker ends as "unmounted unexpectedly" and returns `False`; a non-zero status ends as a rejected mount and returns `False`, whatever the marker is afterwards |
| `RootMount.Mounter.DescribeRoot` | snapshot_tool.py:58-64 | logs one `diskutil info -plist /` and yields the parsed dictionary, or a parse error |
| `RootMount.Mounter.CheckIfRootIsApfsSnapshot` | snapshot_tool.py:77-89 | logs one diskutil probe and yields the snapshot flag of the parsed dictionary |
| `RootMount.Mounter.GetRootVol` | snapshot_tool.py:56-70 | logs one diskutil probe and yields the normalised device identifier, or the exception raised |
| `RootMount.Mounter.MarkerExists` | snapshot_tool.py:113 | reports the current state of the marker directory |
| `RootMount.Mounter.Mount` | snapshot_tool.py:119-121 | logs exactly the elevated mount command and yields the status the environment reports; the marker becomes what the environment says follows the mount |
| `RootMount.Mounter.MountRootVol` | snapshot_tool.py:92-133 | ends in the phase `Flow` gives, returns its boolean, appends exactly `Flow`'s commands to the log and leaves the marker as `Flow` says |
| `Cli.Dispatch` | snapshot_tool.py:156-174 | usage error iff the action is `delete` with a missing or empty id; `delete` with an id runs `tmutil deletelocalsnapshots <id>`; `list` and `create` run `tmutil` on the volume; `get-root-vol` reports the root volume and `mount-root-vol` mounts it |
| `Cli.HasId` | snapshot_tool.py:166 | `not args.id` holds exactly for a missing id (`None`) and the empty string |

## Left out

- Process execution is not modelled. This covers `subprocess.run`, the `sudo`
  password prompt, and what `tmutil`, `diskutil` and `mount` actually do. Their
  results are inputs. Their invocations appear as entries in `Mounter.log` or in
  a `Cli.Plan`.
- Property-list parsing (`plistlib.loads`) is a foreign library. The probe is
  given as the parsed dictionary, or as `None` when parsing fails.
- Each call to `diskutil` reparses the volume information. `Mounter` has one
  `probe` field, so both probes in `_mount_root_vol` read the same dictionary.
  A volume that changes between the two probes is not modelled.
- `Path(...).exists()` is a filesystem query. It is modelled as the `marker`
  field. The mount sets that field to the environment's `markerAfterMount`,
  whatever status it reports.
- VolumeInfo.RootVolume: every `DeviceIdentifier` that is not a string is taken
  to raise inside `get_root_vol`. That is what happens for numbers, booleans,
  data and dictionaries. A property-list array becomes a Python list, which
  supports `count("s")` and `[:-2]`, so `get_root_vol` returns it and only the
  `startswith` in `_mount_root_vol` raises. Inside `_mount_root_vol` the outcome
  is the same: an exception after both probes. What the `get-root-vol` action
  would print for such a list is not modelled.
- The `except subprocess.CalledProcessError` in `get_root_vol` is not modelled.
  It can never run, because that `subprocess.run` call has no `check=True`.
- `argparse` setup and help text are not modelled. Neither is any `print`
  output: the messages of `_mount_root_vol`, the mount's diagnostic output, the
  listing loop, and the "created" and "deleted" messages. The `Phase` of a mount
  call stands for which message it prints.
- `create_snapshot` and `delete_snapshot` have no logic of their own. Only the
  commands they run are modelled. Their outcomes belong to `tmutil`, so the
  create-then-list round trip is not stated.
- Output decoding is not modelled. That includes `text=True`'s universal-newline
  translation of `tmutil`'s output and the `.decode()` calls. Output is taken as
  already decoded text.
- An exception raised when an external tool cannot be started is not modelled
  (for example `FileNotFoundError`).
- Executor.Elevated: requires a non-empty argv. The source reads `args[0][0]`,
  and its only caller passes the seven-element mount command.

## Findings

| source | as written | input that shows it | evidently intended | confidence | as-written member | corrected member |
|---|---|---|---|---|---|---|
| snapshot_tool.py:111-133 | the final `return False` is indented under `if root_mount_path.startswith("disk"):`, so a non-`disk` identifier falls off the end and `None` is returned | a probe whose `DeviceIdentifier` is `"nvme0"` | `False`, as the `-> bool` annotation and the docstring ("True if successful, False if not") say | medium; not executed | `RootMount.NonDiskReturnsNone` (over `RootMount.AsWrittenReturn`) | `RootMount.Returned` (used by `Mounter.MountRootVol`; `Flow` proves it is `True` or `False` on every normal return) |

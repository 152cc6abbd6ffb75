/** The `tmutil` pass-through operations: the commands they run and how `list` reads its output. */
module Snapshots {
  import opened Wrappers
  import opened Text
  import opened Executor

  /** `list_snapshots(volume)` runs this. */
  function ListArgv(volume: string): (argv: Argv)
    ensures |argv| == 3 && argv[0] == "tmutil" && argv[1] == "listlocalsnapshots" && argv[2] == volume
  {
    ["tmutil", "listlocalsnapshots", volume]
  }

  /** `create_snapshot(volume)` runs this. */
  function CreateArgv(volume: string): (argv: Argv)
    ensures |argv| == 3 && argv[0] == "tmutil" && argv[1] == "localsnapshot" && argv[2] == volume
  {
    ["tmutil", "localsnapshot", volume]
  }

  /** `delete_snapshot(snapshot_id)` runs this. */
  function DeleteArgv(snapshotId: string): (argv: Argv)
    ensures |argv| == 3 && argv[0] == "tmutil" && argv[1] == "deletelocalsnapshots" && argv[2] == snapshotId
  {
    ["tmutil", "deletelocalsnapshots", snapshotId]
  }

  /**
   * What `list_snapshots` returns, given the exit status and standard output of
   * `tmutil listlocalsnapshots`: `None` when the status is non-zero (`check=True`
   * raises `CalledProcessError`, which is caught), otherwise the stripped output
   * split on newlines. That list is never empty, no line holds a newline, and
   * joining it with newlines gives back the stripped output.
   */
  function ListSnapshots(status: int, stdout: string): (r: Option<seq<string>>)
    ensures r.None? <==> status != 0
    ensures r.Some? ==> |r.value| >= 1
    ensures r.Some? ==> forall line | line in r.value :: '\n' !in line
    ensures r.Some? ==> Join(r.value, '\n') == Strip(stdout)
  {
    if status != 0 then None
    else
      JoinSplit(Strip(stdout), '\n');
      Some(Split(Strip(stdout), '\n'))
  }

  /** Output that is empty or only whitespace lists as one empty line, not as no lines. */
  lemma EmptyOutputListsOneEmptyLine(stdout: string)
    requires forall k :: 0 <= k < |stdout| ==> IsSpace(stdout[k])
    ensures ListSnapshots(0, stdout) == Some([""])
  {
  }
}

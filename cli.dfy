/**
 * The action dispatch at the bottom of snapshot_tool.py: which external command
 * each action leads to, and the guard that refuses `delete` without an identifier
 * before `tmutil` is reached.
 */
module Cli {
  import opened Wrappers
  import opened Executor
  import opened Snapshots

  /** The five choices of the `action` argument. */
  datatype Action = List | Create | Delete | GetRootVol | MountRootVol

  /** Parsed command line: `--volume` defaults to "/", `--id` is optional. */
  datatype Args = Args(action: Action, volume: string, id: Option<string>)

  /** Python truthiness of `args.id`: neither `None` nor the empty string. */
  predicate HasId(id: Option<string>)
    ensures !HasId(id) <==> id == None || id == Some("")
  {
    id.Some? && id.value != ""
  }

  /** What the dispatch does next. */
  datatype Plan =
    | UsageError           // `parser.error`: usage message and exit status 2
    | RunTmutil(argv: Argv)
    | ReportRootVolume     // `get_root_vol()` and print it when truthy
    | MountRoot            // `_mount_root_vol()`

  /**
   * The branch the dispatch takes. The only usage error is `delete` without a
   * non-empty `--id`; `delete` with one runs `tmutil deletelocalsnapshots` on exactly
   * that identifier, and `list` and `create` run `tmutil` on the volume.
   */
  function Dispatch(args: Args): (plan: Plan)
    ensures plan.UsageError? <==> args.action == Delete && !HasId(args.id)
    ensures plan.RunTmutil? <==> args.action in {List, Create} || (args.action == Delete && HasId(args.id))
    ensures plan.RunTmutil? ==> |plan.argv| == 3 && plan.argv[0] == "tmutil"
    ensures args.action == Delete && plan.RunTmutil? ==>
      args.id.value != "" && plan.argv == ["tmutil", "deletelocalsnapshots", args.id.value]
    ensures args.action == List ==> plan == RunTmutil(["tmutil", "listlocalsnapshots", args.volume])
    ensures args.action == Create ==> plan == RunTmutil(["tmutil", "localsnapshot", args.volume])
    ensures args.action == GetRootVol ==> plan == ReportRootVolume
    ensures args.action == MountRootVol ==> plan == MountRoot
  {
    match args.action
    case List => RunTmutil(ListArgv(args.volume))
    case Create => RunTmutil(CreateArgv(args.volume))
    case Delete => if !HasId(args.id) then UsageError else RunTmutil(DeleteArgv(args.id.value))
    case GetRootVol => ReportRootVolume
    case MountRootVol => MountRoot
  }
}

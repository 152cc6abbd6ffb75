/** `elevated`: how a command vector is run with root privileges. */
module Executor {

  /** A command vector as passed to `subprocess.run`. */
  type Argv = seq<string>

  /**
   * The vector actually executed by `elevated(argv)` for a process whose user id is
   * `uid`. The condition `os.getuid() == 0 != None` is a chained comparison, that is
   * `uid == 0 and 0 != None`, so it holds exactly when `uid == 0`; the command then
   * runs as it is. Otherwise "sudo" is put in front of it and nothing else changes.
   * The command must not be empty: `args[0][0]` is read.
   */
  function Elevated(uid: nat, argv: Argv): (run: Argv)
    requires |argv| > 0
    ensures uid == 0 ==> run == argv
    ensures uid != 0 ==> |run| == |argv| + 1 && run[0] == "sudo" && run[1..] == argv
  {
    if uid == 0 then argv else ["sudo"] + [argv[0]] + argv[1..]
  }
}

/** What the program reads before any work starts: the ffmpeg path from the
    configuration file's lines, and the command line (help request, usage
    check, thread count with its fallbacks, and the trailing flags). The
    file and the process environment are inputs here. */
module Settings {
  import opened Strings

  datatype Option<T> = None | Some(value: T)

  /** The configuration key, with its '='. */
  const ConfigKey: string := "ffmpeg_path="

  /** The prefix of the loudness flag. */
  const TargetKey: string := "--target="

  /** readFfmpegPathFromConfig over the file's lines: the text after the key
      on the first line that starts with it, or "" when none does (a missing
      file has no lines). Later matching lines are never looked at. */
  method ReadFfmpegPath(lines: seq<string>) returns (path: string)
    ensures (forall i :: 0 <= i < |lines| ==> !StartsWith(lines[i], ConfigKey)) ==> path == ""
    ensures forall i ::
      (0 <= i < |lines| && StartsWith(lines[i], ConfigKey) &&
       forall j :: 0 <= j < i ==> !StartsWith(lines[j], ConfigKey)) ==>
      path == lines[i][|ConfigKey|..]
  {
    assert |ConfigKey| == 12;
    var n := 0;
    while n < |lines|
      invariant 0 <= n <= |lines|
      invariant forall j :: 0 <= j < n ==> !StartsWith(lines[j], ConfigKey)
    {
      var line := lines[n];
      if StartsWith(line, ConfigKey) {
        return line[12..];
      }
      n := n + 1;
    }
    return "";
  }

  /** An unsigned 32-bit value converted to a signed 32-bit int. */
  function ToInt32(u: nat): (i: int)
    requires u < 0x1_0000_0000
    ensures -0x8000_0000 <= i < 0x8000_0000
    ensures i == u || i == u - 0x1_0000_0000
  {
    if u < 0x8000_0000 then u else u - 0x1_0000_0000
  }

  /** The worker count: 4 without a third argument; otherwise the value read
      from it, replaced by the hardware concurrency (an unsigned value stored
      in an int) when not positive, and by 4 when that is not positive
      either. */
  function ResolveThreads(arg: Option<int>, hardware: nat): (n: int)
    requires hardware < 0x1_0000_0000
  {
    match arg
    case None => 4
    case Some(v) =>
      if v > 0 then v
      else
        var h := ToInt32(hardware);
        if h > 0 then h else 4
  }

  /** The worker count is always positive; an explicit positive count is
      kept, and otherwise the result is the hardware concurrency when that is
      positive as an int, and 4 when not. */
  lemma ResolveThreadsPositive(arg: Option<int>, hardware: nat)
    requires hardware < 0x1_0000_0000
    ensures ResolveThreads(arg, hardware) > 0
    ensures arg.Some? && arg.value > 0 ==> ResolveThreads(arg, hardware) == arg.value
    ensures arg.Some? && arg.value <= 0 ==>
      ResolveThreads(arg, hardware) == if 0 < hardware < 0x8000_0000 then hardware else 4
    ensures arg.None? ==> ResolveThreads(arg, hardware) == 4
  {
  }

  /** The flag loop from the fifth argument on: `--force` sets the force
      flag, and each argument starting with `--target=` replaces the target
      text with what follows the prefix, so the last one wins. Earlier
      arguments are never looked at. */
  method ScanFlags(args: seq<string>) returns (force: bool, target: Option<string>)
    ensures force <==> exists i :: 4 <= i < |args| && args[i] == "--force"
    ensures target.None? <==> forall i :: 4 <= i < |args| ==> !StartsWith(args[i], TargetKey)
    ensures target.Some? ==> exists i ::
      && 4 <= i < |args| && StartsWith(args[i], TargetKey)
      && target.value == args[i][|TargetKey|..]
      && forall j :: i < j < |args| ==> !StartsWith(args[j], TargetKey)
  {
    assert |TargetKey| == 9;
    force, target := false, None;
    ghost var at := 0;
    var i := 4;
    while i < |args|
      invariant 4 <= i || |args| <= i
      invariant force <==> exists j :: 4 <= j < i && j < |args| && args[j] == "--force"
      invariant target.None? <==> forall j :: 4 <= j < i && j < |args| ==> !StartsWith(args[j], TargetKey)
      invariant target.Some? ==>
        && 4 <= at < i && at < |args| && StartsWith(args[at], TargetKey)
        && target.value == args[at][9..]
        && forall j :: at < j < i && j < |args| ==> !StartsWith(args[j], TargetKey)
    {
      var arg := args[i];
      if arg == "--force" {
        force := true;
        assert !StartsWith(arg, TargetKey) by {
          assert arg[2] == 'f';
        }
      } else if StartsWith(arg, TargetKey) {
        target := Some(arg[9..]);
        at := i;
      }
      i := i + 1;
    }
  }

  /** The help loop: some argument after the program name is `--help` or
      `/?`. */
  method HelpRequested(args: seq<string>) returns (help: bool)
    ensures help <==> exists i :: 1 <= i < |args| && (args[i] == "--help" || args[i] == "/?")
  {
    var i := 1;
    while i < |args|
      invariant 1 <= i || |args| <= i
      invariant forall j :: 1 <= j < i && j < |args| ==> args[j] != "--help" && args[j] != "/?"
    {
      if args[i] == "--help" || args[i] == "/?" {
        return true;
      }
      i := i + 1;
    }
    return false;
  }

  /** How the command line ends up: the help text (exit 0), the usage line
      (exit 1), or a run with its settings. */
  datatype Invocation =
    | Help
    | Usage
    | Start(inputDir: string, outputDir: string, threads: int, force: bool, target: Option<string>)

  /** wmain's argument handling: help first, then at least two directories,
      then the thread count and the flags. `threadValue` is what std::stoi
      reads from the third argument when there is one, and `hardware` the
      hardware concurrency. */
  method ParseCommandLine(args: seq<string>, threadValue: int, hardware: nat) returns (inv: Invocation)
    requires hardware < 0x1_0000_0000
    ensures inv == Help <==> exists i :: 1 <= i < |args| && (args[i] == "--help" || args[i] == "/?")
    ensures inv == Usage <==> inv != Help && |args| < 3
    ensures inv.Start? ==>
      && inv.inputDir == args[1] && inv.outputDir == args[2]
      && inv.threads == ResolveThreads(if |args| >= 4 then Some(threadValue) else None, hardware)
      && inv.threads > 0
      && (inv.force <==> exists i :: 4 <= i < |args| && args[i] == "--force")
      && (inv.target.None? <==> forall i :: 4 <= i < |args| ==> !StartsWith(args[i], TargetKey))
      && (inv.target.Some? ==> exists i ::
            && 4 <= i < |args| && StartsWith(args[i], TargetKey)
            && inv.target.value == args[i][|TargetKey|..]
            && forall j :: i < j < |args| ==> !StartsWith(args[j], TargetKey))
  {
    var help := HelpRequested(args);
    if help {
      return Help;
    }
    if |args| < 3 {
      return Usage;
    }
    var threads := ResolveThreads(if |args| >= 4 then Some(threadValue) else None, hardware);
    ResolveThreadsPositive(if |args| >= 4 then Some(threadValue) else None, hardware);
    var force, target := ScanFlags(args);
    inv := Start(args[1], args[2], threads, force, target);
  }
}

/**
 * Build mode (prboom2/src/dsda/build.c): tic-by-tic editing of a demo. A
 * queue of commands replayed one per tic, a one-shot "build command"
 * armed for a given logic tic, the choice of where each tic's command
 * comes from, and the read-and-clear frame-advance flag.
 */
module Build {

  /** A ticcmd_t; its fields are carried, never interpreted, here. */
  datatype TicCmd = TicCmd(forwardMove: int, sideMove: int, angleTurn: int, buttons: int)

  const EmptyCmd := TicCmd(0, 0, 0, 0)

  /** Where dsda_ReadBuildCmd takes the tic's command from. */
  datatype CmdSource = FromQueue | Untouched | FromBuildCmd | FromPending

  /**
   * The decision of dsda_ReadBuildCmd, in its order: a non-empty queue
   * first, then an active brute-force search (which leaves the command as
   * it is), then the armed build command on its tic, else the pending
   * command.
   */
  function ReadSource(depth: int, bruteForce: bool, trueLogictic: int, buildCmdTic: int): (s: CmdSource)
    ensures s == FromQueue <==> depth != 0
    ensures s == Untouched <==> depth == 0 && bruteForce
    ensures s == FromBuildCmd <==> depth == 0 && !bruteForce && trueLogictic == buildCmdTic
  {
    if depth != 0 then FromQueue
    else if bruteForce then Untouched
    else if trueLogictic == buildCmdTic then FromBuildCmd
    else FromPending
  }

  /**
   * Once delivered, the build command is disarmed (its tic is -1), so no
   * later read at a real tic (never negative) delivers it again until it
   * is armed anew.
   */
  lemma BuildCmdDeliveredOnce(depth: int, bruteForce: bool, trueLogictic: int)
    requires trueLogictic >= 0
    ensures ReadSource(depth, bruteForce, trueLogictic, -1) != FromBuildCmd
  {
  }

  /**
   * The condition under which dsda_RefreshBuildMode captures the prior
   * command as the new build command.
   */
  predicate RefreshCaptures(skipMode: bool, overwrittenLogictic: int, buildCmdTic: int, trueLogictic: int) {
    !skipMode && overwrittenLogictic != trueLogictic - 1 && buildCmdTic == -1 && trueLogictic > 0
  }

  /** A capture records its tic, so a second refresh at the same tic captures nothing. */
  lemma RefreshCapturesOncePerTic(skipMode: bool, buildCmdTic: int, trueLogictic: int)
    ensures !RefreshCaptures(skipMode, trueLogictic - 1, buildCmdTic, trueLogictic)
  {
  }

  /** The static state of build.c, plus the skip-mode flag it reads and clears. */
  class BuildState {
    var buildMode: bool
    var advanceFrame: bool
    var buildCmd: TicCmd
    var overwrittenCmd: TicCmd
    var overwrittenLogictic: int
    var buildCmdTic: int
    var replaceSource: bool
    /** cmd_queue: the copied commands, the count still to replay, the count queued. */
    var cmds: seq<TicCmd>
    var depth: int
    var originalDepth: int
    /** dsda_SkipMode(), owned by the skip module; dsda_ExitSkipMode clears it. */
    var skipMode: bool

    ghost predicate Valid()
      reads this
    {
      0 <= depth <= originalDepth == |cmds|
    }

    /** The commands still to be replayed, oldest first. */
    ghost function Remaining(): seq<TicCmd>
      reads this
      requires Valid()
    {
      cmds[originalDepth - depth..]
    }

    /** Static initial values: build_cmd_tic = -1, replace_source = true, empty queue. */
    constructor ()
      ensures Valid()
      ensures !buildMode && !advanceFrame && !skipMode
      ensures buildCmdTic == -1 && replaceSource
      ensures buildCmd == EmptyCmd && overwrittenCmd == EmptyCmd && overwrittenLogictic == 0
      ensures depth == 0 && Remaining() == []
    {
      buildMode := false;
      advanceFrame := false;
      buildCmd := EmptyCmd;
      overwrittenCmd := EmptyCmd;
      overwrittenLogictic := 0;
      buildCmdTic := -1;
      replaceSource := true;
      cmds := [];
      depth := 0;
      originalDepth := 0;
      skipMode := false;
    }

    /** dsda_BuildMode */
    method BuildMode() returns (r: bool)
      ensures r == buildMode
    {
      r := buildMode;
    }

    /**
     * dsda_QueueBuildCommands: replaces the queue by a copy of the first n
     * commands; both depths become n, so they replay from the first.
     */
    method QueueBuildCommands(source: array<TicCmd>, n: int)
      requires 0 <= n <= source.Length
      modifies this`cmds, this`depth, this`originalDepth
      ensures Valid()
      ensures depth == originalDepth == n
      ensures Remaining() == source[..n]
    {
      originalDepth := n;
      depth := n;
      cmds := source[..n];
    }

    /**
     * dsda_PopCommandQueue: yields the oldest command still queued and
     * drops it; skip mode is left exactly when the queue runs dry.
     */
    method PopCommandQueue() returns (cmd: TicCmd)
      requires Valid() && depth > 0
      modifies this`depth, this`skipMode
      ensures Valid()
      ensures cmd == old(Remaining())[0] == cmds[originalDepth - old(depth)]
      ensures Remaining() == old(Remaining())[1..]
      ensures depth == old(depth) - 1
      ensures skipMode == (old(skipMode) && depth != 0)
    {
      cmd := cmds[originalDepth - depth];
      depth := depth - 1;
      if depth == 0 {
        ExitSkipMode();
      }
    }

    /** dsda_ExitSkipMode, as far as this model sees it: clears the skip flag. */
    method ExitSkipMode()
      modifies this`skipMode
      ensures !skipMode
    {
      skipMode := false;
    }

    /** dsda_BuildPlayback: whether the demo, not the build command, drives the tic. */
    method BuildPlayback() returns (r: bool)
      ensures r <==> !replaceSource
    {
      r := !replaceSource;
    }

    /** dsda_CopyBuildCmd */
    method CopyBuildCmd() returns (cmd: TicCmd)
      ensures cmd == buildCmd
    {
      cmd := buildCmd;
    }

    /**
     * dsda_ReadBuildCmd: `cmd` is the command before the call and
     * `pendingCmd` what dsda_CopyPendingCmd would supply. Delivering the
     * build command disarms it.
     */
    method ReadBuildCmd(cmd: TicCmd, trueLogictic: int, bruteForce: bool, pendingCmd: TicCmd)
      returns (result: TicCmd)
      requires Valid()
      modifies this`depth, this`skipMode, this`buildCmdTic
      ensures Valid()
      ensures old(ReadSource(depth, bruteForce, trueLogictic, buildCmdTic)) == FromQueue ==>
                result == old(Remaining())[0] && Remaining() == old(Remaining())[1..]
                && depth == old(depth) - 1 && skipMode == (old(skipMode) && depth != 0)
                && buildCmdTic == old(buildCmdTic)
      ensures old(ReadSource(depth, bruteForce, trueLogictic, buildCmdTic)) == Untouched ==>
                result == cmd && depth == old(depth) && skipMode == old(skipMode)
                && buildCmdTic == old(buildCmdTic)
      ensures old(ReadSource(depth, bruteForce, trueLogictic, buildCmdTic)) == FromBuildCmd ==>
                result == buildCmd && buildCmdTic == -1
                && depth == old(depth) && skipMode == old(skipMode)
      ensures old(ReadSource(depth, bruteForce, trueLogictic, buildCmdTic)) == FromPending ==>
                result == pendingCmd && depth == old(depth) && skipMode == old(skipMode)
                && buildCmdTic == old(buildCmdTic)
    {
      if depth != 0 {
        result := PopCommandQueue();
      } else if bruteForce {
        result := cmd;
      } else if trueLogictic == buildCmdTic {
        result := buildCmd;
        buildCmdTic := -1;
      } else {
        result := pendingCmd;
      }
    }

    /**
     * dsda_ChangeBuildCommand: arms the build command for the previous tic
     * (to which the game is rewound) and makes it the source of commands.
     */
    method ChangeBuildCommand(trueLogictic: int)
      modifies this`replaceSource, this`buildCmdTic
      ensures replaceSource && buildCmdTic == trueLogictic - 1
    {
      replaceSource := true;
      buildCmdTic := trueLogictic - 1;
    }

    /** dsda_EnterBuildMode: build mode on, and the next frame advances. */
    method EnterBuildMode()
      modifies this`advanceFrame, this`buildMode
      ensures advanceFrame && buildMode
    {
      advanceFrame := true;
      buildMode := true;
    }

    /**
     * dsda_RefreshBuildMode: `priorCmd` is what dsda_CopyPriorCmd would
     * supply. Demo playback always hands the source back to the demo; the
     * capture happens at most once per tic.
     */
    method RefreshBuildMode(demoPlayback: bool, trueLogictic: int, priorCmd: TicCmd)
      modifies this`replaceSource, this`overwrittenCmd, this`buildCmd, this`overwrittenLogictic
      ensures old(RefreshCaptures(skipMode, overwrittenLogictic, buildCmdTic, trueLogictic)) ==>
                overwrittenCmd == priorCmd && buildCmd == priorCmd
                && overwrittenLogictic == trueLogictic - 1 && !replaceSource
      ensures !old(RefreshCaptures(skipMode, overwrittenLogictic, buildCmdTic, trueLogictic)) ==>
                overwrittenCmd == old(overwrittenCmd) && buildCmd == old(buildCmd)
                && overwrittenLogictic == old(overwrittenLogictic)
                && replaceSource == (old(replaceSource) && !demoPlayback)
      ensures demoPlayback ==> !replaceSource
    {
      if demoPlayback {
        replaceSource := false;
      }
      if !skipMode && overwrittenLogictic != trueLogictic - 1 && buildCmdTic == -1 && trueLogictic > 0 {
        overwrittenCmd := priorCmd;
        buildCmd := overwrittenCmd;
        overwrittenLogictic := trueLogictic - 1;
        replaceSource := false;
      }
    }

    /**
     * dsda_AdvanceFrame: reports whether to run a tic (always in skip mode)
     * and clears the request.
     */
    method AdvanceFrame() returns (result: bool)
      modifies this`advanceFrame
      ensures result == (old(advanceFrame) || skipMode)
      ensures !advanceFrame
    {
      if skipMode {
        advanceFrame := true;
      }
      result := advanceFrame;
      advanceFrame := false;
    }
  }
}

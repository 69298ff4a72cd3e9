/**
 * Scripted input playback (MonoDreams/System/Input/InputReplaySystem.cs): a cursor walks a list
 * of timed press/release commands, keeping the set of actions currently held, and asks the game
 * to exit once every command is consumed and nothing is held.
 */
module InputReplay {
  import opened Wrappers

  datatype InputReplayCommand = InputReplayCommand(action: string, cmdType: string, time: real)

  /** The parts of input_replay.json the system uses; `commands` is null when the JSON has none. */
  datatype InputReplayPlan = InputReplayPlan(description: Option<string>, commands: Option<seq<InputReplayCommand>>)

  /** One command's effect on the held actions: "press" adds, "release" removes, anything else nothing. */
  function Apply(pressed: set<string>, cmd: InputReplayCommand): set<string> {
    if cmd.cmdType == "press" then pressed + {cmd.action}
    else if cmd.cmdType == "release" then pressed - {cmd.action}
    else pressed
  }

  /** The held actions after executing `cmds` in order. */
  function ApplyAll(pressed: set<string>, cmds: seq<InputReplayCommand>): set<string> {
    if cmds == [] then pressed else Apply(ApplyAll(pressed, cmds[..|cmds| - 1]), cmds[|cmds| - 1])
  }

  /**
   * Where a frame at `totalTime` stops the cursor that starts at `from`: at the first command not
   * yet due, or at the end of the list.
   */
  function DueEnd(commands: seq<InputReplayCommand>, from: nat, totalTime: real): (end: nat)
    requires from <= |commands|
    ensures from <= end <= |commands|
    ensures forall i :: from <= i < end ==> commands[i].time <= totalTime
    ensures end == |commands| || commands[end].time > totalTime
    decreases |commands| - from
  {
    if from == |commands| || commands[from].time > totalTime then from
    else DueEnd(commands, from + 1, totalTime)
  }

  class InputReplaySystem {
    const commands: seq<InputReplayCommand>
    var pressedActions: set<string>
    var cursor: nat
    var isEnabled: bool
    /** Whether Game.Exit() has been called. */
    var exitRequested: bool

    predicate Valid()
      reads this
    {
      cursor <= |commands|
    }

    constructor(commands: seq<InputReplayCommand>)
      ensures Valid()
      ensures this.commands == commands && pressedActions == {} && cursor == 0
      ensures isEnabled && !exitRequested
    {
      this.commands := commands;
      pressedActions := {};
      cursor := 0;
      isEnabled := true;
      exitRequested := false;
    }

    /**
     * Update: executes every command due by `totalTime` from the cursor on, then requests exit
     * when all commands are consumed and no action is held. A disabled system does nothing.
     */
    method Update(totalTime: real)
      requires Valid()
      modifies this
      ensures Valid()
      ensures !old(isEnabled) ==>
        cursor == old(cursor) && pressedActions == old(pressedActions) && exitRequested == old(exitRequested)
      ensures old(isEnabled) ==> cursor == DueEnd(commands, old(cursor), totalTime)
      ensures old(isEnabled) ==> pressedActions == ApplyAll(old(pressedActions), commands[old(cursor)..cursor])
      ensures old(isEnabled) ==>
        (exitRequested <==> old(exitRequested) || (cursor == |commands| && pressedActions == {}))
      ensures old(cursor) <= cursor
      ensures isEnabled == old(isEnabled)
    {
      if !isEnabled {
        return;
      }
      ExecuteDueCommands(totalTime);
      if cursor >= |commands| && |pressedActions| == 0 {
        exitRequested := true;
      }
    }

    /** The cursor loop of Update: runs the commands whose time has arrived, in order. */
    method ExecuteDueCommands(totalTime: real)
      requires Valid()
      modifies this
      ensures Valid()
      ensures cursor == DueEnd(commands, old(cursor), totalTime)
      ensures pressedActions == ApplyAll(old(pressedActions), commands[old(cursor)..cursor])
      ensures exitRequested == old(exitRequested) && isEnabled == old(isEnabled)
    {
      var start, initial := cursor, pressedActions;
      var c, held := start, initial;
      while c < |commands| && commands[c].time <= totalTime
        invariant start <= c <= |commands|
        invariant DueEnd(commands, c, totalTime) == DueEnd(commands, start, totalTime)
        invariant held == ApplyAll(initial, commands[start..c])
        modifies {}
        decreases |commands| - c
      {
        var cmd := commands[c];
        if cmd.cmdType == "press" {
          held := held + {cmd.action};
        } else if cmd.cmdType == "release" {
          held := held - {cmd.action};
        }
        ApplyAllSnoc(initial, commands[start..c], cmd);
        assert commands[start..c + 1] == commands[start..c] + [cmd];
        c := c + 1;
      }
      assert DueEnd(commands, c, totalTime) == c;
      cursor, pressedActions := c, held;
    }
  }

  /** Executing one more command applies it to the held set so far. */
  lemma ApplyAllSnoc(pressed: set<string>, cmds: seq<InputReplayCommand>, cmd: InputReplayCommand)
    ensures ApplyAll(pressed, cmds + [cmd]) == Apply(ApplyAll(pressed, cmds), cmd)
  {
    assert (cmds + [cmd])[..|cmds|] == cmds;
  }

  /**
   * TryLoad: no system when the file is missing, when reading or deserialising it throws, or when
   * the plan or its command list is null or empty; otherwise a fresh system over the commands.
   */
  method TryLoad(fileExists: bool, parsed: Outcome<Option<InputReplayPlan>>) returns (system: InputReplaySystem?)
    ensures system == null <==>
      !fileExists || parsed.Thrown? || parsed.value.None? ||
      parsed.value.value.commands.None? || |parsed.value.value.commands.value| == 0
    ensures system != null ==>
      fresh(system) && system.Valid() && system.commands == parsed.value.value.commands.value &&
      system.cursor == 0 && system.pressedActions == {} && system.isEnabled && !system.exitRequested
  {
    if !fileExists {
      return null;
    }
    if parsed.Thrown? {
      return null;
    }
    var plan := parsed.value;
    if plan.None? || plan.value.commands.None? || |plan.value.commands.value| == 0 {
      return null;
    }
    system := new InputReplaySystem(plan.value.commands.value);
  }

  /** Executing a list in two parts is executing it at once. */
  lemma {:induction false} ApplyAllAppend(pressed: set<string>, a: seq<InputReplayCommand>, b: seq<InputReplayCommand>)
    ensures ApplyAll(pressed, a + b) == ApplyAll(ApplyAll(pressed, a), b)
    decreases |b|
  {
    if b != [] {
      assert (a + b)[..|a + b| - 1] == a + b[..|b| - 1];
      ApplyAllAppend(pressed, a, b[..|b| - 1]);
    } else {
      assert a + b == a;
    }
  }

  /** A frame at t1 followed by a frame at t2 ≥ t1 stops where a single frame at t2 would. */
  lemma {:induction false} DueEndCompose(commands: seq<InputReplayCommand>, from: nat, t1: real, t2: real)
    requires from <= |commands| && t1 <= t2
    ensures DueEnd(commands, DueEnd(commands, from, t1), t2) == DueEnd(commands, from, t2)
    decreases |commands| - from
  {
    if from < |commands| && commands[from].time <= t1 {
      DueEndCompose(commands, from + 1, t1, t2);
    }
  }

  /**
   * Replay does not depend on the frame rate: updating at t1 and then at t2 ≥ t1 leaves the cursor
   * and the held actions exactly as one update at t2.
   */
  lemma TwoFramesAsOne(commands: seq<InputReplayCommand>, cursor: nat, pressed: set<string>, t1: real, t2: real)
    requires cursor <= |commands| && t1 <= t2
    ensures var e1 := DueEnd(commands, cursor, t1);
            var e2 := DueEnd(commands, e1, t2);
            e2 == DueEnd(commands, cursor, t2) &&
            ApplyAll(ApplyAll(pressed, commands[cursor..e1]), commands[e1..e2]) == ApplyAll(pressed, commands[cursor..e2])
  {
    var e1 := DueEnd(commands, cursor, t1);
    var e2 := DueEnd(commands, e1, t2);
    DueEndCompose(commands, cursor, t1, t2);
    ApplyAllAppend(pressed, commands[cursor..e1], commands[e1..e2]);
    assert commands[cursor..e1] + commands[e1..e2] == commands[cursor..e2];
  }

  /** Pressing and then releasing an action, after any commands, leaves it released and every other action as it was. */
  lemma PressThenRelease(pressed: set<string>, cmds: seq<InputReplayCommand>, action: string, t1: real, t2: real)
    ensures ApplyAll(pressed, cmds + [InputReplayCommand(action, "press", t1), InputReplayCommand(action, "release", t2)])
            == ApplyAll(pressed, cmds) - {action}
  {
    var press, release := InputReplayCommand(action, "press", t1), InputReplayCommand(action, "release", t2);
    assert cmds + [press, release] == (cmds + [press]) + [release];
    ApplyAllSnoc(pressed, cmds + [press], release);
    ApplyAllSnoc(pressed, cmds, press);
  }

  /** An action no command names is held afterwards exactly when it was held before. */
  lemma {:induction false} UntouchedAction(pressed: set<string>, cmds: seq<InputReplayCommand>, action: string)
    requires forall i :: 0 <= i < |cmds| ==> cmds[i].action != action
    ensures action in ApplyAll(pressed, cmds) <==> action in pressed
  {
    if cmds != [] {
      UntouchedAction(pressed, cmds[..|cmds| - 1], action);
    }
  }
}

/** One machine with its disk, over runs in which it may crash at any point and boot again. */
module Machines {
  import opened Names
  import opened Lifecycle
  import opened NodeStep
  import opened NodeRuns
  import opened Installation

  // --- The state file ---

  /** Where saving stops: each step of the write can fail, and the machine can die after any of them. */
  datatype SaveStop = AtDirectory | AtCreate | AtWrite | AtClose | AtRename | Never

  /** The file after a save that went this far: the new content or the old one. */
  function AfterSave(content: LoadResult, p: Persisted, stop: SaveStop): (after: LoadResult)
    ensures after == content || after == Loaded(p)
  {
    if stop == Never then Loaded(p) else content
  }

  /** The state file and the temporary one beside it; seen records every content the file has had. */
  class StateFile {
    var content: LoadResult
    var temp: Option<Persisted>
    var seen: seq<LoadResult>

    /** Saving replaces the file in one step or not at all: no reader ever meets a third content. */
    method Save(p: Persisted, stop: SaveStop, died: bool) returns (ok: bool)
      modifies this
      ensures ok <==> stop == Never && !died
      ensures content == AfterSave(old(content), p, stop)
      ensures seen == old(seen) + if stop == Never then [Loaded(p)] else []
      ensures !died ==> temp == if stop == AtDirectory || stop == AtCreate then old(temp) else None
    {
      if stop == AtDirectory || stop == AtCreate {
        return false;
      }
      temp := Some(p);
      if stop == AtWrite || stop == AtClose || stop == AtRename {
        if !died {
          temp := None;
        }
        return false;
      }
      content := Loaded(p);
      seen := seen + [content];
      temp := None;
      return !died;
    }
  }

  // --- The machine ---

  datatype Machine = Machine(node: Node, units: Units, file: LoadResult)

  /**
   * A turn of the run loop that is not a result; the end of the running operation, its result handled
   * at once; or a crash, with the running operation cut after some of its scripts, and the next boot.
   */
  datatype Move =
    | Turns(event: Event, env: Env, stop: SaveStop)
    | Finishes(chances: Chances, env: Env, stop: SaveStop)
    | Crashes(chances: Chances, after: nat, unreadable: bool)

  /** Entering a stable state is what saves the record; a failed save only leaves a trace in the log. */
  function Saved(before: Machine, after: Node, stop: SaveStop): (file: LoadResult) {
    if after.persisted != before.node.persisted && after.persisted.Some? then
      AfterSave(before.file, after.persisted.value, stop)
    else before.file
  }

  /** The units as a crash finds them, after the first scripts of the running operation. */
  function UnitsAfter(u: Units, changes: seq<Change>, after: nat): (r: Units) {
    if after == 0 || changes == [] then u
    else if after >= |changes| then changes[|changes| - 1].after
    else changes[after - 1].after
  }

  function Reboot(cfg: Config, m: Machine, unreadable: bool): (d: Machine) {
    m.(node := ChooseInitialState(cfg, Fresh(), if unreadable then Unusable else m.file))
  }

  function Next(cfg: Config, m: Machine, move: Move): (d: Machine) {
    match move
    case Turns(e, env, stop) =>
      var after := Step(cfg, m.node, e, env);
      Machine(after, m.units, Saved(m, after, stop))
    case Finishes(c, env, stop) =>
      if m.node.pending == [] then m
      else
        var run := Play(m.node.pending[0], m.units, c);
        var after := Step(cfg, m.node, OperationEnded(0, run.ok), env);
        Machine(after, run.units, Saved(m, after, stop))
    case Crashes(c, after, unreadable) =>
      var changes := if m.node.pending == [] then [] else Play(m.node.pending[0], m.units, c).changes;
      Reboot(cfg, m.(units := UnitsAfter(m.units, changes, after)), unreadable)
  }

  /** The scripts that ran during a move. */
  function ChangesOf(m: Machine, move: Move): (s: seq<Change>) {
    if move.Turns? || m.node.pending == [] then []
    else
      var changes := Play(m.node.pending[0], m.units, move.chances).changes;
      if move.Crashes? && move.after < |changes| then changes[..move.after] else changes
  }

  /** A turn is at a real instant, is not a result, and no confirmation comes before its own check. */
  ghost predicate Admissible(cfg: Config, m: Machine, move: Move) {
    && (move.Turns? ==> GoodEnv(move.env) && !move.event.OperationEnded? && !EarlyConfirmation(cfg, m.node, move.event))
    && (move.Finishes? ==> GoodEnv(move.env))
  }

  // --- The invariant ---

  ghost predicate DiskOk(cfg: Config, m: Machine) {
    && Sound(cfg, m.node)
    && !BothUnits(m.units)
    && UnitsMatch(m.node.state, m.units)
    && (m.file.Loaded? ==> IsKnown(m.file.persisted.role) && m.file.persisted.nodeName == cfg.name)
    && !m.file.Unusable?
    && (IsFirstBoot(m.node.state) || m.node.state == Starting ==> m.file == Missing)
  }

  /** The installation that goes with a state. */
  predicate UnitsMatch(s: State, u: Units) {
    match s
    case StableServer | RescaleCoordinating | RescaleDemoting => u == Only(Server)
    case StableAgent | RescalePromoting => u == Only(Agent)
    case _ => true
  }

  lemma {:induction false} CleanMachineIsOk(cfg: Config)
    requires cfg.name != ""
    ensures DiskOk(cfg, Machine(ChooseInitialState(cfg, Fresh(), Missing), NO_UNITS, Missing))
  {}

  lemma {:induction false} CutOperationsAreSafe(u: Units, changes: seq<Change>, end: Units, after: nat)
    requires !BothUnits(u) && forall i :: 0 <= i < |changes| ==> SafeChange(changes[i])
    ensures !BothUnits(UnitsAfter(u, changes, after))
  {}

  lemma {:induction false} SavedIsValid(cfg: Config, m: Machine, after: Node, stop: SaveStop)
    requires DiskOk(cfg, m) && Sound(cfg, after)
    requires after.state == RejoinFailed ==> after.persisted == m.node.persisted
    ensures var file := Saved(m, after, stop);
            && !file.Unusable?
            && (file.Loaded? ==> IsKnown(file.persisted.role) && file.persisted.nodeName == cfg.name)
            && (IsFirstBoot(after.state) && (IsFirstBoot(m.node.state) || m.file == Missing) ==> file == Missing)
  {}

  /** A turn that brings no result stays on the side of the lifecycle the disk agrees with. */
  lemma {:induction false} TurnFollows(cfg: Config, n: Node, e: Event, env: Env)
    requires n.state != Starting && !e.OperationEnded?
    ensures var a := Step(cfg, n, e, env); SameSide(n.state, a.state) && a.persisted == n.persisted
  {
    hide MaybeRescale, OnMembershipChange, OnUserEvent, OnForgetProbed, OnJoinWaitExpired, FirstBootSteps;
    match e {
      case MembershipChange =>
        MembershipIsQuietThenRescales(cfg, n, env.view, env.now);
        MaybeRescaleEffect(cfg, FirstBootSteps(n, env.view), env.view, env.now);
      case RescaleCheck => MaybeRescaleEffect(cfg, n, env.view, env.now);
      case _ => OtherTurnsAreQuiet(cfg, n, e, env);
    }
  }

  lemma {:induction false} FailureFollows(cfg: Config, n: Node, env: Env, u: Units)
    requires Sound(cfg, n) && n.pending != []
    requires n.state == RescaleCoordinating ==> u == Only(Server)
    ensures var a := OnFailure(cfg, n.(pending := []), env);
            && UnitsMatch(a.state, u) && a.state != Starting
            && (IsFirstBoot(a.state) ==> IsFirstBoot(n.state))
            && (a.state == RejoinFailed ==> a.persisted == n.persisted)
  {}

  lemma {:induction false} SuccessFollows(cfg: Config, n: Node, env: Env, u: Units)
    requires Sound(cfg, n) && n.pending != []
    requires n.state == RescaleCoordinating ==> u == Only(Server)
    requires n.pending[0].InstallServerInit? || n.pending[0].InstallServerJoin? ==> u == Only(Server)
    requires n.pending[0].InstallAgent? ==> u == Only(Agent)
    requires n.pending[0].WaitRejoin? ==> IsKnown(n.pending[0].role) && u == Only(n.pending[0].role)
    requires n.pending[0].ConvertTo? ==> IsKnown(n.pending[0].order.role) && u == Only(n.pending[0].order.role)
    ensures var a := OnSuccess(cfg, n.(pending := []), env);
            && UnitsMatch(a.state, u) && a.state != Starting && a.state != RejoinFailed
            && (IsFirstBoot(a.state) ==> IsFirstBoot(n.state))
  {
    hide OnRescaleCoordinationDone;
    if n.state == RescaleCoordinating {
      CoordinationDoneEffect(cfg, n.(pending := []), env);
    }
  }

  lemma {:induction false} ResultIsDispatched(cfg: Config, n: Node, ok: bool, env: Env)
    requires Sound(cfg, n) && n.pending != []
    ensures var r := n.(pending := []);
            Step(cfg, n, OperationEnded(0, ok), env) == if ok then OnSuccess(cfg, r, env) else OnFailure(cfg, r, env)
  {
    hide OnSuccess, OnFailure;
    assert Retire(n, 0) == n.(pending := []);
  }

  /** The operations of a coordinator and of a rejoin leave the units alone. */
  lemma {:induction false} UnitsAreLeftAlone(cfg: Config, m: Machine)
    requires DiskOk(cfg, m) && m.node.pending != []
    ensures m.node.state == RescaleCoordinating ==>
              forall c :: Play(m.node.pending[0], m.units, c).units == Only(Server)
    ensures m.node.pending[0].WaitRejoin? ==>
              IsKnown(m.node.pending[0].role) && forall c :: Play(m.node.pending[0], m.units, c).units == m.units
  {}

  /** A result moves the state to one that goes with what the operation left on disk. */
  lemma {:induction false} ResultFollows(cfg: Config, m: Machine, c: Chances, env: Env)
    requires DiskOk(cfg, m) && m.node.pending != [] && m.node.state != Starting
    ensures var run := Play(m.node.pending[0], m.units, c);
            var a := Step(cfg, m.node, OperationEnded(0, run.ok), env);
            && UnitsMatch(a.state, run.units) && a.state != Starting
            && (IsFirstBoot(a.state) ==> IsFirstBoot(m.node.state))
            && (a.state == RejoinFailed ==> a.persisted == m.node.persisted)
            && Possible(m.node, OperationEnded(0, run.ok))
  {
    hide Step, Sound, Play, UnitsMatch, OnSuccess, OnFailure;
    var run := Play(m.node.pending[0], m.units, c);
    OperationsAreSafe(m.node.pending[0], m.units, c);
    ResultIsDispatched(cfg, m.node, run.ok, env);
    UnitsAreLeftAlone(cfg, m);
    if run.ok {
      SuccessFollows(cfg, m.node, env, run.units);
    } else {
      FailureFollows(cfg, m.node, env, run.units);
    }
  }

  lemma {:induction false} FinishIsSafe(cfg: Config, m: Machine, c: Chances, env: Env, stop: SaveStop)
    requires DiskOk(cfg, m) && m.node.state != Starting && GoodEnv(env) && m.node.pending != []
    ensures var k := Next(cfg, m, Finishes(c, env, stop)); DiskOk(cfg, k) && k.node.state != Starting
  {
    hide Step, Play, Sound;
    var run := Play(m.node.pending[0], m.units, c);
    OperationsAreSafe(m.node.pending[0], m.units, c);
    ResultFollows(cfg, m, c, env);
    TurnIsSound(cfg, m.node, OperationEnded(0, run.ok), env);
    SavedIsValid(cfg, m, Step(cfg, m.node, OperationEnded(0, run.ok), env), stop);
  }

  lemma {:induction false} BootedState(cfg: Config, file: LoadResult)
    ensures var s := ChooseInitialState(cfg, Fresh(), file).state;
            if file == Missing then s == Discovering else s == RejoinFailed || s == RejoinCluster
  {}

  lemma {:induction false} CrashIsSafe(cfg: Config, m: Machine, c: Chances, after: nat, unreadable: bool)
    requires DiskOk(cfg, m)
    ensures var k := Next(cfg, m, Crashes(c, after, unreadable)); DiskOk(cfg, k) && k.node.state != Starting
  {
    assert cfg.name != "";
    hide Step, Play, Sound, ChooseInitialState, UnitsAfter;
    if m.node.pending != [] {
      var run := Play(m.node.pending[0], m.units, c);
      OperationsAreSafe(m.node.pending[0], m.units, c);
      CutOperationsAreSafe(m.units, run.changes, run.units, after);
    } else {
      CutOperationsAreSafe(m.units, [], m.units, after);
    }
    BootIsSound(cfg, if unreadable then Unusable else m.file);
    BootedState(cfg, if unreadable then Unusable else m.file);
  }

  lemma {:induction false} TurnIsSafe(cfg: Config, m: Machine, e: Event, env: Env, stop: SaveStop)
    requires DiskOk(cfg, m) && m.node.state != Starting && Admissible(cfg, m, Turns(e, env, stop))
    ensures var k := Next(cfg, m, Turns(e, env, stop)); DiskOk(cfg, k) && k.node.state != Starting
  {
    hide Step, Sound;
    TurnIsSound(cfg, m.node, e, env);
    TurnFollows(cfg, m.node, e, env);
    SavedIsValid(cfg, m, Step(cfg, m.node, e, env), stop);
  }

  /** Every admissible move keeps the disk in order, and every script it ran was safe to run. */
  lemma {:induction false} MoveIsSafe(cfg: Config, m: Machine, move: Move)
    requires DiskOk(cfg, m) && m.node.state != Starting && Admissible(cfg, m, move)
    ensures DiskOk(cfg, Next(cfg, m, move)) && Next(cfg, m, move).node.state != Starting
    ensures forall i :: 0 <= i < |ChangesOf(m, move)| ==> SafeChange(ChangesOf(m, move)[i])
  {
    hide Play, Next;
    match move {
      case Turns(e, env, stop) => TurnIsSafe(cfg, m, e, env, stop);
      case Finishes(c, env, stop) =>
        if m.node.pending != [] {
          FinishIsSafe(cfg, m, c, env, stop);
          OperationsAreSafe(m.node.pending[0], m.units, c);
        } else {
          assert Next(cfg, m, move) == m by { NothingFinishes(cfg, m, c, env, stop); }
        }
      case Crashes(c, after, unreadable) =>
        CrashIsSafe(cfg, m, c, after, unreadable);
        if m.node.pending != [] {
          OperationsAreSafe(m.node.pending[0], m.units, c);
        }
    }
  }

  lemma {:induction false} NothingFinishes(cfg: Config, m: Machine, c: Chances, env: Env, stop: SaveStop)
    requires m.node.pending == []
    ensures Next(cfg, m, Finishes(c, env, stop)) == m
  {}

  // --- Runs ---

  function Life(cfg: Config, m: Machine, moves: seq<Move>): (d: Machine) {
    if moves == [] then m else Next(cfg, Life(cfg, m, moves[..|moves| - 1]), moves[|moves| - 1])
  }

  ghost predicate AdmissibleLife(cfg: Config, m: Machine, moves: seq<Move>) {
    moves != [] ==>
      && AdmissibleLife(cfg, m, moves[..|moves| - 1])
      && Admissible(cfg, Life(cfg, m, moves[..|moves| - 1]), moves[|moves| - 1])
  }

  function AllChanges(cfg: Config, m: Machine, moves: seq<Move>): (s: seq<Change>) {
    if moves == [] then []
    else AllChanges(cfg, m, moves[..|moves| - 1]) + ChangesOf(Life(cfg, m, moves[..|moves| - 1]), moves[|moves| - 1])
  }

  /**
   * From a clean disk, over any life with any crashes, unreliable scripts and failed saves: an install
   * script only ever ran on a machine without a unit, the two units never coexisted, a stable machine
   * holds exactly the unit of its state, and a machine in its first boot has no state file.
   */
  lemma {:induction false} DiskIsSafeForLife(cfg: Config, moves: seq<Move>)
    requires cfg.name != ""
    requires AdmissibleLife(cfg, Machine(ChooseInitialState(cfg, Fresh(), Missing), NO_UNITS, Missing), moves)
    ensures var m := Machine(ChooseInitialState(cfg, Fresh(), Missing), NO_UNITS, Missing);
            var end := Life(cfg, m, moves);
            && DiskOk(cfg, end) && end.node.state != Starting
            && (forall i :: 0 <= i < |AllChanges(cfg, m, moves)| ==> SafeChange(AllChanges(cfg, m, moves)[i]))
  {
    hide Next, ChangesOf;
    var m := Machine(ChooseInitialState(cfg, Fresh(), Missing), NO_UNITS, Missing);
    CleanMachineIsOk(cfg);
    if moves != [] {
      DiskIsSafeForLife(cfg, moves[..|moves| - 1]);
      MoveIsSafe(cfg, Life(cfg, m, moves[..|moves| - 1]), moves[|moves| - 1]);
    }
  }

  // --- What is on disk is what the scripts left ---

  lemma {:induction false} ChainsJoin(u: Units, first: seq<Change>, mid: Units, second: seq<Change>, end: Units)
    requires Chained(u, first, mid) && Chained(mid, second, end)
    ensures Chained(u, first + second, end)
    decreases |first|
  {
    if first == [] {
      assert first + second == second;
    } else {
      ChainsJoin(first[0].after, first[1..], mid, second, end);
      assert (first + second)[1..] == first[1..] + second;
    }
  }

  /** The units found after a cut operation are those its last script left. */
  lemma {:induction false} CutChains(u: Units, changes: seq<Change>, end: Units, after: nat)
    requires Chained(u, changes, end)
    ensures Chained(u, if after < |changes| then changes[..after] else changes, UnitsAfter(u, changes, after))
    decreases |changes|
  {
    if changes != [] && after > 0 {
      CutChains(changes[0].after, changes[1..], end, after - 1);
      if after < |changes| {
        assert changes[..after][1..] == changes[1..][..after - 1];
      }
    }
  }

  lemma {:induction false} MoveChains(cfg: Config, m: Machine, move: Move)
    requires !BothUnits(m.units)
    ensures Chained(m.units, ChangesOf(m, move), Next(cfg, m, move).units)
  {
    hide Step, Play, ChooseInitialState, Chained, UnitsAfter;
    NothingChains(m.units);
    if !move.Turns? && m.node.pending != [] {
      var run := Play(m.node.pending[0], m.units, move.chances);
      OperationsAreSafe(m.node.pending[0], m.units, move.chances);
      if move.Crashes? {
        CutChains(m.units, run.changes, run.units, move.after);
      }
    }
  }

  lemma {:induction false} NothingChains(u: Units)
    ensures Chained(u, [], u) && forall after: nat :: UnitsAfter(u, [], after) == u
  {}

  /** From a clean disk, the scripts that ran account for the units, one after the other, crashes included. */
  lemma {:induction false} ScriptsAccountForTheDisk(cfg: Config, moves: seq<Move>)
    requires cfg.name != ""
    requires AdmissibleLife(cfg, Machine(ChooseInitialState(cfg, Fresh(), Missing), NO_UNITS, Missing), moves)
    ensures var m := Machine(ChooseInitialState(cfg, Fresh(), Missing), NO_UNITS, Missing);
            Chained(NO_UNITS, AllChanges(cfg, m, moves), Life(cfg, m, moves).units)
  {
    hide Next, ChangesOf, ChooseInitialState, Admissible;
    var m := Machine(ChooseInitialState(cfg, Fresh(), Missing), NO_UNITS, Missing);
    if moves != [] {
      var before, last := moves[..|moves| - 1], moves[|moves| - 1];
      ScriptsAccountForTheDisk(cfg, before);
      DiskIsSafeForLife(cfg, before);
      MoveChains(cfg, Life(cfg, m, before), last);
      ChainsJoin(NO_UNITS, AllChanges(cfg, m, before), Life(cfg, m, before).units,
        ChangesOf(Life(cfg, m, before), last),
        Life(cfg, m, moves).units);
    }
  }

  // --- Booting with a state file ---

  lemma {:induction false} FileStays(cfg: Config, m: Machine, move: Move)
    requires m.file != Missing
    ensures Next(cfg, m, move).file != Missing
  {
    hide Step, Play;
  }

  /** A state file, once written, is there for good: no later boot of this machine is a first boot. */
  lemma {:induction false} NeverAgainAFirstBoot(cfg: Config, m: Machine, moves: seq<Move>)
    requires DiskOk(cfg, m) && m.node.state != Starting && m.file != Missing && AdmissibleLife(cfg, m, moves)
    ensures DiskOk(cfg, Life(cfg, m, moves)) && Life(cfg, m, moves).node.state != Starting
    ensures Life(cfg, m, moves).file != Missing && InCluster(Life(cfg, m, moves).node.state)
  {
    hide Next, Admissible;
    if moves != [] {
      var before, last := moves[..|moves| - 1], moves[|moves| - 1];
      NeverAgainAFirstBoot(cfg, m, before);
      MoveIsSafe(cfg, Life(cfg, m, before), last);
      FileStays(cfg, Life(cfg, m, before), last);
    }
    var end := Life(cfg, m, moves);
    StatesArePartitioned(end.node.state);
  }

  lemma {:induction false} CrashBoots(cfg: Config, m: Machine, crash: Move)
    requires m.file.Loaded? && m.file.persisted.nodeName == cfg.name && crash.Crashes? && !crash.unreadable
    ensures var booted := Next(cfg, m, crash);
            && booted.file == m.file && booted.node.state == RejoinCluster
            && booted.node.pending == [WaitRejoin(m.file.persisted.role)] && booted.node.persisted.Some?
            && booted.node.persisted.value.role == m.file.persisted.role
  {
    hide UnitsAfter, Play;
  }

  lemma {:induction false} RejoinEnds(cfg: Config, m: Machine, role: Role, c: Chances, env: Env, stop: SaveStop)
    requires m.node.state == RejoinCluster && m.node.pending == [WaitRejoin(role)] && IsKnown(role)
    requires m.node.persisted.Some? && m.node.persisted.value.role == role
    ensures var end := Next(cfg, m, Finishes(c, env, stop));
            && end.units == m.units
            && end.node.state ==
               (if c.statOk && m.units == Only(role) && c.ready then StableState(role) else RejoinFailed)
  {
    RejoinChecksTheRecord(role, m.units, c);
    hide Play, OnRescaleCoordinationDone;
  }

  /**
   * A boot that finds the record waits for K3s, and ends stable in the recorded role exactly when the
   * unit on disk is the recorded one, can be read, and answers; otherwise it stops as a failed rejoin.
   */
  lemma {:induction false} RebootEndsWhereTheRecordSays(cfg: Config, m: Machine, crash: Move, c: Chances, env: Env,
      stop: SaveStop)
    requires DiskOk(cfg, m) && m.node.state != Starting && m.file.Loaded?
    requires crash.Crashes? && !crash.unreadable
    ensures var booted := Next(cfg, m, crash);
            var end := Next(cfg, booted, Finishes(c, env, stop));
            var role := m.file.persisted.role;
            && booted.node.state == RejoinCluster && booted.file == m.file
            && end.node.state ==
                 (if c.statOk && booted.units == Only(role) && c.ready then StableState(role) else RejoinFailed)
            && end.units == booted.units
  {
    var booted := Next(cfg, m, crash);
    CrashBoots(cfg, m, crash);
    hide Next, UnitsAfter, ChooseInitialState, Sound;
    RejoinEnds(cfg, booted, m.file.persisted.role, c, env, stop);
  }
}

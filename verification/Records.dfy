/** What the state file of a machine says over its life, when its saves are not disturbed. */
module Records {
  import opened Names
  import opened Lifecycle
  import opened NodeStep
  import opened NodeRuns
  import opened Installation
  import opened Machines
  import FirstBootRules
  import ClusterRules

  /** No save of this move is cut short. */
  predicate Undisturbed(move: Move) {
    (move.Turns? || move.Finishes?) ==> move.stop == Never
  }

  /** The operation that a move brings to a successful end. */
  function Completed(m: Machine, move: Move): (op: Option<Operation>) {
    if move.Finishes? && m.node.pending != [] && Play(m.node.pending[0], m.units, move.chances).ok then
      Some(m.node.pending[0])
    else None
  }

  /** What a machine has made of itself: the role it last installed or was converted to, and its later rejoins. */
  datatype Career = Career(role: Option<Role>, rejoins: nat)

  function After(c: Career, op: Option<Operation>): (r: Career) {
    match op
    case Some(InstallServerInit) => Career(Some(Server), 0)
    case Some(InstallServerJoin(_)) => Career(Some(Server), 0)
    case Some(InstallAgent(_)) => Career(Some(Agent), 0)
    case Some(ConvertTo(order)) => c.(role := Some(order.role))
    case Some(WaitRejoin(_)) => c.(rejoins := c.rejoins + 1)
    case _ => c
  }

  function CareerOf(cfg: Config, m: Machine, moves: seq<Move>): (c: Career) {
    if moves == [] then Career(None, 0)
    else
      var before, last := moves[..|moves| - 1], moves[|moves| - 1];
      After(CareerOf(cfg, m, before), Completed(Life(cfg, m, before), last))
  }

  /** The file says exactly what the machine has done, and so does the record it works with. */
  ghost predicate Tells(cfg: Config, m: Machine, c: Career) {
    && (c.role.None? ==> m.file == Missing && (IsFirstBoot(m.node.state) || m.node.state == RejoinFailed))
    && (c.role.Some? ==>
          && m.file.Loaded? && m.file.persisted.nodeName == cfg.name
          && m.file.persisted.role == c.role.value && m.file.persisted.bootCount == 1 + c.rejoins
          && (m.node.state != RejoinFailed ==>
                InCluster(m.node.state) && m.node.persisted == Some(m.file.persisted)))
  }

  ghost predicate Good(cfg: Config, m: Machine) { DiskOk(cfg, m) && m.node.state != Starting }

  lemma {:induction false} TurnTells(cfg: Config, m: Machine, move: Move, c: Career)
    requires Good(cfg, m) && Tells(cfg, m, c) && move.Turns? && Admissible(cfg, m, move)
    ensures Tells(cfg, Next(cfg, m, move), c)
  {
    MoveIsSafe(cfg, m, move);
    TurnFollows(cfg, m.node, move.event, move.env);
    StatesArePartitioned(Step(cfg, m.node, move.event, move.env).state);
    hide Step, TokenOk, RoundOk, JoinOk, UnitsMatch, AfterSave;
  }

  lemma {:induction false} CrashTells(cfg: Config, m: Machine, move: Move, c: Career)
    requires Good(cfg, m) && Tells(cfg, m, c) && move.Crashes?
    ensures Tells(cfg, Next(cfg, m, move), c)
  {
    ClusterRules.BootRule(cfg, if move.unreadable then Unusable else m.file);
    hide ChooseInitialState, UnitsAfter, Play, Sound;
  }

  /** What a result does to the record, and on which side of the lifecycle it leaves the machine. */
  ghost predicate Results(cfg: Config, n: Node, ok: bool, a: Node)
    requires n.pending != []
  {
    && (!ok ==> a.persisted == n.persisted)
    && (!ok && IsFirstBoot(n.state) ==> IsFirstBoot(a.state))
    && (!ok && InCluster(n.state) ==> InCluster(a.state))
    && (ok ==> match n.pending[0]
               case InstallServerInit => Begins(cfg, a, Server)
               case InstallServerJoin(_) => Begins(cfg, a, Server)
               case InstallAgent(_) => Begins(cfg, a, Agent)
               case CheckNotInstalled => a.persisted == n.persisted && a.state == n.state
               case WaitRejoin(_) =>
                 && InCluster(a.state) && a.state != RejoinFailed && n.persisted.Some?
                 && a.persisted == Some(n.persisted.value.(bootCount := n.persisted.value.bootCount + 1))
               case ConvertTo(order) =>
                 && InCluster(a.state) && a.state != RejoinFailed && n.persisted.Some? && a.persisted.Some?
                 && a.persisted.value ==
                    n.persisted.value.(role := order.role, roleChangedAt := a.persisted.value.roleChangedAt)
                 && n.persisted.value.role != order.role
               case _ => a.persisted == n.persisted && InCluster(a.state) && a.state != RejoinFailed)
  }

  ghost predicate Begins(cfg: Config, a: Node, role: Role) {
    && InCluster(a.state) && a.state != RejoinFailed && a.persisted.Some?
    && a.persisted.value.nodeName == cfg.name && a.persisted.value.role == role && a.persisted.value.bootCount == 1
  }

  lemma {:induction false} FirstBootResult(cfg: Config, n: Node, ok: bool, env: Env)
    requires Sound(cfg, n) && n.pending != [] && IsFirstBoot(n.state)
    ensures Results(cfg, n, ok, Step(cfg, n, OperationEnded(0, ok), env))
  {
    hide Step;
    FirstBootRules.FirstBootResults(cfg, n, ok, env);
    if n.state == JoiningCleanup && ok {
      FirstBootRules.RequestRule(cfg, n, env);
    }
  }

  lemma {:induction false} ClusterResult(cfg: Config, n: Node, ok: bool, env: Env)
    requires Sound(cfg, n) && n.pending != [] && InCluster(n.state) && n.state != RescaleCoordinating
    requires Possible(n, OperationEnded(0, ok))
    ensures Results(cfg, n, ok, Step(cfg, n, OperationEnded(0, ok), env))
  {
    hide Step;
    if n.state == RejoinCluster {
      ClusterRules.RejoinRule(cfg, n, ok, env);
    } else {
      ClusterRules.ConversionRule(cfg, n, ok, env);
    }
  }

  lemma {:induction false} RoundResult(cfg: Config, n: Node, ok: bool, env: Env)
    requires Sound(cfg, n) && n.pending != [] && n.state == RescaleCoordinating
    ensures Results(cfg, n, ok, Step(cfg, n, OperationEnded(0, ok), env))
  {
    assert n.pending == [RoundOperation(n.rescale)];
    if ok {
      ClusterRules.RoundSucceeds(cfg, n, env);
      CoordinationDoneEffect(cfg, n.(pending := []), env);
    } else {
      ClusterRules.RoundFails(cfg, n, env);
    }
    hide Step, Sound, OnRescaleCoordinationDone;
  }

  lemma {:induction false} ResultOf(cfg: Config, n: Node, ok: bool, env: Env)
    requires Sound(cfg, n) && n.pending != [] && n.state != Starting && Possible(n, OperationEnded(0, ok))
    ensures Results(cfg, n, ok, Step(cfg, n, OperationEnded(0, ok), env))
  {
    StatesArePartitioned(n.state);
    if IsFirstBoot(n.state) {
      FirstBootResult(cfg, n, ok, env);
    } else if n.state == RescaleCoordinating {
      RoundResult(cfg, n, ok, env);
    } else {
      ClusterResult(cfg, n, ok, env);
    }
  }

  lemma {:induction false} FinishTells(cfg: Config, m: Machine, move: Move, c: Career)
    requires Good(cfg, m) && Tells(cfg, m, c) && move.Finishes? && Admissible(cfg, m, move) && Undisturbed(move)
    requires m.node.pending != []
    ensures Tells(cfg, Next(cfg, m, move), After(c, Completed(m, move)))
  {
    var run := Play(m.node.pending[0], m.units, move.chances);
    var a := Step(cfg, m.node, OperationEnded(0, run.ok), move.env);
    MoveIsSafe(cfg, m, move);
    ResultFollows(cfg, m, move.chances, move.env);
    ResultOf(cfg, m.node, run.ok, move.env);
    assert Next(cfg, m, move) == Machine(a, run.units, Saved(m, a, Never));
    StatesArePartitioned(m.node.state);
    StatesArePartitioned(a.state);
    hide Step, Play, Next, Sound, UnitsMatch, ChooseInitialState, InCluster, IsFirstBoot;
  }

  // --- Every save that is not cut short stores the record ---

  predicate IsStable(s: State) { s == StableServer || s == StableAgent }

  /** A machine that is installing, rejoining or converting: its next stable state has to be recorded. */
  predicate IsUnderway(s: State) { !IsStable(s) && s != RescaleCoordinating && s != Starting }

  lemma {:induction false} TurnsMakeNobodyStable(cfg: Config, n: Node, e: Event, env: Env)
    requires Sound(cfg, n) && GoodEnv(env) && !e.OperationEnded? && !EarlyConfirmation(cfg, n, e)
    requires IsUnderway(n.state)
    ensures !IsStable(Step(cfg, n, e, env).state)
  {
    TurnFollows(cfg, n, e, env);
    TurnIsSound(cfg, n, e, env);
    hide Step, RoundOk, RecordOk, JoinOk, RoundOperation;
    if n.state == RescalePromoting || n.state == RescaleDemoting {
      assert InCluster(n.state) && n.pending != [];
      match e {
        case MembershipChange => ConvertersWait(cfg, n, e, env);
        case RescaleCheck => ConvertersWait(cfg, n, e, env);
        case _ => OtherTurnsAreQuiet(cfg, n, e, env);
      }
    }
  }

  lemma {:induction false} ConvertersWait(cfg: Config, n: Node, e: Event, env: Env)
    requires InCluster(n.state) && n.state != StableServer && (e == MembershipChange || e == RescaleCheck)
    ensures Step(cfg, n, e, env).state == n.state
  {
    InClusterOnlyRescales(cfg, n, env.view, env.now);
    OnlyStableServersAct(cfg, n, env.view, env.now);
    hide MaybeRescale, OnMembershipChange;
  }

  lemma {:induction false} ResultsMakeStable(cfg: Config, n: Node, ok: bool, env: Env)
    requires Sound(cfg, n) && n.pending != [] && IsUnderway(n.state) && Possible(n, OperationEnded(0, ok))
    ensures var a := Step(cfg, n, OperationEnded(0, ok), env);
            IsStable(a.state) ==> a.persisted.Some? && a.persisted != n.persisted
  {
    hide Step, RoundOk, RoundOperation;
    ResultOf(cfg, n, ok, env);
    FirstBootRules.FirstBootResults(cfg, n, ok, env);
    if n.state == RejoinCluster {
      ClusterRules.RejoinRule(cfg, n, ok, env);
    } else if n.state == RescalePromoting || n.state == RescaleDemoting {
      ClusterRules.ConversionRule(cfg, n, ok, env);
    } else if n.state == JoiningCleanup && ok {
      FirstBootRules.RequestRule(cfg, n, env);
    }
  }

  /** Whoever becomes stable, by an installation, a rejoin or a conversion, has its new record in the file. */
  lemma {:induction false} BecomingStableSaves(cfg: Config, m: Machine, move: Move)
    requires Good(cfg, m) && Admissible(cfg, m, move) && !move.Crashes? && Undisturbed(move)
    requires IsUnderway(m.node.state) && IsStable(Next(cfg, m, move).node.state)
    ensures var k := Next(cfg, m, move);
            && k.node.persisted.Some? && k.file == Loaded(k.node.persisted.value)
            && k.node.persisted != m.node.persisted
  {
    if move.Turns? {
      hide Step, Sound, IsStable, IsUnderway;
      TurnsMakeNobodyStable(cfg, m.node, move.event, move.env);
    } else {
      var run := Play(m.node.pending[0], m.units, move.chances);
      var a := Step(cfg, m.node, OperationEnded(0, run.ok), move.env);
      assert Next(cfg, m, move) == Machine(a, run.units, Saved(m, a, Never));
      hide Step, Play, Sound, UnitsMatch, Next;
      ResultFollows(cfg, m, move.chances, move.env);
      ResultsMakeStable(cfg, m.node, run.ok, move.env);
    }
  }

  // --- Over a whole life ---

  /** Each move of an undisturbed life keeps the file, the record and the career in agreement. */
  lemma {:induction false} MoveTells(cfg: Config, m: Machine, move: Move, c: Career)
    requires Good(cfg, m) && Tells(cfg, m, c) && Admissible(cfg, m, move) && Undisturbed(move)
    ensures Good(cfg, Next(cfg, m, move)) && Tells(cfg, Next(cfg, m, move), After(c, Completed(m, move)))
  {
    MoveIsSafe(cfg, m, move);
    if move.Finishes? && m.node.pending != [] {
      FinishTells(cfg, m, move, c);
    } else {
      hide Next, DiskOk, Tells, Admissible;
      match move {
        case Turns(_, _, _) => TurnTells(cfg, m, move, c);
        case Crashes(_, _, _) => CrashTells(cfg, m, move, c);
        case Finishes(chances, env, stop) => NothingFinishes(cfg, m, chances, env, stop);
      }
    }
  }

  /** A machine as it leaves the factory, booted for the first time. */
  function CleanMachine(cfg: Config): (m: Machine) {
    Machine(ChooseInitialState(cfg, Fresh(), Missing), NO_UNITS, Missing)
  }

  predicate UndisturbedLife(moves: seq<Move>) {
    forall i :: 0 <= i < |moves| ==> Undisturbed(moves[i])
  }

  lemma {:induction false} LifeTells(cfg: Config, moves: seq<Move>)
    requires cfg.name != "" && AdmissibleLife(cfg, CleanMachine(cfg), moves) && UndisturbedLife(moves)
    ensures var m := Life(cfg, CleanMachine(cfg), moves);
            Good(cfg, m) && Tells(cfg, m, CareerOf(cfg, CleanMachine(cfg), moves))
  {
    CleanMachineIsOk(cfg);
    if moves != [] {
      hide DiskOk, Tells, Next, Admissible, Completed, After, Undisturbed, ChooseInitialState;
      var before, last := moves[..|moves| - 1], moves[|moves| - 1];
      LifeTells(cfg, before);
      MoveTells(cfg, Life(cfg, CleanMachine(cfg), before), last, CareerOf(cfg, CleanMachine(cfg), before));
    }
  }

  /**
   * Over any life from a clean disk, crashes at any point included, in which no save is cut short: there is
   * no file until the first installation is completed, and from then on the file names this machine, the role
   * it last completed, and one boot more than the rejoins it completed. A stable machine works with exactly
   * this record. A crash at this point, if the file can be read, boots into waiting for exactly this role.
   */
  lemma {:induction false} TheFileTellsTheLife(cfg: Config, moves: seq<Move>, crash: Move)
    requires cfg.name != "" && AdmissibleLife(cfg, CleanMachine(cfg), moves) && UndisturbedLife(moves)
    requires crash.Crashes? && !crash.unreadable
    ensures var m := Life(cfg, CleanMachine(cfg), moves); var c := CareerOf(cfg, CleanMachine(cfg), moves);
            var booted := Next(cfg, m, crash).node;
            && (c.role.None? ==> m.file == Missing && booted.state == Discovering && booted.pending == [])
            && (c.role.Some? ==>
                  && m.file.Loaded? && m.file.persisted.nodeName == cfg.name && m.file.persisted.role == c.role.value
                  && m.file.persisted.bootCount == 1 + c.rejoins
                  && booted.state == RejoinCluster && booted.pending == [WaitRejoin(c.role.value)])
            && (m.node.state == StableServer || m.node.state == StableAgent ==>
                  && c.role == Some(if m.node.state == StableServer then Server else Agent)
                  && m.node.persisted.Some? && m.file == Loaded(m.node.persisted.value))
  {
    var m := Life(cfg, CleanMachine(cfg), moves);
    LifeTells(cfg, moves);
    ClusterRules.BootRule(cfg, m.file);
    hide Life, CareerOf, ChooseInitialState, UnitsAfter, Play, TokenOk, RoundOk, JoinOk;
  }
}

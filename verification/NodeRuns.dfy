/** What holds of one machine over every interleaving of events, timers, user actions and results. */
module NodeRuns {
  import opened Names
  import opened Lifecycle
  import opened ClusterView
  import opened NodeStep
  import ViewLaws

  predicate IsKnown(r: Role) { r == Server || r == Agent }

  /** A turn happens at a real instant and sees well-named members. */
  ghost predicate GoodEnv(env: Env) {
    env.now > NO_TIME && WellNamed(env.view)
  }

  /** A conversion only succeeds once the installed role is the ordered one, and K3s has two roles. */
  predicate Possible(n: Node, e: Event) {
    e.OperationEnded? && e.ok && e.which < |n.pending| && n.pending[e.which].ConvertTo? ==>
      IsKnown(n.pending[e.which].order.role)
  }

  /** What the state file can hold once validated. */
  predicate ValidFile(file: LoadResult) {
    file.Loaded? ==> IsKnown(file.persisted.role) && file.persisted.nodeName != ""
  }

  // --- The invariant ---

  /** The operation outstanding in each state: at most one, and the one that state is waiting for. */
  predicate TokenOk(n: Node) {
    match n.state
    case BootstrapInstallInit => n.pending == [InstallServerInit]
    case BootstrapInstallServer => |n.pending| == 1 && n.pending[0].InstallServerJoin?
    case BootstrapInstallAgent => |n.pending| == 1 && n.pending[0].InstallAgent?
    case JoiningCleanup => n.pending == [] || n.pending == [CheckNotInstalled]
    case JoiningAgent => |n.pending| == 1 && n.pending[0].InstallAgent?
    case RejoinCluster => n.persisted.Some? && n.pending == [WaitRejoin(n.persisted.value.role)]
    case RescaleCoordinating => n.pending == [RoundOperation(n.rescale)]
    case RescalePromoting | RescaleDemoting => n.pending == [ConvertTo(n.rescale.order)]
    case _ => n.pending == []
  }

  /** The cluster-side work of the round a coordinator is driving. */
  function RoundOperation(r: Rescale): (op: Operation) {
    if r.cleaning != "" then EraseLeftover(r.cleaning)
    else if r.order.target != "" then PrepareConversion(r.order.target)
    else DeleteEvicted(r.evicting)
  }

  /** One kind of round at a time, run without a timer, and nothing left over outside a round. */
  predicate RoundOk(cfg: Config, n: Node) {
    var r := n.rescale;
    match n.state
    case RescaleCoordinating =>
      r.timer == NO_TIME && (
      || (r.cleaning != "" && r.order == NO_ORDER && r.evicting == [])
      || (r.cleaning == "" && r.order.target != "" && r.evicting == [])
      || (r.cleaning == "" && r.order == NO_ORDER && r.evicting != []))
    case RescalePromoting =>
      r.order.target == cfg.name && r.order.role == Server && r.evicting == [] && r.cleaning == ""
    case RescaleDemoting =>
      r.order.target == cfg.name && r.order.role != Server && r.evicting == [] && r.cleaning == ""
    case _ => r.order == NO_ORDER && r.evicting == [] && r.cleaning == ""
  }

  /** The persisted record: absent during a first boot, of the matching role afterwards. */
  predicate RecordOk(cfg: Config, n: Node) {
    match n.state
    case StableServer | RescaleCoordinating | RescaleDemoting => HasRole(cfg, n, Server)
    case StableAgent | RescalePromoting => HasRole(cfg, n, Agent)
    case RejoinCluster | RescaleFailed => HasRole(cfg, n, Server) || HasRole(cfg, n, Agent)
    case RejoinFailed => true
    case _ => n.persisted.None?
  }

  predicate HasRole(cfg: Config, n: Node, role: Role) {
    n.persisted.Some? && n.persisted.value.role == role && n.persisted.value.nodeName == cfg.name
  }

  /** Where a joiner stands: it asks once settled, and installs only once confirmed. */
  predicate JoinOk(n: Node) {
    match n.state
    case JoiningCleanup => n.joining.settled && !n.joining.cleaned
    case JoiningAgent => n.joining.settled && n.joining.cleaned
    case JoiningWaiting | JoiningFailed => true
    case _ => IsFirstBoot(n.state) ==> !n.joining.cleaned && !n.joining.settled
  }

  ghost predicate Sound(cfg: Config, n: Node) {
    && cfg.name != ""
    && !n.state.Unrecognised?
    && TokenOk(n) && RoundOk(cfg, n) && RecordOk(cfg, n) && JoinOk(n)
  }

  /** A confirmation that overtakes this machine's own check for a left-over installation. */
  predicate EarlyConfirmation(cfg: Config, n: Node, e: Event) {
    && n.state == JoiningCleanup
    && n.pending != []
    && e == UserEventReceived(Forgotten(Some(cfg.name)))
  }

  lemma {:induction false} BootIsSound(cfg: Config, file: LoadResult)
    requires cfg.name != "" && ValidFile(file)
    ensures Sound(cfg, ChooseInitialState(cfg, Fresh(), file))
  {}

  // --- One turn ---

  /** All a rescaling turn can do: rewrite its own record, or start one round from the stable state. */
  predicate RescaleEffect(n: Node, m: Node) {
    || m == n.(rescale := m.rescale)
    || (n.state == StableServer && |m.pending| == |n.pending| + 1
        && m == StartRound(n.(rescale := m.rescale), m.pending[|n.pending|]))
  }

  lemma {:induction false} ResizeEffect(cfg: Config, n: Node, v: View, now: Time, next: Time)
    requires n.state == StableServer
    ensures RescaleEffect(n, Resize(cfg, n, v, now, next))
    ensures Sound(cfg, n) ==> Sound(cfg, Resize(cfg, n, v, now, next))
  {}

  lemma {:induction false} RepairEffect(cfg: Config, n: Node, v: View, now: Time)
    requires n.state == StableServer
    ensures RescaleEffect(n, Repair(cfg, n, v, now))
    ensures Sound(cfg, n) ==> Sound(cfg, Repair(cfg, n, v, now))
  {
    hide Resize, Evictable, NextEviction;
    ResizeEffect(cfg, n, v, now, NextEviction(v, n.rescale.failedSince, cfg.grace, now));
  }

  lemma {:induction false} MaybeRescaleEffect(cfg: Config, n: Node, v: View, now: Time)
    ensures RescaleEffect(n, MaybeRescale(cfg, n, v, now))
    ensures Sound(cfg, n) ==> Sound(cfg, MaybeRescale(cfg, n, v, now))
  {
    hide Repair, TrackFailures, IsCoordinator, EtcdIsChanging;
    if n.state == StableServer {
      RepairEffect(cfg,
        n.(rescale := n.rescale.(failedSince := TrackFailures(n.rescale.failedSince, FailedNames(v), now))), v, now);
    }
  }

  /** A machine in the cluster takes no part in the first-boot workflows. */
  lemma {:induction false} InClusterOnlyRescales(cfg: Config, n: Node, v: View, now: Time)
    requires InCluster(n.state)
    ensures OnMembershipChange(cfg, n, v, now) == MaybeRescale(cfg, n, v, now)
  {
    hide MaybeRescale;
  }

  /** A round that ends leaves its coordinator stable, or driving the next one. */
  lemma {:induction false} CoordinationDoneEffect(cfg: Config, n: Node, env: Env)
    requires n.state == RescaleCoordinating
    ensures var m := OnRescaleCoordinationDone(cfg, n, env);
            && (m.state == StableServer || m.state == RescaleCoordinating)
            && m.persisted == n.persisted && m.bootstrap == n.bootstrap && m.joining == n.joining
  {
    hide MaybeRescale;
    if n.rescale.cleaning != "" {
      var done := Publish(n.(rescale := n.rescale.(cleaning := "")), StableServer);
      MaybeRescaleEffect(cfg, ConfirmForgotten(done, n.rescale.cleaning, env.sendOk), env.view, env.now);
    } else if n.rescale.order.target == "" {
      var removed := set name | name in n.rescale.evicting && name in env.removable;
      var done := n.(rescale := n.rescale.(failedSince := n.rescale.failedSince - removed, evicting := []));
      MaybeRescaleEffect(cfg, Publish(done, StableServer), env.view, env.now);
    }
  }

  /** Outside the stable server's state, an evaluation only updates the failure clock. */
  lemma {:induction false} OnlyStableServersAct(cfg: Config, n: Node, v: View, now: Time)
    requires n.state != StableServer
    ensures var m := MaybeRescale(cfg, n, v, now); m == n.(rescale := n.rescale.(failedSince := m.rescale.failedSince))
  {
    hide Repair, TrackFailures;
  }

  /** On which side of the lifecycle a turn that brings no result leaves the machine. */
  predicate SameSide(from: State, to: State) {
    && (IsFirstBoot(to) ==> IsFirstBoot(from))
    && (to == StableServer || to == RescaleCoordinating || to == RescaleDemoting ==>
          from == StableServer || from == RescaleCoordinating || from == RescaleDemoting)
    && (to == StableAgent || to == RescalePromoting ==> from == StableAgent || from == RescalePromoting)
    && (to == RejoinFailed ==> from == RejoinFailed)
    && (to == Starting ==> from == Starting)
  }

  /** What a turn that neither evaluates the cluster nor brings a result leaves alone. */
  predicate QuietTurn(n: Node, m: Node) {
    && m.persisted == n.persisted
    && m.rescale.failedSince == n.rescale.failedSince
    && m.rescale.imbalanceSince == n.rescale.imbalanceSince
    && m.rescale.retryNotBefore == n.rescale.retryNotBefore
    && (m.pending == n.pending ||
        (|m.pending| == |n.pending| + 1 && n.pending <= m.pending
         && !m.pending[|n.pending|].DeleteEvicted? && !m.pending[|n.pending|].PrepareConversion?))
    && (m.published == n.published || m.state != RescaleCoordinating || m.rescale.order.target == "")
    && SameSide(n.state, m.state)
  }

  lemma {:induction false} FirstBootStepsAreQuiet(n: Node, v: View)
    ensures QuietTurn(n, MaybeJoinCluster(n, v)) && QuietTurn(n, MaybeStartJoiningPath(n, v))
    ensures QuietTurn(n, MaybeInstallAgent(MaybeInstallServer(n, v), v))
    ensures MaybeJoinCluster(n, v).rescale == n.rescale && MaybeStartJoiningPath(n, v).rescale == n.rescale
    ensures MaybeInstallAgent(MaybeInstallServer(n, v), v).rescale == n.rescale
  {
    hide Lowest, StableServerCount, ServerTarget;
  }

  /** The first-boot half of a membership change. */
  function FirstBootSteps(n: Node, v: View): (m: Node) {
    MaybeInstallAgent(MaybeInstallServer(MaybeJoinCluster(MaybeStartJoiningPath(n, v), v), v), v)
  }

  /** The first-boot steps are for first boots, and leave them in their first boot. */
  lemma {:induction false} FirstBootStepsAreForFirstBoots(n: Node, v: View)
    ensures IsFirstBoot(FirstBootSteps(n, v).state) <==> IsFirstBoot(n.state)
    ensures !IsFirstBoot(n.state) ==> FirstBootSteps(n, v) == n
  {
    hide Lowest, StableServerCount, ServerTarget;
  }

  lemma {:induction false} MembershipIsQuietThenRescales(cfg: Config, n: Node, v: View, now: Time)
    ensures OnMembershipChange(cfg, n, v, now) == MaybeRescale(cfg, FirstBootSteps(n, v), v, now)
    ensures QuietTurn(n, FirstBootSteps(n, v)) && FirstBootSteps(n, v).rescale == n.rescale
  {
    hide MaybeRescale;
    var a := MaybeStartJoiningPath(n, v);
    if a == n {
      if MaybeJoinCluster(n, v) == n {
        FirstBootStepsAreQuiet(n, v);
      } else {
        OnlyOneStep(n, v);
        FirstBootStepsAreQuiet(n, v);
      }
    } else {
      DivertIsTheOnlyStep(n, v);
      FirstBootStepsAreQuiet(n, v);
      FirstBootStepsAreQuiet(a, v);
    }
  }

  lemma {:induction false} OnlyOneStep(n: Node, v: View)
    requires MaybeStartJoiningPath(n, v) == n && MaybeJoinCluster(n, v) != n
    ensures FirstBootSteps(n, v) == MaybeJoinCluster(n, v)
  {
    hide Lowest, StableServerCount, ServerTarget;
  }

  lemma {:induction false} DivertIsTheOnlyStep(n: Node, v: View)
    requires MaybeStartJoiningPath(n, v) != n
    ensures FirstBootSteps(n, v) == MaybeJoinCluster(MaybeStartJoiningPath(n, v), v)
    ensures var a := MaybeStartJoiningPath(n, v);
            a.pending == n.pending && SameSide(n.state, a.state) && IsFirstBoot(n.state)
    ensures MaybeStartJoiningPath(n, v).state == JoiningWaiting
  {
    hide Lowest, StableServerCount, ServerTarget;
  }

  lemma {:induction false} UserEventsAreQuiet(cfg: Config, n: Node, event: UserEvent, env: Env)
    ensures QuietTurn(n, OnUserEvent(cfg, n, event, env))
  {
    hide MaybeRescale, RankOf, AliveNames, ExistingClusterSeen, CanForget, MaybeInstallAgent, MaybeInstallServer,
         MaybeJoinCluster;
    if event == BootstrapStart && n.state == BootstrapWaiting && RankOf(AliveNames(env.view), cfg.name) > 0 {
      FirstBootStepsAreQuiet(AssignRole(n, AliveNames(env.view), RankOf(AliveNames(env.view), cfg.name)), env.view);
    } else if event == Forgotten(Some(cfg.name)) && n.state == JoiningCleanup {
      FirstBootStepsAreQuiet(Publish(n, JoiningWaiting).(joining := n.joining.(timer := false, cleaned := true)),
        env.view);
    }
  }

  lemma {:induction false} ProbesAreQuiet(cfg: Config, n: Node, name: Name, found: bool, v: View, sendOk: bool)
    ensures QuietTurn(n, OnForgetProbed(cfg, n, name, found, v, sendOk))
  {
    hide IsVirgin, IsCoordinator, EtcdIsChanging;
  }

  lemma {:induction false} WaitIsQuiet(n: Node, v: View)
    ensures QuietTurn(n, OnJoinWaitExpired(n, v))
  {
    hide MaybeJoinCluster;
    FirstBootStepsAreQuiet(n.(joining := n.joining.(settled := true, timer := false)), v);
  }

  lemma {:induction false} OtherTurnsAreQuiet(cfg: Config, n: Node, e: Event, env: Env)
    requires !e.MembershipChange? && !e.RescaleCheck? && !e.OperationEnded?
    ensures QuietTurn(n, Step(cfg, n, e, env))
  {
    hide MaybeRescale, OnUserEvent, OnForgetProbed, OnJoinWaitExpired, ExistingClusterSeen;
    match e {
      case UserEventReceived(event) => UserEventsAreQuiet(cfg, n, event, env);
      case JoinWaitExpired => WaitIsQuiet(n, env.view);
      case ForgetProbed(name, found) => ProbesAreQuiet(cfg, n, name, found, env.view, env.sendOk);
      case _ =>
    }
  }

  lemma {:induction false} JoiningStepsAreSound(cfg: Config, n: Node, v: View)
    requires Sound(cfg, n)
    ensures Sound(cfg, MaybeJoinCluster(n, v))
    ensures Sound(cfg, MaybeStartJoiningPath(n, v))
    ensures Sound(cfg, MaybeInstallServer(n, v))
    ensures Sound(cfg, MaybeInstallAgent(n, v))
  {
    hide Lowest, StableServerCount, ServerTarget;
  }

  lemma {:induction false} MembershipChangeIsSound(cfg: Config, n: Node, v: View, now: Time)
    requires Sound(cfg, n) && WellNamed(v)
    ensures Sound(cfg, OnMembershipChange(cfg, n, v, now))
  {
    var a := MaybeStartJoiningPath(n, v);
    JoiningStepsAreSound(cfg, n, v);
    JoiningStepsAreSound(cfg, a, v);
    var b := MaybeJoinCluster(a, v);
    JoiningStepsAreSound(cfg, b, v);
    var c := MaybeInstallServer(b, v);
    JoiningStepsAreSound(cfg, c, v);
    MaybeRescaleEffect(cfg, MaybeInstallAgent(c, v), v, now);
  }

  lemma {:induction false} CoordinationDoneIsSound(cfg: Config, n: Node, env: Env)
    requires Sound(cfg, n) && n.state == RescaleCoordinating && WellNamed(env.view)
    ensures Sound(cfg, OnRescaleCoordinationDone(cfg, Retire(n, 0), env))
  {
    hide MaybeRescale;
    var r := Retire(n, 0);
    assert r.pending == [];
    if r.rescale.cleaning != "" {
      var done := Publish(r.(rescale := r.rescale.(cleaning := "")), StableServer);
      MaybeRescaleEffect(cfg, ConfirmForgotten(done, r.rescale.cleaning, env.sendOk), env.view, env.now);
    } else if r.rescale.order.target == "" {
      var removed := set name | name in r.rescale.evicting && name in env.removable;
      var done := r.(rescale := r.rescale.(failedSince := r.rescale.failedSince - removed, evicting := []));
      MaybeRescaleEffect(cfg, Publish(done, StableServer), env.view, env.now);
    }
  }

  lemma {:induction false} InstallResultIsSound(cfg: Config, n: Node, r: Node, ok: bool, env: Env)
    requires Sound(cfg, n) && IsFirstBoot(n.state) && |n.pending| == 1 && r == n.(pending := [])
    ensures Sound(cfg, if ok then OnSuccess(cfg, r, env) else OnFailure(cfg, r, env))
  {
    hide OnRescaleCoordinationDone, AbandonCoordination, OnRescaleConverted;
  }

  lemma {:induction false} ClusterResultIsSound(cfg: Config, n: Node, r: Node, ok: bool, env: Env)
    requires Sound(cfg, n) && (n.state == RejoinCluster || n.state == RescalePromoting || n.state == RescaleDemoting)
    requires |n.pending| == 1 && r == n.(pending := [])
    requires Possible(n, OperationEnded(0, ok))
    ensures Sound(cfg, if ok then OnSuccess(cfg, r, env) else OnFailure(cfg, r, env))
  {
    hide OnRescaleCoordinationDone, AbandonCoordination, OnBootstrapInstallSucceeded, OnJoiningCleanupChecked;
  }

  lemma {:induction false} ResultIsSound(cfg: Config, n: Node, which: nat, ok: bool, env: Env)
    requires Sound(cfg, n) && GoodEnv(env) && Possible(n, OperationEnded(which, ok))
    ensures Sound(cfg, OnOperationEnded(cfg, n, which, ok, env))
  {
    hide OnRescaleCoordinationDone;
    if which < |n.pending| {
      var r := Retire(n, which);
      assert which == 0 && |n.pending| == 1 && r == n.(pending := []);
      if n.state != RescaleCoordinating {
        if IsFirstBoot(n.state) {
          InstallResultIsSound(cfg, n, r, ok, env);
        } else {
          ClusterResultIsSound(cfg, n, r, ok, env);
        }
      } else if ok {
        CoordinationDoneIsSound(cfg, n, env);
      }
    }
  }

  lemma {:induction false} BootstrapStartIsSound(cfg: Config, n: Node, v: View)
    requires Sound(cfg, n)
    ensures Sound(cfg, OnBootstrapStart(cfg, n, v))
  {
    hide MaybeInstallServer, MaybeInstallAgent, RankOf, AliveNames, ExistingClusterSeen;
    var rank := RankOf(AliveNames(v), cfg.name);
    if n.state == BootstrapWaiting && rank > 0 {
      var a := AssignRole(n, AliveNames(v), rank);
      JoiningStepsAreSound(cfg, a, v);
      JoiningStepsAreSound(cfg, MaybeInstallServer(a, v), v);
    }
  }

  /** A confirmation is sound for a machine that has sent its request, and only for that one. */
  lemma {:induction false} ForgottenIsSound(cfg: Config, n: Node, name: Option<Name>, v: View)
    requires Sound(cfg, n)
    ensures Sound(cfg, OnForgotten(cfg, n, name, v)) <==> !EarlyConfirmation(cfg, n, UserEventReceived(Forgotten(name)))
  {
    hide Lowest;
  }

  lemma {:induction false} UserEventIsSound(cfg: Config, n: Node, event: UserEvent, env: Env)
    requires Sound(cfg, n)
    ensures Sound(cfg, OnUserEvent(cfg, n, event, env)) <==> !EarlyConfirmation(cfg, n, UserEventReceived(event))
  {
    hide OnBootstrapStart, OnForgotten, CanForget;
    match event {
      case BootstrapStart => BootstrapStartIsSound(cfg, n, env.view);
      case Forgotten(name) => ForgottenIsSound(cfg, n, name, env.view);
      case _ =>
    }
  }

  /** One turn keeps the invariant exactly when it is not a confirmation arriving too early. */
  lemma {:induction false} TurnIsSound(cfg: Config, n: Node, e: Event, env: Env)
    requires Sound(cfg, n) && GoodEnv(env) && Possible(n, e)
    ensures Sound(cfg, Step(cfg, n, e, env)) <==> !EarlyConfirmation(cfg, n, e)
  {
    hide OnMembershipChange, OnUserEvent, MaybeRescale, OnOperationEnded, Lowest;
    match e {
      case MembershipChange => MembershipChangeIsSound(cfg, n, env.view, env.now);
      case UserEventReceived(event) => UserEventIsSound(cfg, n, event, env);
      case RescaleCheck => MaybeRescaleEffect(cfg, n, env.view, env.now);
      case OperationEnded(which, ok) => ResultIsSound(cfg, n, which, ok, env);
      case ForgetProbed(name, found) =>
        if IsVirgin(env.view, name) {
          ViewLaws.VirginIsSeen(env.view, name);
        }
      case _ =>
    }
  }

  // --- Runs ---

  datatype Turn = Turn(event: Event, env: Env)

  function Run(cfg: Config, n: Node, turns: seq<Turn>): (m: Node) {
    if turns == [] then n
    else
      var last := turns[|turns| - 1];
      Step(cfg, Run(cfg, n, turns[..|turns| - 1]), last.event, last.env)
  }

  ghost predicate Legal(cfg: Config, n: Node, turns: seq<Turn>) {
    turns != [] ==>
      var before, last := turns[..|turns| - 1], turns[|turns| - 1];
      Legal(cfg, n, before) && GoodEnv(last.env) && Possible(Run(cfg, n, before), last.event)
  }

  /** No confirmation of the run overtakes the local check. */
  ghost predicate Timely(cfg: Config, n: Node, turns: seq<Turn>) {
    turns != [] ==>
      var before, last := turns[..|turns| - 1], turns[|turns| - 1];
      Timely(cfg, n, before) && !EarlyConfirmation(cfg, Run(cfg, n, before), last.event)
  }

  lemma {:induction false} TimelyRunsAreSound(cfg: Config, n: Node, turns: seq<Turn>)
    requires Sound(cfg, n) && Legal(cfg, n, turns) && Timely(cfg, n, turns)
    ensures Sound(cfg, Run(cfg, n, turns))
  {
    if turns != [] {
      var before, last := turns[..|turns| - 1], turns[|turns| - 1];
      TimelyRunsAreSound(cfg, n, before);
      TurnIsSound(cfg, Run(cfg, n, before), last.event, last.env);
    }
  }

  /** Every state of a run satisfies the invariant. */
  ghost predicate SoundThroughout(cfg: Config, n: Node, turns: seq<Turn>) {
    Sound(cfg, Run(cfg, n, turns)) && (turns != [] ==> SoundThroughout(cfg, n, turns[..|turns| - 1]))
  }

  /** The invariant holds throughout a run exactly when no confirmation of that run comes too early. */
  lemma {:induction false} SoundExactlyWhenTimely(cfg: Config, n: Node, turns: seq<Turn>)
    requires Sound(cfg, n) && Legal(cfg, n, turns)
    ensures SoundThroughout(cfg, n, turns) <==> Timely(cfg, n, turns)
  {
    if turns != [] {
      var before, last := turns[..|turns| - 1], turns[|turns| - 1];
      SoundExactlyWhenTimely(cfg, n, before);
      if Timely(cfg, n, before) {
        TimelyRunsAreSound(cfg, n, before);
        TurnIsSound(cfg, Run(cfg, n, before), last.event, last.env);
      }
    }
  }

  /** The states whose workflow is told the result of an operation. */
  predicate AwaitsResult(s: State) {
    s.BootstrapInstallInit? || s.BootstrapInstallServer? || s.BootstrapInstallAgent?
    || s.JoiningCleanup? || s.JoiningAgent? || s.RejoinCluster?
    || s.RescaleCoordinating? || s.RescalePromoting? || s.RescaleDemoting?
  }

  /** Which states start an operation. */
  predicate IsStartedIn(op: Operation, s: State) {
    match op
    case InstallServerInit => s == BootstrapInstallInit
    case InstallServerJoin(_) => s == BootstrapInstallServer
    case InstallAgent(_) => s == BootstrapInstallAgent || s == JoiningAgent
    case CheckNotInstalled => s == JoiningCleanup
    case WaitRejoin(_) => s == RejoinCluster
    case DeleteEvicted(_) => s == RescaleCoordinating
    case PrepareConversion(_) => s == RescaleCoordinating
    case EraseLeftover(_) => s == RescaleCoordinating
    case ConvertTo(order) => s == if order.role == Server then RescalePromoting else RescaleDemoting
  }

  /**
   * From any boot, over any run with no early confirmation: at most one operation is outstanding,
   * and whenever a result can arrive, the machine is still in the state that started it.
   */
  lemma {:induction false} OneOperationAtATime(cfg: Config, file: LoadResult, turns: seq<Turn>)
    requires cfg.name != "" && ValidFile(file)
    requires var n := ChooseInitialState(cfg, Fresh(), file); Legal(cfg, n, turns) && Timely(cfg, n, turns)
    ensures var end := Run(cfg, ChooseInitialState(cfg, Fresh(), file), turns);
            && |end.pending| <= 1
            && (end.pending != [] ==> AwaitsResult(end.state) && IsStartedIn(end.pending[0], end.state))
  {
    BootIsSound(cfg, file);
    TimelyRunsAreSound(cfg, ChooseInitialState(cfg, Fresh(), file), turns);
  }

  /** At most one operation, in the state that started it. */
  predicate OneOperation(n: Node) {
    |n.pending| <= 1 && (n.pending != [] ==> IsStartedIn(n.pending[0], n.state))
  }

  lemma {:induction false} SoundMeansOneOperation(cfg: Config, n: Node)
    requires Sound(cfg, n)
    ensures OneOperation(n)
  {}

  lemma {:induction false} EarlyMeansTwo(cfg: Config, n: Node, e: Event, env: Env)
    requires Sound(cfg, n) && EarlyConfirmation(cfg, n, e)
    ensures !OneOperation(Step(cfg, n, e, env))
  {
    hide Lowest;
    assert Lowest(env.view, StableServer).name != "" ==> |Step(cfg, n, e, env).pending| == 2;
  }

  /** One turn keeps a single operation in its own state exactly when it is not a confirmation arriving too early. */
  lemma {:induction false} TokenIsLostExactlyEarly(cfg: Config, n: Node, e: Event, env: Env)
    requires Sound(cfg, n) && GoodEnv(env) && Possible(n, e)
    ensures OneOperation(Step(cfg, n, e, env)) <==> !EarlyConfirmation(cfg, n, e)
  {
    hide Step, Sound, OneOperation, EarlyConfirmation;
    TurnIsSound(cfg, n, e, env);
    if EarlyConfirmation(cfg, n, e) {
      EarlyMeansTwo(cfg, n, e, env);
    } else {
      SoundMeansOneOperation(cfg, Step(cfg, n, e, env));
    }
  }

  ghost predicate OneOperationThroughout(cfg: Config, n: Node, turns: seq<Turn>) {
    OneOperation(Run(cfg, n, turns)) && (turns != [] ==> OneOperationThroughout(cfg, n, turns[..|turns| - 1]))
  }

  /** The same over whole runs. */
  lemma {:induction false} OneOperationExactlyWhenTimely(cfg: Config, n: Node, turns: seq<Turn>)
    requires Sound(cfg, n) && Legal(cfg, n, turns)
    ensures OneOperationThroughout(cfg, n, turns) <==> Timely(cfg, n, turns)
  {
    hide Step, Sound, OneOperation, EarlyConfirmation;
    if turns == [] {
      SoundMeansOneOperation(cfg, n);
    } else {
      var before, last := turns[..|turns| - 1], turns[|turns| - 1];
      OneOperationExactlyWhenTimely(cfg, n, before);
      if Timely(cfg, n, before) {
        TimelyRunsAreSound(cfg, n, before);
        TokenIsLostExactlyEarly(cfg, Run(cfg, n, before), last.event, last.env);
      }
    }
  }

  lemma {:induction false} RunAppend(cfg: Config, n: Node, turns: seq<Turn>, t: Turn)
    ensures Run(cfg, n, turns + [t]) == Step(cfg, Run(cfg, n, turns), t.event, t.env)
  {
    assert (turns + [t])[..|turns|] == turns;
  }

  lemma {:induction false} NewcomerDiverts(cfg: Config, env: Env)
    requires Lowest(env.view, StableServer).name != ""
    ensures var n := Step(cfg, ChooseInitialState(cfg, Fresh(), Missing), MembershipChange, env);
            n.state == JoiningWaiting && n.pending == [] && !n.joining.cleaned
  {}

  lemma {:induction false} JoinerSettles(cfg: Config, n: Node, env: Env)
    requires n.state == JoiningWaiting && n.pending == [] && !n.joining.cleaned
               && Lowest(env.view, StableServer).name != ""
    ensures var s := Step(cfg, n, JoinWaitExpired, env);
            s.state == JoiningCleanup && s.pending == [CheckNotInstalled] && s.joining.settled
  {}

  lemma {:induction false} JoinerIsConfirmedEarly(cfg: Config, n: Node, env: Env)
    requires n.state == JoiningCleanup && n.pending == [CheckNotInstalled] && n.joining.settled
    requires Lowest(env.view, StableServer).name != ""
    ensures var s := Step(cfg, n, UserEventReceived(Forgotten(Some(cfg.name))), env);
            s.state == JoiningAgent && s.pending == [CheckNotInstalled, InstallAgent(Lowest(env.view, StableServer).ip)]
  {}

  lemma {:induction false} CheckPassesForInstallation(cfg: Config, n: Node, env: Env)
    requires n.state == JoiningAgent && |n.pending| == 2
    ensures Step(cfg, n, OperationEnded(0, true), env).state == StableAgent
    ensures Step(cfg, n, OperationEnded(0, true), env).pending == [n.pending[1]]
  {
    assert Retire(n, 0).pending == [n.pending[1]];
  }

  /** The turns of a machine whose confirmation overtakes its own check. */
  function EarlyTurns(cfg: Config, env: Env): (s: seq<Turn>) {
    [Turn(MembershipChange, env)] + [Turn(JoinWaitExpired, env)] +
      [Turn(UserEventReceived(Forgotten(Some(cfg.name))), env)]
  }

  /**
   * Next to any running cluster, a confirmation that comes too early starts a second operation, and
   * the answer to the local check then passes for that of the installation: a stable agent whose
   * installation is still running.
   */
  lemma {:induction false} EarlyConfirmationBreaksTheToken(cfg: Config, env: Env)
    requires Lowest(env.view, StableServer).name != ""
    ensures var n := ChooseInitialState(cfg, Fresh(), Missing);
            var install := InstallAgent(Lowest(env.view, StableServer).ip);
            var checked := EarlyTurns(cfg, env) + [Turn(OperationEnded(0, true), env)];
            && Run(cfg, n, EarlyTurns(cfg, env)).pending == [CheckNotInstalled, install]
            && Run(cfg, n, checked).state == StableAgent
            && Run(cfg, n, checked).pending == [install]
  {
    var n := ChooseInitialState(cfg, Fresh(), Missing);
    var t1, t2, t3 := EarlyTurns(cfg, env)[0], EarlyTurns(cfg, env)[1], EarlyTurns(cfg, env)[2];
    NewcomerDiverts(cfg, env);
    JoinerSettles(cfg, Step(cfg, n, t1.event, env), env);
    JoinerIsConfirmedEarly(cfg, Step(cfg, Step(cfg, n, t1.event, env), t2.event, env), env);
    RunAppend(cfg, n, [], t1);
    assert [] + [t1] == [t1];
    RunAppend(cfg, n, [t1], t2);
    RunAppend(cfg, n, [t1] + [t2], t3);
    CheckPassesForInstallation(cfg, Run(cfg, n, EarlyTurns(cfg, env)), env);
    RunAppend(cfg, n, EarlyTurns(cfg, env), Turn(OperationEnded(0, true), env));
  }
}

/**
 * The rules of the first boot, one turn at a time, in terms of what the machine sees: when a cluster may
 * be created, who waits for whom, and when a machine joins instead. No rule names a function of the daemon.
 */
module FirstBootRules {
  import opened Names
  import opened Lifecycle
  import opened ClusterView
  import opened NodeStep
  import opened NodeRuns
  import opened Sights
  import ViewLaws

  /** The states in which a machine can still be diverted to a cluster that is there already. */
  const UNDECIDED_STATES: set<State> := {Discovering, BootstrapConfirm, BootstrapWaiting}

  // --- The buttons and the countdown ---

  /** A cluster is only proposed where none is in sight, and its creation can be called off until confirmed. */
  lemma {:induction false} ButtonRules(cfg: Config, n: Node, env: Env)
    ensures Step(cfg, n, RequestBootstrap, env) ==
            if n.state == Discovering && !SeesCluster(env.view) then
              n.(state := BootstrapConfirm, published := n.published + [BootstrapConfirm])
            else n
    ensures Step(cfg, n, CancelBootstrap, env) ==
            if n.state == BootstrapConfirm then n.(state := Discovering, published := n.published + [Discovering])
            else n
    ensures Step(cfg, n, ConfirmBootstrap, env) ==
            if n.state == BootstrapConfirm && env.sendOk then n.(sent := n.sent + [BootstrapRequested]) else n
  {
    ClusterIsSeen(env.view);
  }

  /** A confirmed creation takes in every undecided machine, which then calls for the start when its wait is over. */
  lemma {:induction false} CountdownRules(cfg: Config, n: Node, env: Env)
    ensures Step(cfg, n, UserEventReceived(BootstrapRequested), env) ==
            if n.state == Discovering || n.state == BootstrapConfirm then
              n.(state := BootstrapWaiting, published := n.published + [BootstrapWaiting],
                 bootstrap := n.bootstrap.(timer := true))
            else n
    ensures Step(cfg, n, BootstrapWaitExpired, env) ==
            if n.state != BootstrapWaiting then n
            else if env.sendOk then n.(sent := n.sent + [BootstrapStart])
            else n.(state := BootstrapFailed, published := n.published + [BootstrapFailed],
                    bootstrap := n.bootstrap.(timer := false))
  {}

  // --- The start ---

  /** The alive machines named before this one. */
  ghost function Before(v: View, self: Name): (s: set<Name>) {
    set x | x in AliveOnes(v) && Less(x, self)
  }

  lemma {:induction false} RankIsBefore(v: View, self: Name)
    requires WellNamed(v)
    ensures RankOf(AliveNames(v), self) == if self in AliveOnes(v) then |Before(v, self)| else -1
  {
    ListsAreSets(v);
    RankCountsSmallerNames(AliveNames(v), self);
    if self in AliveOnes(v) {
      CountOfDistinct(AliveNames(v), Below(self));
      assert Select(AliveNames(v), Below(self)) == Before(v, self);
    }
  }

  /** What a start leaves on a machine of this cohort: its position in it, and the role that goes with it. */
  ghost predicate TakesPlace(n: Node, m: Node, v: View, self: Name) {
    && (forall x :: x in m.bootstrap.members <==> x in AliveOnes(v))
    && m.bootstrap.total == |AliveOnes(v)|
    && m.bootstrap.rank == |Before(v, self)|
    && m.bootstrap.role == (if |Before(v, self)| < ServerTarget(|AliveOnes(v)|) then Server else Agent)
    && !m.bootstrap.timer
    && m.joining == n.joining && m.rescale == n.rescale && m.persisted == n.persisted
    && m.sent == n.sent && m.lookups == n.lookups
  }

  /** The machine stays where it is, or enters a state and starts one operation. */
  ghost predicate Keeps(n: Node, m: Node) {
    m.state == n.state && m.published == n.published && m.pending == n.pending
  }

  ghost predicate Enters(n: Node, m: Node, to: State) {
    m.state == to && m.published == n.published + [to]
  }

  ghost predicate Begins(n: Node, m: Node, to: State, op: Operation) {
    Enters(n, m, to) && m.pending == n.pending + [op]
  }

  /** A machine with a place starts its installation: servers one at a time, agents after the last server. */
  ghost predicate TakesTurn(n: Node, m: Node, v: View, b: Bootstrap) {
    && (forall s :: IsFirst(v, StableServer, s) && b.role == Server && |StableServers(v)| >= b.rank ==>
          Begins(n, m, BootstrapInstallServer, InstallServerJoin(s.ip)))
    && (forall s :: IsFirst(v, StableServer, s) && b.role == Agent && |StableServers(v)| >= ServerTarget(b.total) ==>
          Begins(n, m, BootstrapInstallAgent, InstallAgent(s.ip)))
    && (b.role == Server && |StableServers(v)| < b.rank ==> Keeps(n, m))
    && (b.role == Agent && |StableServers(v)| < ServerTarget(b.total) ==> Keeps(n, m))
    && (b.role != Server && b.role != Agent ==> Keeps(n, m))
    && (StableServers(v) == {} ==> Keeps(n, m))
  }

  /** The server a machine would join is the first stable one, and there is one exactly when any is stable. */
  lemma {:induction false} ServerToJoin(v: View)
    requires WellNamed(v)
    ensures forall s :: IsFirst(v, StableServer, s) ==> s == Lowest(v, StableServer) && s.name != ""
    ensures Lowest(v, StableServer).name == "" <==> StableServers(v) == {}
    ensures StableServerCount(v) == |StableServers(v)|
  {
    FirstIsFound(v, StableServer);
    SizesAreCounted(v);
    hide Lowest, StableServerCount, WellNamed;
    var s := Lowest(v, StableServer);
    if s.name != "" {
      assert s.name in StableServers(v);
    }
  }

  lemma {:induction false} WaitingStep(n: Node, v: View)
    requires WellNamed(v) && n.state == BootstrapWaiting
    ensures var m := MaybeInstallAgent(MaybeInstallServer(n, v), v);
            && TakesTurn(n, m, v, n.bootstrap)
            && m == n.(state := m.state, published := m.published, pending := m.pending)
  {
    ServerToJoin(v);
    hide Lowest, StableServerCount, ServerTarget, WellNamed, IsFirst, StableServers;
  }

  lemma {:induction false} StartOfWaiting(cfg: Config, n: Node, v: View)
    requires WellNamed(v) && n.state == BootstrapWaiting && Before(v, cfg.name) != {} && cfg.name in AliveOnes(v)
    ensures var m := OnBootstrapStart(cfg, n, v); TakesPlace(n, m, v, cfg.name) && TakesTurn(n, m, v, m.bootstrap)
  {
    RankIsBefore(v, cfg.name);
    ListsAreSets(v);
    hide RankOf, AliveNames, WellNamed, MaybeInstallServer, MaybeInstallAgent, Before, AliveOnes;
    var a := AssignRole(n, AliveNames(v), RankOf(AliveNames(v), cfg.name));
    WaitingStep(a, v);
    assert AliveOnes(v) == AliveOnes(v);
    hide TakesTurn, ServerTarget;
    TurnIsTheSame(n, a, OnBootstrapStart(cfg, n, v), v);
  }

  lemma {:induction false} TurnIsTheSame(n: Node, a: Node, m: Node, v: View)
    requires Keeps(n, a) && TakesTurn(a, m, v, a.bootstrap)
    ensures TakesTurn(n, m, v, a.bootstrap)
  {}

  lemma {:induction false} StartOfFirst(cfg: Config, n: Node, v: View)
    requires WellNamed(v) && n.state == BootstrapWaiting
    requires cfg.name !in AliveOnes(v) || Before(v, cfg.name) == {}
    ensures var m := OnBootstrapStart(cfg, n, v);
            && (cfg.name !in AliveOnes(v) ==> Enters(n, m, BootstrapFailed) && m.pending == n.pending)
            && (cfg.name in AliveOnes(v) ==> TakesPlace(n, m, v, cfg.name))
            && (cfg.name in AliveOnes(v) && !SeesCluster(v) ==> Begins(n, m, BootstrapInstallInit, InstallServerInit))
            && (cfg.name in AliveOnes(v) && SeesCluster(v) ==> Enters(n, m, BootstrapFailed) && m.pending == n.pending)
  {
    RankIsBefore(v, cfg.name);
    ListsAreSets(v);
    ClusterIsSeen(v);
    hide RankOf, AliveNames, WellNamed, ExistingClusterSeen, SeesCluster, ServerTarget, AliveOnes, Before;
  }

  /**
   * The start, on a waiting machine. One that does not see itself fails. The others take their place among
   * the machines they see; the first of them creates the cluster, unless it sees a machine that belongs to
   * one, alive or failed: then it fails, and nothing is installed. The others wait for their turn.
   */
  lemma {:induction false} StartRule(cfg: Config, n: Node, env: Env)
    requires WellNamed(env.view)
    ensures var m := Step(cfg, n, UserEventReceived(BootstrapStart), env);
            && (n.state != BootstrapWaiting ==> m == n)
            && (n.state == BootstrapWaiting && cfg.name !in AliveOnes(env.view) ==>
                  Enters(n, m, BootstrapFailed) && m.pending == n.pending)
            && (n.state == BootstrapWaiting && cfg.name in AliveOnes(env.view) ==>
                  && TakesPlace(n, m, env.view, cfg.name)
                  && (Before(env.view, cfg.name) != {} ==> TakesTurn(n, m, env.view, m.bootstrap))
                  && (Before(env.view, cfg.name) == {} && !SeesCluster(env.view) ==>
                        Begins(n, m, BootstrapInstallInit, InstallServerInit))
                  && (Before(env.view, cfg.name) == {} && SeesCluster(env.view) ==>
                        Enters(n, m, BootstrapFailed) && m.pending == n.pending))
  {
    if n.state == BootstrapWaiting {
      hide OnBootstrapStart, TakesTurn, TakesPlace, Enters, Begins, WellNamed, SeesCluster, AliveOnes, Before;
      assert Step(cfg, n, UserEventReceived(BootstrapStart), env) == OnBootstrapStart(cfg, n, env.view);
      if cfg.name in AliveOnes(env.view) && Before(env.view, cfg.name) != {} {
        StartOfWaiting(cfg, n, env.view);
      } else {
        StartOfFirst(cfg, n, env.view);
      }
    }
  }

  // --- What a membership change does to a first boot ---

  /** Nothing but the first-boot workflows and the failure clock moved. */
  ghost predicate Aside(n: Node, m: Node) {
    && m.persisted == n.persisted && m.sent == n.sent && m.lookups == n.lookups
    && m.rescale == n.rescale.(failedSince := m.rescale.failedSince)
  }

  lemma {:induction false} FirstBootsDoNotEvaluate(cfg: Config, n: Node, env: Env)
    requires IsFirstBoot(n.state)
    ensures var m := Step(cfg, n, MembershipChange, env); var k := FirstBootSteps(n, env.view);
            m == k.(rescale := k.rescale.(failedSince := m.rescale.failedSince))
  {
    FirstBootStepsAreForFirstBoots(n, env.view);
    MembershipIsQuietThenRescales(cfg, n, env.view, env.now);
    OnlyStableServersAct(cfg, FirstBootSteps(n, env.view), env.view, env.now);
    hide OnMembershipChange, FirstBootSteps, MaybeRescale;
  }

  /** A stable server this machine is not building a cluster with is the first one it sees. */
  ghost predicate SeesForeignCluster(n: Node, v: View) {
    exists s :: IsFirst(v, StableServer, s) && s.name !in n.bootstrap.members
  }

  lemma {:induction false} DiversionStep(n: Node, v: View)
    requires WellNamed(v) && n.state in UNDECIDED_STATES && !n.joining.settled
    ensures var m := FirstBootSteps(n, v);
            && (SeesForeignCluster(n, v) ==>
                  m == n.(state := JoiningWaiting, published := n.published + [JoiningWaiting],
                          bootstrap := NO_BOOTSTRAP, joining := n.joining.(timer := true)))
            && (!SeesForeignCluster(n, v) && n.state != BootstrapWaiting ==> m == n)
            && (!SeesForeignCluster(n, v) && n.state == BootstrapWaiting ==>
                  m == MaybeInstallAgent(MaybeInstallServer(n, v), v))
  {
    FirstIsFound(v, StableServer);
    hide Lowest, StableServerCount, ServerTarget, WellNamed, IsFirst;
  }

  /**
   * Until it installs, a first boot gives way to any cluster it is not building itself: the operations are
   * left as they are, its place in the bootstrap is dropped, and it waits for the membership to settle. With
   * no such cluster, a waiting machine with a place takes its turn, and nothing else happens.
   */
  lemma {:induction false} DiversionRule(cfg: Config, n: Node, env: Env)
    requires WellNamed(env.view) && n.state in UNDECIDED_STATES && !n.joining.settled
    ensures var m := Step(cfg, n, MembershipChange, env); var v := env.view;
            && Aside(n, m)
            && (SeesForeignCluster(n, v) ==>
                  && Enters(n, m, JoiningWaiting) && m.pending == n.pending
                  && m.bootstrap == NO_BOOTSTRAP && m.joining == n.joining.(timer := true))
            && (!SeesForeignCluster(n, v) ==>
                  && m.bootstrap == n.bootstrap && m.joining == n.joining
                  && if n.state == BootstrapWaiting then TakesTurn(n, m, v, n.bootstrap) else Keeps(n, m))
  {
    FirstBootsDoNotEvaluate(cfg, n, env);
    DiversionStep(n, env.view);
    hide Step, FirstBootSteps, MaybeInstallServer, MaybeInstallAgent, SeesForeignCluster, WellNamed, TakesTurn;
    if n.state == BootstrapWaiting && !SeesForeignCluster(n, env.view) {
      WaitingStep(n, env.view);
      TurnIsSeen(n, FirstBootSteps(n, env.view), Step(cfg, n, MembershipChange, env), env.view);
    }
  }

  lemma {:induction false} TurnIsSeen(n: Node, k: Node, m: Node, v: View)
    requires TakesTurn(n, k, v, n.bootstrap)
    requires m.state == k.state && m.published == k.published && m.pending == k.pending
    ensures TakesTurn(n, m, v, n.bootstrap)
  {}

  // --- Joining ---

  /** A settled joiner goes on if it sees a server to join: to its own clean-up, or, once confirmed, to K3s. */
  ghost predicate Joins(n: Node, m: Node, v: View, cleaned: bool) {
    && (forall s :: IsFirst(v, StableServer, s) ==>
          if cleaned then Begins(n, m, JoiningAgent, InstallAgent(s.ip))
          else Begins(n, m, JoiningCleanup, CheckNotInstalled))
    && (StableServers(v) == {} ==> Keeps(n, m))
  }

  lemma {:induction false} JoinersOnlyJoin(n: Node, v: View)
    requires n.state == JoiningWaiting
    ensures FirstBootSteps(n, v) == MaybeJoinCluster(n, v)
  {
    hide Lowest, StableServerCount, ServerTarget;
  }

  lemma {:induction false} JoiningStep(n: Node, v: View)
    requires WellNamed(v) && n.state == JoiningWaiting
    ensures var m := MaybeJoinCluster(n, v);
            && m == n.(state := m.state, published := m.published, pending := m.pending)
            && (if n.joining.settled then Joins(n, m, v, n.joining.cleaned) else Keeps(n, m))
            && FirstBootSteps(n, v) == m
  {
    ServerToJoin(v);
    JoinersOnlyJoin(n, v);
    hide Lowest, StableServerCount, WellNamed, IsFirst, StableServers, FirstBootSteps;
  }

  /** The end of the grace period, and every membership change after it. */
  lemma {:induction false} JoinerRule(cfg: Config, n: Node, env: Env)
    requires WellNamed(env.view) && n.state == JoiningWaiting
    ensures var m := Step(cfg, n, JoinWaitExpired, env);
            && Aside(n, m) && m.bootstrap == n.bootstrap
            && m.joining == n.joining.(settled := true, timer := false)
            && Joins(n, m, env.view, n.joining.cleaned)
    ensures var m := Step(cfg, n, MembershipChange, env);
            && Aside(n, m) && m.bootstrap == n.bootstrap && m.joining == n.joining
            && if n.joining.settled then Joins(n, m, env.view, n.joining.cleaned) else Keeps(n, m)
  {
    hide OnMembershipChange, FirstBootSteps, MaybeJoinCluster, WellNamed, Joins;
    var settled := n.(joining := n.joining.(settled := true, timer := false));
    JoiningStep(settled, env.view);
    JoiningIsSeen(settled, n, MaybeJoinCluster(settled, env.view), Step(cfg, n, JoinWaitExpired, env), env.view,
      n.joining.cleaned);
    FirstBootsDoNotEvaluate(cfg, n, env);
    JoiningStep(n, env.view);
    if n.joining.settled {
      JoiningIsSeen(n, n, FirstBootSteps(n, env.view), Step(cfg, n, MembershipChange, env), env.view,
        n.joining.cleaned);
    }
  }

  lemma {:induction false} JoiningIsSeen(n: Node, b: Node, k: Node, m: Node, v: View, cleaned: bool)
    requires Joins(n, k, v, cleaned) && Keeps(n, b)
    requires m.state == k.state && m.published == k.published && m.pending == k.pending
    ensures Joins(b, m, v, cleaned)
  {}

  /**
   * A machine with nothing installed asks to be forgotten, again and again, and only a confirmation that
   * names it lets it go on: with a server in sight, to its installation.
   */
  lemma {:induction false} ConfirmationRule(cfg: Config, n: Node, name: Option<Name>, env: Env)
    requires WellNamed(env.view)
    ensures var m := Step(cfg, n, UserEventReceived(Forgotten(name)), env); var v := env.view;
            && (n.state != JoiningCleanup || name != Some(cfg.name) ==> m == n)
            && (n.state == JoiningCleanup && name == Some(cfg.name) ==>
                  && Aside(n, m) && m.bootstrap == n.bootstrap
                  && m.joining == n.joining.(timer := false, cleaned := true)
                  && (n.joining.settled ==>
                        Joins(n.(state := JoiningWaiting, published := n.published + [JoiningWaiting]), m, v, true)))
  {
    if n.state == JoiningCleanup {
      var k := n.(state := JoiningWaiting, published := n.published + [JoiningWaiting],
                  joining := n.joining.(timer := false, cleaned := true));
      JoiningStep(k, env.view);
      hide MaybeJoinCluster, IsFirst, WellNamed, StableServers;
      assert Step(cfg, n, UserEventReceived(Forgotten(Some(cfg.name))), env) == MaybeJoinCluster(k, env.view);
    }
  }

  lemma {:induction false} RequestRule(cfg: Config, n: Node, env: Env)
    ensures var m := Step(cfg, n, ForgetRetry, env);
            m == if n.state != JoiningCleanup then n
                 else n.(joining := n.joining.(attempts := n.joining.attempts + 1, timer := true),
                         sent := n.sent + if env.sendOk then [ForgetMe(Some(cfg.name))] else [])
    ensures n.state == JoiningCleanup && n.pending == [CheckNotInstalled] ==>
              var m := Step(cfg, n, OperationEnded(0, true), env);
              m == n.(pending := [], joining := n.joining.(attempts := 1, timer := true),
                      sent := n.sent + if env.sendOk then [ForgetMe(Some(cfg.name))] else [])
  {
    hide OnRescaleCoordinationDone;
  }

  /** Outside their workflow, the timers of the first boot do nothing. */
  lemma {:induction false} LateTimersAreIgnored(cfg: Config, n: Node, env: Env)
    ensures n.state != JoiningWaiting ==> Step(cfg, n, JoinWaitExpired, env) == n
    ensures IsFirstBoot(n.state) && n.state !in UNDECIDED_STATES && n.state != JoiningWaiting ==>
              var m := Step(cfg, n, MembershipChange, env);
              Aside(n, m) && Keeps(n, m) && m.bootstrap == n.bootstrap && m.joining == n.joining
  {
    if IsFirstBoot(n.state) && n.state !in UNDECIDED_STATES && n.state != JoiningWaiting {
      FirstBootsDoNotEvaluate(cfg, n, env);
      NothingToDo(n, env.view);
    }
    hide FirstBootSteps, OnMembershipChange;
  }

  lemma {:induction false} NothingToDo(n: Node, v: View)
    requires n.state !in UNDECIDED_STATES && n.state != JoiningWaiting
    ensures FirstBootSteps(n, v) == n
  {
    hide Lowest, StableServerCount, ServerTarget;
  }

  // --- The results ---

  /** The record a first boot leaves, and the state it ends in. */
  ghost predicate Completes(cfg: Config, n: Node, m: Node, to: State, role: Role, now: Time) {
    m == n.(state := to, published := n.published + [to], pending := [],
            persisted := Some(Persisted(cfg.name, role, 1, now, NO_TIME)))
  }

  /** A first boot ends stable, in the role it installed and with its first record, or fails for good. */
  lemma {:induction false} FirstBootResults(cfg: Config, n: Node, ok: bool, env: Env)
    requires |n.pending| == 1
    ensures var m := Step(cfg, n, OperationEnded(0, ok), env);
            && (ok && (n.state == BootstrapInstallInit || n.state == BootstrapInstallServer) ==>
                  Completes(cfg, n, m, StableServer, Server, env.now))
            && (ok && (n.state == BootstrapInstallAgent || n.state == JoiningAgent) ==>
                  Completes(cfg, n, m, StableAgent, Agent, env.now))
            && (!ok && n.state in {BootstrapInstallInit, BootstrapInstallServer, BootstrapInstallAgent} ==>
                  m == n.(state := BootstrapFailed, published := n.published + [BootstrapFailed], pending := [],
                          bootstrap := n.bootstrap.(timer := false)))
            && (!ok && n.state in {JoiningCleanup, JoiningAgent} ==>
                  m == n.(state := JoiningFailed, published := n.published + [JoiningFailed], pending := [],
                          joining := n.joining.(timer := false)))
  {
    hide OnRescaleCoordinationDone, OnRescaleConverted, AbandonCoordination;
    assert Retire(n, 0).pending == [];
  }

  // --- Nobody creates a second cluster ---

  ghost predicate Publishes(n: Node, m: Node, tag: State) {
    exists i :: |n.published| <= i < |m.published| && m.published[i] == tag
  }

  ghost predicate Launches(n: Node, m: Node, op: Operation) {
    exists i :: |n.pending| <= i < |m.pending| && m.pending[i] == op
  }

  ghost predicate Creates(n: Node, m: Node) {
    Publishes(n, m, BootstrapInstallInit) || Launches(n, m, InstallServerInit)
  }

  lemma {:induction false} EvaluationsCreateNothing(cfg: Config, n: Node, v: View, now: Time)
    ensures var m := MaybeRescale(cfg, n, v, now);
            && (m.published == n.published || m.published == n.published + [RescaleCoordinating])
            && (m.pending == n.pending
                || (|m.pending| == |n.pending| + 1 && !m.pending[|n.pending|].InstallServerInit?
                    && m.pending[..|n.pending|] == n.pending))
  {
    MaybeRescaleEffect(cfg, n, v, now);
    NoEvaluationInstalls(cfg, n, v, now);
    hide MaybeRescale;
  }

  lemma {:induction false} NoEvaluationInstalls(cfg: Config, n: Node, v: View, now: Time)
    ensures var m := MaybeRescale(cfg, n, v, now);
            |m.pending| == |n.pending| + 1 ==> !m.pending[|n.pending|].InstallServerInit?
  {
    hide Evictable, NextEviction, K3sServerCount, DesiredServers, IsCoordinator, EtcdIsChanging, Lowest, Highest,
         TrackFailures;
  }

  lemma {:induction false} ChangesCreateNothing(cfg: Config, n: Node, env: Env)
    ensures !Creates(n, Step(cfg, n, MembershipChange, env))
  {
    var k := FirstBootSteps(n, env.view);
    StepsCreateNothing(n, env.view);
    MembershipIsQuietThenRescales(cfg, n, env.view, env.now);
    EvaluationsCreateNothing(cfg, k, env.view, env.now);
    hide OnMembershipChange, FirstBootSteps, MaybeRescale, QuietTurn;
  }

  lemma {:induction false} StepsCreateNothing(n: Node, v: View)
    ensures var m := FirstBootSteps(n, v);
            && |n.published| <= |m.published| && |n.pending| <= |m.pending| && !Creates(n, m)
  {
    hide Lowest, StableServerCount, ServerTarget;
  }

  lemma {:induction false} ResultsCreateNothing(cfg: Config, n: Node, which: nat, ok: bool, env: Env)
    ensures !Creates(n, Step(cfg, n, OperationEnded(which, ok), env))
  {
    if which < |n.pending| && ok && n.state == RescaleCoordinating {
      RoundEndsCreateNothing(cfg, n, which, env);
    }
    hide OnRescaleCoordinationDone;
  }

  lemma {:induction false} RoundEndsCreateNothing(cfg: Config, n: Node, which: nat, env: Env)
    requires which < |n.pending| && n.state == RescaleCoordinating
    ensures !Creates(n, OnRescaleCoordinationDone(cfg, Retire(n, which), env))
  {
    var r := Retire(n, which);
    hide MaybeRescale;
    if r.rescale.cleaning != "" {
      var done := Publish(r.(rescale := r.rescale.(cleaning := "")), StableServer);
      EvaluationsCreateNothing(cfg, ConfirmForgotten(done, r.rescale.cleaning, env.sendOk), env.view, env.now);
    } else if r.rescale.order.target == "" {
      var removed := set name | name in r.rescale.evicting && name in env.removable;
      var done := r.(rescale := r.rescale.(failedSince := r.rescale.failedSince - removed, evicting := []));
      EvaluationsCreateNothing(cfg, Publish(done, StableServer), env.view, env.now);
    }
  }

  lemma {:induction false} JoinersCreateNothing(cfg: Config, n: Node, env: Env, e: Event)
    requires e == JoinWaitExpired || (e.UserEventReceived? && e.event.Forgotten?)
    ensures !Creates(n, Step(cfg, n, e, env))
  {
    hide Lowest;
  }

  lemma {:induction false} WaitingMachinesCreateNothing(n: Node, v: View)
    requires n.state == BootstrapWaiting
    ensures !Creates(n, MaybeInstallAgent(MaybeInstallServer(n, v), v))
  {
    hide Lowest, StableServerCount, ServerTarget;
  }

  lemma {:induction false} StartsCreate(cfg: Config, n: Node, v: View)
    requires WellNamed(v) && Creates(n, OnBootstrapStart(cfg, n, v))
    ensures n.state == BootstrapWaiting
    ensures cfg.name in AliveOnes(v) && Before(v, cfg.name) == {} && !SeesCluster(v)
  {
    hide MaybeInstallServer, MaybeInstallAgent, RankOf, AliveNames, ExistingClusterSeen, WellNamed, SeesCluster,
         AliveOnes, Before, ServerTarget;
    var rank := RankOf(AliveNames(v), cfg.name);
    RankIsBefore(v, cfg.name);
    ClusterIsSeen(v);
    if n.state == BootstrapWaiting && rank > 0 {
      WaitingMachinesCreateNothing(AssignRole(n, AliveNames(v), rank), v);
    }
  }

  lemma {:induction false} ButtonsCreateNothing(cfg: Config, n: Node, e: Event, env: Env)
    requires e.RequestBootstrap? || e.ConfirmBootstrap? || e.CancelBootstrap? || e.BootstrapWaitExpired?
               || e.ForgetRetry? || e.ForgetProbed?
    ensures !Creates(n, Step(cfg, n, e, env))
  {
    hide ExistingClusterSeen, CanForget, EtcdIsChanging;
  }

  lemma {:induction false} MessagesCreateNothing(cfg: Config, n: Node, event: UserEvent, env: Env)
    requires !event.Forgotten? && !event.BootstrapStart?
    ensures !Creates(n, Step(cfg, n, UserEventReceived(event), env))
  {
    hide CanForget;
  }

  /**
   * Whatever happens, a machine sets out to create a cluster only at the start it was waiting for, as the
   * first of the machines it sees, and with no machine in sight, alive or failed, that belongs to a cluster.
   */
  lemma {:induction false} OnlyTheFirstCreates(cfg: Config, n: Node, e: Event, env: Env)
    requires WellNamed(env.view) && Creates(n, Step(cfg, n, e, env))
    ensures e == UserEventReceived(BootstrapStart) && n.state == BootstrapWaiting
    ensures cfg.name in AliveOnes(env.view) && Before(env.view, cfg.name) == {} && !SeesCluster(env.view)
  {
    var m := Step(cfg, n, e, env);
    if e == UserEventReceived(BootstrapStart) {
      assert m == OnBootstrapStart(cfg, n, env.view);
      StartsCreate(cfg, n, env.view);
    } else {
      hide Step, Creates;
      OthersCreateNothing(cfg, n, e, env);
    }
  }

  lemma {:induction false} OthersCreateNothing(cfg: Config, n: Node, e: Event, env: Env)
    requires e != UserEventReceived(BootstrapStart)
    ensures !Creates(n, Step(cfg, n, e, env))
  {
    match e {
      case MembershipChange => ChangesCreateNothing(cfg, n, env);
      case OperationEnded(which, ok) => ResultsCreateNothing(cfg, n, which, ok, env);
      case JoinWaitExpired => JoinersCreateNothing(cfg, n, env, e);
      case RescaleCheck =>
        EvaluationsCreateNothing(cfg, n, env.view, env.now);
        hide MaybeRescale;
      case UserEventReceived(event) =>
        hide Step, Creates;
        if event.Forgotten? {
          JoinersCreateNothing(cfg, n, env, e);
        } else {
          MessagesCreateNothing(cfg, n, event, env);
        }
      case _ =>
        hide Step, Creates;
        ButtonsCreateNothing(cfg, n, e, env);
    }
  }

  lemma {:induction false} FirstBootStepsProposeNothing(n: Node, v: View)
    requires n.state != BootstrapConfirm
    ensures FirstBootSteps(n, v).state != BootstrapConfirm
  {
    hide Lowest, StableServerCount, ServerTarget;
  }

  lemma {:induction false} ResultsProposeNothing(cfg: Config, n: Node, which: nat, ok: bool, env: Env)
    requires n.state != BootstrapConfirm
    ensures OnOperationEnded(cfg, n, which, ok, env).state != BootstrapConfirm
  {
    hide OnRescaleCoordinationDone;
    if which < |n.pending| && n.state == RescaleCoordinating {
      CoordinationDoneEffect(cfg, Retire(n, which), env);
    }
  }

  /** A machine proposes a new cluster only where it sees none. */
  lemma {:induction false} ProposalsAreUnattended(cfg: Config, n: Node, e: Event, env: Env)
    requires n.state != BootstrapConfirm && Step(cfg, n, e, env).state == BootstrapConfirm
    ensures e == RequestBootstrap && n.state == Discovering && !SeesCluster(env.view)
  {
    ClusterIsSeen(env.view);
    hide OnMembershipChange, MaybeRescale, OnOperationEnded, Lowest, StableServerCount, ServerTarget, CanForget,
         EtcdIsChanging, ExistingClusterSeen, RankOf, AliveNames, SeesCluster, FirstBootSteps;
    match e {
      case RescaleCheck => MaybeRescaleEffect(cfg, n, env.view, env.now);
      case MembershipChange =>
        FirstBootStepsProposeNothing(n, env.view);
        MembershipIsQuietThenRescales(cfg, n, env.view, env.now);
        MaybeRescaleEffect(cfg, FirstBootSteps(n, env.view), env.view, env.now);
      case OperationEnded(which, ok) => ResultsProposeNothing(cfg, n, which, ok, env);
      case _ =>
    }
  }
}

/**
 * Every machine of a new cluster at once: first boots that only learn of each other through tags that
 * may be arbitrarily old, with user events lost, repeated or reordered, and machines that stop.
 */
module BootstrapCluster {
  import opened Names
  import opened Lifecycle
  import opened ClusterView
  import opened NodeStep
  import opened Sights
  import FirstBootRules
  import ViewLaws

  /** The machines, as they were when they last took a turn, and those that stopped for good. */
  datatype Cluster = Cluster(nodes: map<Name, Node>, stopped: set<Name>)

  /** What a machine sees: some of the machines, in any status, each with a tag it did publish. */
  ghost predicate Plausible(c: Cluster, v: View) {
    && WellNamed(v)
    && forall m :: m in v ==> m.name in c.nodes && m.tag in c.nodes[m.name].published
  }

  /** The start signal is handled on the same list of alive machines everywhere. */
  ghost predicate SameList(cohort: set<Name>, v: View) {
    forall x :: x in AliveNames(v) <==> x in cohort
  }

  /** One machine takes one turn. A conversion order only arrives if some machine sent one. */
  ghost predicate CanTurn(cohort: set<Name>, c: Cluster, x: Name, e: Event, env: Env) {
    && x in c.nodes && x !in c.stopped
    && Plausible(c, env.view)
    && (e == UserEventReceived(BootstrapStart) ==> SameList(cohort, env.view))
    && (e.UserEventReceived? && e.event.RescaleConvert? && e.event.order.Some? ==>
          exists y :: y in c.nodes && e.event in c.nodes[y].sent)
  }

  datatype Move = Turns(who: Name, event: Event, env: Env) | Stops(who: Name)

  ghost predicate CanMove(cohort: set<Name>, c: Cluster, m: Move) {
    m.Turns? ==> CanTurn(cohort, c, m.who, m.event, m.env)
  }

  function After(base: Config, c: Cluster, m: Move): (d: Cluster) {
    match m
    case Turns(x, e, env) =>
      if x in c.nodes then c.(nodes := c.nodes[x := Step(ConfigOf(base, x), c.nodes[x], e, env)]) else c
    case Stops(x) => c.(stopped := c.stopped + {x})
  }

  // --- Ranks in the cohort ---

  ghost function Before(cohort: set<Name>, x: Name): (s: set<Name>) {
    set y | y in cohort && Less(y, x)
  }

  /** The machines that have been a stable server at some time. */
  ghost function Ever(c: Cluster): (s: set<Name>) {
    set x | x in c.nodes && StableServer in c.nodes[x].published
  }

  ghost predicate ToBeServer(cohort: set<Name>, x: Name) {
    x in cohort && |Before(cohort, x)| < ServerTarget(|cohort|)
  }

  lemma {:induction false} RankIsBefore(cohort: set<Name>, v: View, x: Name)
    requires WellNamed(v) && SameList(cohort, v)
    ensures |AliveNames(v)| == |cohort|
    ensures RankOf(AliveNames(v), x) >= 0 <==> x in cohort
    ensures x in cohort ==> RankOf(AliveNames(v), x) == |Before(cohort, x)|
  {
    var names := AliveNames(v);
    ViewLaws.NamesAreListedOnce(v, IsAlive);
    SizeOfDistinct(names);
    assert (set y | y in names) == cohort;
    RankCountsSmallerNames(names, x);
    CountOfDistinct(names, Below(x));
    assert Select(names, Below(x)) == Before(cohort, x);
  }

  /** A machine never sees more stable servers than there have ever been. */
  lemma {:induction false} SeenServersExisted(c: Cluster, v: View)
    requires Plausible(c, v)
    ensures StableServerCount(v) <= |Ever(c)|
  {
    ViewLaws.CountIsSize(v, IsStableServer);
    SubsetSize(ViewLaws.Those(v, IsStableServer), Ever(c));
  }

  // --- The invariant ---

  /** First boot or beyond, with no conversion and no reboot in sight. */
  predicate Calm(n: Node) {
    && (IsFirstBoot(n.state) || n.state == StableServer || n.state == StableAgent || n.state == RescaleCoordinating)
    && n.rescale.order.target == ""
    && (forall i :: 0 <= i < |n.sent| ==> !n.sent[i].RescaleConvert?)
  }

  ghost predicate RankedOk(cohort: set<Name>, x: Name, n: Node) {
    n.bootstrap.role != NO_ROLE ==>
      && x in cohort
      && n.bootstrap.total == |cohort|
      && n.bootstrap.rank == |Before(cohort, x)|
      && n.bootstrap.role == RoleForRank(n.bootstrap.rank, n.bootstrap.total)
  }

  ghost predicate NodeOk(cohort: set<Name>, c: Cluster, x: Name)
    requires x in c.nodes
  {
    var n := c.nodes[x];
    && Calm(n) && n.state in n.published
    && RankedOk(cohort, x, n)
    && (IsFirstBoot(n.state) ==> StableServer !in n.published)
    && (n.state == StableServer || n.state == RescaleCoordinating ==> StableServer in n.published)
    && (n.state == BootstrapInstallInit || n.state == BootstrapInstallServer ==>
          ToBeServer(cohort, x) && Before(cohort, x) <= Ever(c))
    && (n.state == BootstrapInstallServer ==> Before(cohort, x) != {})
    && (BootstrapInstallInit in n.published || InstallServerInit in n.pending ==>
         x in cohort && Before(cohort, x) == {})
    && (StableServer in n.published ==> ToBeServer(cohort, x) && Before(cohort, x) <= Ever(c))
    && (BootstrapInstallAgent in n.published ==> forall y :: ToBeServer(cohort, y) ==> y in Ever(c))
  }

  ghost predicate InRankOrder(cohort: set<Name>, c: Cluster) {
    forall x :: x in c.nodes ==> NodeOk(cohort, c, x)
  }

  /** Every machine has just started its first boot. */
  ghost predicate AllDiscovering(base: Config, c: Cluster) {
    forall x :: x in c.nodes ==> c.nodes[x] == ChooseInitialState(ConfigOf(base, x), Fresh(), Missing)
  }

  lemma {:induction false} StartIsInRankOrder(cohort: set<Name>, base: Config, c: Cluster)
    requires AllDiscovering(base, c)
    ensures InRankOrder(cohort, c)
  {
    forall x | x in c.nodes ensures NodeOk(cohort, c, x) {
      assert c.nodes[x].published == [Starting, Discovering];
    }
  }

  // --- What one turn can do ---

  /** The turn computed this machine's rank from the list it sees. */
  predicate Ranks(cfg: Config, m: Node, v: View) {
    var names := AliveNames(v);
    && RankOf(names, cfg.name) >= 0
    && m.bootstrap.rank == RankOf(names, cfg.name)
    && m.bootstrap.total == |names|
    && m.bootstrap.role == RoleForRank(m.bootstrap.rank, m.bootstrap.total)
  }

  /** The effects of a turn that matter to the installation order. */
  ghost predicate Effects(cfg: Config, n: Node, e: Event, m: Node, v: View) {
    && (m.bootstrap.role == NO_ROLE || m.bootstrap.(timer := false) == n.bootstrap.(timer := false)
        || (e == UserEventReceived(BootstrapStart) && Ranks(cfg, m, v)))
    && (IsFirstBoot(m.state) ==> IsFirstBoot(n.state))
    && n.published <= m.published
    && (forall i :: |n.published| <= i < |m.published| ==> NewTag(cfg, n, e, m, v, m.published[i]))
    && (m.state != n.state ==> |m.published| > |n.published| && m.published[|m.published| - 1] == m.state)
    && (InstallServerInit in m.pending ==> InstallServerInit in n.pending || m.state == BootstrapInstallInit)
  }

  /** Why a tag is published. */
  ghost predicate NewTag(cfg: Config, n: Node, e: Event, m: Node, v: View, tag: State) {
    match tag
    case StableServer =>
      && (n.state == BootstrapInstallInit || n.state == BootstrapInstallServer || n.state == RescaleCoordinating)
      && !IsFirstBoot(m.state)
    case RescaleCoordinating => n.state == StableServer
    case BootstrapInstallInit =>
      && n.state == BootstrapWaiting && e == UserEventReceived(BootstrapStart) && Ranks(cfg, m, v)
      && m.bootstrap.rank == 0 && !SeesCluster(v)
    case BootstrapInstallServer =>
      n.state == BootstrapWaiting && m.bootstrap.role == Server && StableServerCount(v) >= m.bootstrap.rank
      && StableServerCount(v) > 0
    case BootstrapInstallAgent =>
      n.state == BootstrapWaiting && m.bootstrap.role == Agent
        && StableServerCount(v) >= ServerTarget(m.bootstrap.total)
    case _ => true
  }

  lemma {:induction false} FoundIsCounted(v: View)
    requires Lowest(v, StableServer).name != ""
    ensures StableServerCount(v) > 0
  {
    if v != [] && Lowest(v[..|v| - 1], StableServer).name != "" {
      FoundIsCounted(v[..|v| - 1]);
    }
  }

  lemma {:induction false} InstallEffects(cfg: Config, n: Node, e: Event, v: View)
    requires Calm(n)
    ensures var m := MaybeInstallAgent(MaybeInstallServer(n, v), v); Calm(m) && Effects(cfg, n, e, m, v)
  {
    hide StableServerCount, ServerTarget, Lowest, RankOf, AliveNames;
    if Lowest(v, StableServer).name != "" {
      FoundIsCounted(v);
    }
  }

  lemma {:induction false} StartEffects(cfg: Config, n: Node, v: View)
    requires Calm(n)
    ensures var m := OnBootstrapStart(cfg, n, v); Calm(m) && Effects(cfg, n, UserEventReceived(BootstrapStart), m, v)
  {
    ClusterIsSeen(v);
    hide StableServerCount, ServerTarget, Lowest, RankOf, AliveNames, ExistingClusterSeen, SeesCluster, RoleForRank;
    if Lowest(v, StableServer).name != "" {
      FoundIsCounted(v);
    }
  }

  lemma {:induction false} JoiningEffects(cfg: Config, n: Node, v: View)
    requires Calm(n)
    ensures var m := MaybeJoinCluster(MaybeStartJoiningPath(n, v), v);
            Calm(m) && Effects(cfg, n, MembershipChange, m, v)
    ensures var m := MaybeJoinCluster(MaybeStartJoiningPath(n, v), v); m == n || m.state != BootstrapWaiting
  {
    hide StableServerCount, ServerTarget, Lowest, RankOf, AliveNames;
  }

  lemma {:induction false} MembershipEffects(cfg: Config, n: Node, v: View, now: Time)
    requires Calm(n) && !cfg.rescaleEnabled
    ensures var m := OnMembershipChange(cfg, n, v, now); Calm(m) && Effects(cfg, n, MembershipChange, m, v)
  {
    hide Effects, MaybeStartJoiningPath, MaybeJoinCluster, ServerTarget, StableServerCount, Lowest;
    JoiningEffects(cfg, n, v);
    if MaybeJoinCluster(MaybeStartJoiningPath(n, v), v) == n {
      InstallEffects(cfg, n, MembershipChange, v);
    }
  }

  lemma {:induction false} UserEventEffects(cfg: Config, n: Node, event: UserEvent, env: Env)
    requires Calm(n) && !(event.RescaleConvert? && event.order.Some?)
    ensures var m := OnUserEvent(cfg, n, event, env); Calm(m) && Effects(cfg, n, UserEventReceived(event), m, env.view)
  {
    hide StableServerCount, ServerTarget, Lowest, RankOf, AliveNames, CanForget, OnBootstrapStart;
    if event == BootstrapStart {
      StartEffects(cfg, n, env.view);
    }
  }

  lemma {:induction false} RoundResultEffects(cfg: Config, n: Node, r: Node, e: Event, ok: bool, env: Env)
    requires Calm(n) && !cfg.rescaleEnabled && n.state == RescaleCoordinating && e.OperationEnded?
    requires r == n.(pending := r.pending) && (forall op :: op in r.pending ==> op in n.pending)
    ensures var m := if ok then OnSuccess(cfg, r, env) else OnFailure(cfg, r, env);
            Calm(m) && Effects(cfg, n, e, m, env.view)
  {
    hide StableServerCount, ServerTarget, RankOf, AliveNames, Repair, TrackFailures;
  }

  lemma {:induction false} OtherResultEffects(cfg: Config, n: Node, r: Node, e: Event, ok: bool, env: Env)
    requires Calm(n) && n.state != RescaleCoordinating && e.OperationEnded?
    requires r == n.(pending := r.pending) && (forall op :: op in r.pending ==> op in n.pending)
    ensures var m := if ok then OnSuccess(cfg, r, env) else OnFailure(cfg, r, env);
            Calm(m) && Effects(cfg, n, e, m, env.view)
  {
    hide StableServerCount, ServerTarget, RankOf, AliveNames, OnRescaleCoordinationDone, AbandonCoordination;
  }

  lemma {:induction false} ResultEffects(cfg: Config, n: Node, which: nat, ok: bool, env: Env)
    requires Calm(n) && !cfg.rescaleEnabled
    ensures var m := OnOperationEnded(cfg, n, which, ok, env);
            Calm(m) && Effects(cfg, n, OperationEnded(which, ok), m, env.view)
  {
    hide StableServerCount, ServerTarget, RankOf, AliveNames, OnSuccess, OnFailure, NewTag, Ranks;
    if which < |n.pending| {
      var r := Retire(n, which);
      assert forall op :: op in r.pending ==> op in n.pending;
      if n.state == RescaleCoordinating {
        RoundResultEffects(cfg, n, r, OperationEnded(which, ok), ok, env);
      } else {
        OtherResultEffects(cfg, n, r, OperationEnded(which, ok), ok, env);
      }
    }
  }

  lemma {:induction false} WaitEffects(cfg: Config, n: Node, v: View)
    requires Calm(n)
    ensures var m := OnJoinWaitExpired(n, v); Calm(m) && Effects(cfg, n, JoinWaitExpired, m, v)
  {
    hide StableServerCount, ServerTarget, Lowest, RankOf, AliveNames;
  }

  lemma {:induction false} ProbeEffects(cfg: Config, n: Node, name: Name, found: bool, v: View, sendOk: bool)
    requires Calm(n)
    ensures var m := OnForgetProbed(cfg, n, name, found, v, sendOk);
            Calm(m) && Effects(cfg, n, ForgetProbed(name, found), m, v)
  {
    hide StableServerCount, ServerTarget, RankOf, AliveNames, CanForget, EtcdIsChanging;
    if CanForget(cfg, n, v, name) {
      assert n.state == StableServer by { OnlyServersForget(cfg, n, v, name); }
    }
  }

  lemma {:induction false} OnlyServersForget(cfg: Config, n: Node, v: View, name: Name)
    requires CanForget(cfg, n, v, name)
    ensures n.state == StableServer
  {}

  /** Other timers and user actions: none of them installs a server. */
  lemma {:induction false} OtherEffects(cfg: Config, n: Node, e: Event, env: Env)
    requires Calm(n) && !cfg.rescaleEnabled
    requires !e.MembershipChange? && !e.UserEventReceived? && !e.OperationEnded? && !e.JoinWaitExpired?
               && !e.ForgetProbed?
    ensures Calm(Step(cfg, n, e, env)) && Effects(cfg, n, e, Step(cfg, n, e, env), env.view)
  {
    hide StableServerCount, ServerTarget, RankOf, AliveNames, ExistingClusterSeen;
  }

  lemma {:induction false} TurnEffects(cfg: Config, n: Node, e: Event, env: Env)
    requires Calm(n) && !cfg.rescaleEnabled
    requires !(e.UserEventReceived? && e.event.RescaleConvert? && e.event.order.Some?)
    ensures Calm(Step(cfg, n, e, env)) && Effects(cfg, n, e, Step(cfg, n, e, env), env.view)
  {
    hide Calm, Effects, OnMembershipChange, OnUserEvent, OnOperationEnded, MaybeRescale, OnForgetProbed,
         OnJoinWaitExpired;
    match e {
      case MembershipChange => MembershipEffects(cfg, n, env.view, env.now);
      case UserEventReceived(event) => UserEventEffects(cfg, n, event, env);
      case OperationEnded(which, ok) => ResultEffects(cfg, n, which, ok, env);
      case JoinWaitExpired => WaitEffects(cfg, n, env.view);
      case ForgetProbed(name, found) => ProbeEffects(cfg, n, name, found, env.view, env.sendOk);
      case _ => OtherEffects(cfg, n, e, env);
    }
  }

  // --- The order of installation ---

  /** With the stable servers so far downward closed, the next one's predecessors are exactly them. */
  lemma {:induction false} NextInOrder(cohort: set<Name>, c: Cluster, x: Name)
    requires InRankOrder(cohort, c)
    requires x in cohort && x !in Ever(c) && |Before(cohort, x)| <= |Ever(c)|
    ensures Ever(c) == Before(cohort, x)
  {
    forall b | b in Ever(c) ensures b in Before(cohort, x) {
      assert NodeOk(cohort, c, b);
      LessIsTotal(b, x);
    }
    SubsetSize(Ever(c), Before(cohort, x));
    FullSubset(Ever(c), Before(cohort, x));
  }

  lemma {:induction false} AllServersUp(cohort: set<Name>, c: Cluster)
    requires InRankOrder(cohort, c) && |Ever(c)| >= ServerTarget(|cohort|)
    ensures forall y :: ToBeServer(cohort, y) ==> y in Ever(c)
  {
    forall y | ToBeServer(cohort, y) ensures y in Ever(c) {
      if y !in Ever(c) {
        NextInOrder(cohort, c, y);
      }
    }
  }

  lemma {:induction false} EverGrows(base: Config, c: Cluster, x: Name, e: Event, env: Env)
    requires x in c.nodes && c.nodes[x].published <= Step(ConfigOf(base, x), c.nodes[x], e, env).published
    ensures Ever(c) <= Ever(After(base, c, Turns(x, e, env)))
  {
    hide Step;
    var m := Step(ConfigOf(base, x), c.nodes[x], e, env);
    forall y | y in Ever(c) ensures y in Ever(After(base, c, Turns(x, e, env))) {
      if y == x {
        var i :| 0 <= i < |c.nodes[x].published| && c.nodes[x].published[i] == StableServer;
        assert m.published[i] == StableServer;
      }
    }
  }

  /** A tag is new, or was there before. */
  lemma {:induction false} OldOrNew(n: Node, m: Node, tag: State)
    requires n.published <= m.published && tag in m.published
    ensures tag in n.published || exists i :: |n.published| <= i < |m.published| && m.published[i] == tag
  {
    var i :| 0 <= i < |m.published| && m.published[i] == tag;
    if i < |n.published| {
      assert n.published[i] == tag;
    }
  }

  /** A machine in order takes a turn with these effects; m is what it becomes. */
  ghost predicate Turning(cohort: set<Name>, cfg: Config, c: Cluster, e: Event, m: Node, v: View) {
    && InRankOrder(cohort, c) && cfg.name in c.nodes && Plausible(c, v)
    && (e == UserEventReceived(BootstrapStart) ==> SameList(cohort, v))
    && Calm(m) && Effects(cfg, c.nodes[cfg.name], e, m, v)
  }

  lemma {:induction false} RanksAreRight(cohort: set<Name>, cfg: Config, c: Cluster, e: Event, m: Node, v: View)
    requires Turning(cohort, cfg, c, e, m, v)
    ensures RankedOk(cohort, cfg.name, m)
  {
    hide RankOf, AliveNames, ServerTarget;
    assert NodeOk(cohort, c, cfg.name);
    if e == UserEventReceived(BootstrapStart) {
      RankIsBefore(cohort, v, cfg.name);
    }
  }

  /** Whoever starts installing a server finds all its predecessors up, and nobody else. */
  lemma {:induction false} InstallersAreNext(cohort: set<Name>, cfg: Config, c: Cluster, e: Event, m: Node, v: View,
      tag: State)
    requires Turning(cohort, cfg, c, e, m, v)
    requires tag == BootstrapInstallInit || tag == BootstrapInstallServer
    requires NewTag(cfg, c.nodes[cfg.name], e, m, v, tag)
    ensures ToBeServer(cohort, cfg.name) && Before(cohort, cfg.name) == Ever(c)
    ensures tag == BootstrapInstallInit <==> Before(cohort, cfg.name) == {}
  {
    hide RankOf, AliveNames, StableServerCount;
    assert NodeOk(cohort, c, cfg.name);
    RanksAreRight(cohort, cfg, c, e, m, v);
    SeenServersExisted(c, v);
    if tag == BootstrapInstallInit {
      RankIsBefore(cohort, v, cfg.name);
      assert cohort != {};
    }
    NextInOrder(cohort, c, cfg.name);
  }

  lemma {:induction false} AgentsAreLast(cohort: set<Name>, cfg: Config, c: Cluster, e: Event, m: Node, v: View)
    requires Turning(cohort, cfg, c, e, m, v)
    requires NewTag(cfg, c.nodes[cfg.name], e, m, v, BootstrapInstallAgent)
    ensures forall y :: ToBeServer(cohort, y) ==> y in Ever(c)
  {
    hide RankOf, AliveNames, StableServerCount, ServerTarget;
    RanksAreRight(cohort, cfg, c, e, m, v);
    SeenServersExisted(c, v);
    AllServersUp(cohort, c);
  }

  /** What the published tags of the machine that took the turn prove. */
  lemma {:induction false} TagsAreRight(cohort: set<Name>, cfg: Config, c: Cluster, e: Event, m: Node, v: View,
      tag: State)
    requires Turning(cohort, cfg, c, e, m, v) && tag in m.published
    ensures tag == BootstrapInstallInit ==> cfg.name in cohort && Before(cohort, cfg.name) == {}
    ensures tag == StableServer ==> ToBeServer(cohort, cfg.name) && Before(cohort, cfg.name) <= Ever(c)
    ensures tag == BootstrapInstallAgent ==> forall y :: ToBeServer(cohort, y) ==> y in Ever(c)
  {
    hide NewTag, ServerTarget;
    var n := c.nodes[cfg.name];
    assert NodeOk(cohort, c, cfg.name);
    OldOrNew(n, m, tag);
    if tag !in n.published {
      assert NewTag(cfg, n, e, m, v, tag);
      if tag == BootstrapInstallInit {
        InstallersAreNext(cohort, cfg, c, e, m, v, tag);
      } else if tag == BootstrapInstallAgent {
        AgentsAreLast(cohort, cfg, c, e, m, v);
      } else if tag == StableServer {
        NewServerWasInstalling(cfg, n, e, m, v);
      }
    }
  }

  lemma {:induction false} NewServerWasInstalling(cfg: Config, n: Node, e: Event, m: Node, v: View)
    requires NewTag(cfg, n, e, m, v, StableServer)
    ensures n.state == BootstrapInstallInit || n.state == BootstrapInstallServer || n.state == RescaleCoordinating
    ensures !IsFirstBoot(m.state)
  {
    hide RankOf, AliveNames, StableServerCount, ServerTarget;
  }

  /** The machine that took the turn is still in order. */
  lemma {:induction false} MoverIsInOrder(cohort: set<Name>, cfg: Config, c: Cluster, e: Event, m: Node, v: View,
      d: Cluster)
    requires Turning(cohort, cfg, c, e, m, v)
    requires cfg.name in d.nodes && d.nodes[cfg.name] == m && Ever(c) <= Ever(d)
    ensures NodeOk(cohort, d, cfg.name)
  {
    hide NewTag, ServerTarget, Ranks, RoleForRank, Plausible, SameList, Calm;
    var x, n := cfg.name, c.nodes[cfg.name];
    assert NodeOk(cohort, c, x);
    RanksAreRight(cohort, cfg, c, e, m, v);
    forall tag | tag in m.published
      ensures tag == BootstrapInstallInit ==> x in cohort && Before(cohort, x) == {}
      ensures tag == StableServer ==> ToBeServer(cohort, x) && Before(cohort, x) <= Ever(c)
      ensures tag == BootstrapInstallAgent ==> forall y :: ToBeServer(cohort, y) ==> y in Ever(c)
    {
      TagsAreRight(cohort, cfg, c, e, m, v, tag);
    }
    if m.state != n.state {
      assert NewTag(cfg, n, e, m, v, m.state);
      assert m.state in m.published;
      if m.state == BootstrapInstallInit || m.state == BootstrapInstallServer {
        InstallersAreNext(cohort, cfg, c, e, m, v, m.state);
      } else if m.state == RescaleCoordinating {
        NewRoundFromStable(cfg, n, e, m, v);
        assert StableServer in m.published by { Kept(n, m, StableServer); }
      }
    } else {
      Kept(n, m, n.state);
      if StableServer in n.published {
        Kept(n, m, StableServer);
      }
    }
    if IsFirstBoot(m.state) && StableServer in m.published {
      OldOrNew(n, m, StableServer);
      NewServerWasInstalling(cfg, n, e, m, v);
    }
  }

  lemma {:induction false} NewRoundFromStable(cfg: Config, n: Node, e: Event, m: Node, v: View)
    requires NewTag(cfg, n, e, m, v, RescaleCoordinating)
    ensures n.state == StableServer
  {
    hide RankOf, AliveNames, StableServerCount, ServerTarget;
  }

  lemma {:induction false} Kept(n: Node, m: Node, tag: State)
    requires n.published <= m.published && tag in n.published
    ensures tag in m.published
  {
    var i :| 0 <= i < |n.published| && n.published[i] == tag;
    assert m.published[i] == tag;
  }

  lemma {:induction false} OthersStayInOrder(cohort: set<Name>, c: Cluster, d: Cluster, y: Name)
    requires y in c.nodes && NodeOk(cohort, c, y) && y in d.nodes && d.nodes[y] == c.nodes[y] && Ever(c) <= Ever(d)
    ensures NodeOk(cohort, d, y)
  {}

  /** Every move keeps the installations in rank order. */
  lemma {:induction false} MovesKeepRankOrder(cohort: set<Name>, base: Config, c: Cluster, m: Move)
    requires !base.rescaleEnabled && InRankOrder(cohort, c) && CanMove(cohort, c, m)
    ensures InRankOrder(cohort, After(base, c, m))
  {
    hide Step, NodeOk, Effects, ServerTarget;
    var d := After(base, c, m);
    match m {
      case Turns(x, e, env) =>
        var cfg := ConfigOf(base, x);
        assert Calm(c.nodes[x]) by { InOrderIsCalm(cohort, c, x); }
        if e.UserEventReceived? && e.event.RescaleConvert? && e.event.order.Some? {
          var y :| y in c.nodes && e.event in c.nodes[y].sent;
          assert Calm(c.nodes[y]) by { InOrderIsCalm(cohort, c, y); }
        }
        TurnEffects(cfg, c.nodes[x], e, env);
        GrowingLog(cfg, c.nodes[x], e, env);
        EverGrows(base, c, x, e, env);
        MoverIsInOrder(cohort, cfg, c, e, d.nodes[x], env.view, d);
        forall y | y in d.nodes ensures NodeOk(cohort, d, y) {
          if y != x {
            OthersStayInOrder(cohort, c, d, y);
          }
        }
      case Stops(x) =>
        assert Ever(d) == Ever(c);
        forall y | y in d.nodes ensures NodeOk(cohort, d, y) {
          OthersStayInOrder(cohort, c, d, y);
        }
    }
  }

  lemma {:induction false} InOrderIsCalm(cohort: set<Name>, c: Cluster, x: Name)
    requires x in c.nodes && NodeOk(cohort, c, x)
    ensures Calm(c.nodes[x])
  {}

  lemma {:induction false} GrowingLog(cfg: Config, n: Node, e: Event, env: Env)
    requires Effects(cfg, n, e, Step(cfg, n, e, env), env.view)
    ensures n.published <= Step(cfg, n, e, env).published
  {
    hide Step;
  }

  // --- Runs ---

  function Course(base: Config, c: Cluster, moves: seq<Move>): (d: Cluster) {
    if moves == [] then c else After(base, Course(base, c, moves[..|moves| - 1]), moves[|moves| - 1])
  }

  ghost predicate CanCourse(cohort: set<Name>, base: Config, c: Cluster, moves: seq<Move>) {
    moves != [] ==>
      && CanCourse(cohort, base, c, moves[..|moves| - 1])
      && CanMove(cohort, Course(base, c, moves[..|moves| - 1]), moves[|moves| - 1])
  }

  lemma {:induction false} CoursesAreInRankOrder(cohort: set<Name>, base: Config, c: Cluster, moves: seq<Move>)
    requires !base.rescaleEnabled && AllDiscovering(base, c) && CanCourse(cohort, base, c, moves)
    ensures InRankOrder(cohort, Course(base, c, moves))
  {
    hide After, CanMove, InRankOrder;
    if moves == [] {
      StartIsInRankOrder(cohort, base, c);
    } else {
      CoursesAreInRankOrder(cohort, base, c, moves[..|moves| - 1]);
      MovesKeepRankOrder(cohort, base, Course(base, c, moves[..|moves| - 1]), moves[|moves| - 1]);
    }
  }

  /** There are never more servers than the cohort calls for. */
  lemma {:induction false} NeverTooManyServers(cohort: set<Name>, c: Cluster)
    requires InRankOrder(cohort, c)
    ensures |Ever(c)| <= ServerTarget(|cohort|)
  {
    hide ServerTarget;
    if Ever(c) == {} {
      assert ServerTarget(|cohort|) >= 0 by { TargetIsNatural(|cohort|); }
    } else {
      var top := Greatest(Ever(c));
      assert NodeOk(cohort, c, top);
      forall y | y in Ever(c) ensures y in Before(cohort, top) + {top} {
        assert NodeOk(cohort, c, y);
      }
      assert top !in Before(cohort, top) by { LessIsAsymmetric(top, top); }
      SubsetSize(Ever(c), Before(cohort, top) + {top});
    }
  }

  lemma {:induction false} TargetIsNatural(total: int)
    ensures ServerTarget(total) >= 0
  {}

  /** A machine takes a turn that sets out to create a cluster. */
  ghost predicate Founds(base: Config, c: Cluster, m: Move) {
    && m.Turns? && m.who in c.nodes
    && FirstBootRules.Creates(c.nodes[m.who], Step(ConfigOf(base, m.who), c.nodes[m.who], m.event, m.env))
  }

  lemma {:induction false} FoundersAreAlone(cohort: set<Name>, base: Config, c: Cluster, m: Move)
    requires CanMove(cohort, c, m) && Founds(base, c, m)
    ensures !SeesCluster(m.env.view)
  {
    hide Step, SeesCluster, FirstBootRules.Creates;
    FirstBootRules.OnlyTheFirstCreates(ConfigOf(base, m.who), c.nodes[m.who], m.event, m.env);
  }

  /**
   * Whatever the lag, the losses, the repetitions and the stops: the machines that have ever been
   * stable servers are a prefix of the ranking, never more than the target; a machine that installs a
   * server is the next of that prefix; only the first of the ranking ever ran cluster-init, no agent
   * started its installation before the whole target was up, and nobody goes on to run cluster-init where
   * it sees a machine, alive or failed, that belongs to a cluster.
   */
  lemma {:induction false} BootstrapFollowsTheRanks(cohort: set<Name>, base: Config, c: Cluster, moves: seq<Move>)
    requires !base.rescaleEnabled && AllDiscovering(base, c) && CanCourse(cohort, base, c, moves)
    ensures var d := Course(base, c, moves);
            && |Ever(d)| <= ServerTarget(|cohort|)
            && (forall x, y :: x in Ever(d) && y in cohort && Less(y, x) ==> y in Ever(d))
            && (forall x | x in d.nodes ::
                  d.nodes[x].state == BootstrapInstallInit || d.nodes[x].state == BootstrapInstallServer ==>
                    x in cohort && x !in Ever(d) && Before(cohort, x) == Ever(d))
            && (forall x :: x in d.nodes && BootstrapInstallInit in d.nodes[x].published ==>
                 x in cohort && Before(cohort, x) == {})
            && (forall x, y | x in d.nodes && ToBeServer(cohort, y) ::
                  BootstrapInstallAgent in d.nodes[x].published ==> y in Ever(d))
            && (forall m :: CanMove(cohort, d, m) && Founds(base, d, m) ==> !SeesCluster(m.env.view))
  {
    hide Course, CanCourse, ServerTarget;
    forall m | CanMove(cohort, Course(base, c, moves), m) && Founds(base, Course(base, c, moves), m)
      ensures !SeesCluster(m.env.view)
    {
      FoundersAreAlone(cohort, base, Course(base, c, moves), m);
    }
    hide Founds, CanMove, SeesCluster;
    var d := Course(base, c, moves);
    CoursesAreInRankOrder(cohort, base, c, moves);
    NeverTooManyServers(cohort, d);
    forall x, y | x in Ever(d) && y in cohort && Less(y, x) ensures y in Ever(d) {
      assert NodeOk(cohort, d, x);
      assert y in Before(cohort, x);
    }
    forall x | x in d.nodes && (d.nodes[x].state == BootstrapInstallInit || d.nodes[x].state == BootstrapInstallServer)
      ensures x in cohort && x !in Ever(d) && Before(cohort, x) == Ever(d)
    {
      assert NodeOk(cohort, d, x);
      SubsetSize(Before(cohort, x), Ever(d));
      NextInOrder(cohort, d, x);
    }
  }

  /** So two machines never install a server at the same time. */
  lemma {:induction false} OneInstallationAtATime(cohort: set<Name>, c: Cluster, x: Name, y: Name)
    requires InRankOrder(cohort, c) && x in c.nodes && y in c.nodes
    requires c.nodes[x].state == BootstrapInstallInit || c.nodes[x].state == BootstrapInstallServer
    requires c.nodes[y].state == BootstrapInstallInit || c.nodes[y].state == BootstrapInstallServer
    ensures x == y
  {
    assert NodeOk(cohort, c, x) && NodeOk(cohort, c, y);
    LessIsTotal(x, y);
    assert Less(x, y) ==> x in Before(cohort, y);
    assert Less(y, x) ==> y in Before(cohort, x);
  }
}

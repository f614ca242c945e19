/** The lifecycle a machine's published tags follow, and what conversions leave behind, over whole runs. */
module LifecycleRuns {
  import opened Names
  import opened Lifecycle
  import opened ClusterView
  import opened NodeStep
  import opened NodeRuns

  // --- The state diagram ---

  predicate Edge(from: State, to: State) {
    match from
    case Starting => to.Discovering? || to.RejoinCluster? || to.RejoinFailed?
    case Discovering => to.BootstrapConfirm? || to.BootstrapWaiting? || to.JoiningWaiting?
    case BootstrapConfirm => to.Discovering? || to.BootstrapWaiting? || to.JoiningWaiting?
    case BootstrapWaiting =>
      to.BootstrapInstallInit? || to.BootstrapInstallServer? || to.BootstrapInstallAgent?
      || to.BootstrapFailed? || to.JoiningWaiting?
    case BootstrapInstallInit => to.StableServer? || to.BootstrapFailed?
    case BootstrapInstallServer => to.StableServer? || to.BootstrapFailed?
    case BootstrapInstallAgent => to.StableAgent? || to.BootstrapFailed?
    case JoiningWaiting => to.JoiningCleanup? || to.JoiningAgent?
    case JoiningCleanup => to.JoiningWaiting? || to.JoiningFailed?
    case JoiningAgent => to.StableAgent? || to.JoiningFailed?
    case RejoinCluster => to.StableServer? || to.StableAgent? || to.RejoinFailed?
    case StableServer => to.RescaleCoordinating? || to.RescaleDemoting?
    case StableAgent => to.RescalePromoting?
    case RescaleCoordinating => to.StableServer?
    case RescalePromoting => to.StableServer? || to.RescaleFailed?
    case RescaleDemoting => to.StableAgent? || to.RescaleFailed?
    case _ => false
  }

  /** Publishing tags one after the other leads from a state to another along the diagram. */
  predicate Walk(from: State, tags: seq<State>, to: State)
    decreases |tags|
  {
    if tags == [] then from == to else Edge(from, tags[0]) && Walk(tags[0], tags[1..], to)
  }

  lemma {:induction false} WalkOn(a: State, s: seq<State>, b: State, t: seq<State>, c: State)
    requires Walk(a, s, b) && Walk(b, t, c)
    ensures Walk(a, s + t, c)
    decreases |s|
  {
    if s == [] {
      assert s + t == t;
    } else {
      WalkOn(s[0], s[1..], b, t, c);
      assert (s + t)[1..] == s[1..] + t;
    }
  }

  /** What n published on the way to m. */
  function Since(n: Node, m: Node): (s: seq<State>) {
    if |n.published| <= |m.published| then m.published[|n.published|..] else []
  }

  ghost predicate Walks(n: Node, m: Node) {
    n.published <= m.published && Walk(n.state, Since(n, m), m.state)
  }

  lemma {:induction false} Stays(n: Node, m: Node)
    requires m.state == n.state && m.published == n.published
    ensures Walks(n, m)
  {}

  lemma {:induction false} OneTag(n: Node, m: Node)
    requires Edge(n.state, m.state) && m.published == n.published + [m.state]
    ensures Walks(n, m)
  {
    var tags := Since(n, m);
    assert tags == [m.state] && tags[1..] == [];
  }

  lemma {:induction false} Then(a: Node, b: Node, c: Node)
    requires Walks(a, b) && Walks(b, c)
    ensures Walks(a, c)
  {
    var s, t := Since(a, b), Since(b, c);
    WalkOn(a.state, s, b.state, t, c.state);
    assert Since(a, c) == s + t;
  }

  /** A step that publishes at most one tag. */
  lemma {:induction false} AtMostOneTag(n: Node, m: Node)
    requires || (m.state == n.state && m.published == n.published)
             || (Edge(n.state, m.state) && m.published == n.published + [m.state])
    ensures Walks(n, m)
  {
    if m.published == n.published {
      Stays(n, m);
    } else {
      OneTag(n, m);
    }
  }

  lemma {:induction false} RescaleWalks(cfg: Config, n: Node, v: View, now: Time)
    ensures Walks(n, MaybeRescale(cfg, n, v, now))
  {
    hide MaybeRescale;
    MaybeRescaleEffect(cfg, n, v, now);
    AtMostOneTag(n, MaybeRescale(cfg, n, v, now));
  }

  lemma {:induction false} FirstBootWalks(n: Node, v: View)
    ensures Walks(n, MaybeStartJoiningPath(n, v))
    ensures Walks(n, MaybeJoinCluster(n, v))
    ensures Walks(n, MaybeInstallAgent(MaybeInstallServer(n, v), v))
  {
    AtMostOneTag(n, MaybeStartJoiningPath(n, v));
    AtMostOneTag(n, MaybeJoinCluster(n, v));
    var m := MaybeInstallServer(n, v);
    AtMostOneTag(n, m);
    AtMostOneTag(m, MaybeInstallAgent(m, v));
    Then(n, m, MaybeInstallAgent(m, v));
  }

  lemma {:induction false} MembershipChangeWalks(cfg: Config, n: Node, v: View, now: Time)
    ensures Walks(n, OnMembershipChange(cfg, n, v, now))
  {
    hide MaybeRescale, MaybeStartJoiningPath, MaybeJoinCluster, MaybeInstallAgent, MaybeInstallServer;
    var a := MaybeStartJoiningPath(n, v);
    var b := MaybeJoinCluster(a, v);
    var c := MaybeInstallAgent(MaybeInstallServer(b, v), v);
    FirstBootWalks(n, v);
    FirstBootWalks(a, v);
    FirstBootWalks(b, v);
    RescaleWalks(cfg, c, v, now);
    Then(n, a, b);
    Then(n, b, c);
    Then(n, c, MaybeRescale(cfg, c, v, now));
  }

  lemma {:induction false} UserEventWalks(cfg: Config, n: Node, event: UserEvent, env: Env)
    ensures Walks(n, OnUserEvent(cfg, n, event, env))
  {
    match event {
      case BootstrapStart =>
        var rank := RankOf(AliveNames(env.view), cfg.name);
        if n.state == BootstrapWaiting && rank > 0 {
          var a := AssignRole(n, AliveNames(env.view), rank);
          Stays(n, a);
          FirstBootWalks(a, env.view);
          Then(n, a, MaybeInstallAgent(MaybeInstallServer(a, env.view), env.view));
        } else {
          AtMostOneTag(n, OnUserEvent(cfg, n, event, env));
        }
      case Forgotten(name) =>
        if name == Some(cfg.name) && n.state == JoiningCleanup {
          var a := Publish(n, JoiningWaiting).(joining := n.joining.(timer := false, cleaned := true));
          OneTag(n, a);
          FirstBootWalks(a, env.view);
          Then(n, a, MaybeJoinCluster(a, env.view));
        } else {
          Stays(n, n);
        }
      case _ => AtMostOneTag(n, OnUserEvent(cfg, n, event, env));
    }
  }

  lemma {:induction false} SuccessWalks(cfg: Config, n: Node, env: Env)
    requires n.state == RescalePromoting ==> n.rescale.order.role == Server
    requires n.state == RescaleDemoting ==> n.rescale.order.role != Server
    ensures Walks(n, OnSuccess(cfg, n, env))
  {
    hide MaybeRescale;
    if n.state == RescaleCoordinating {
      if n.rescale.cleaning != "" {
        var done := Publish(n.(rescale := n.rescale.(cleaning := "")), StableServer);
        var told := ConfirmForgotten(done, n.rescale.cleaning, env.sendOk);
        OneTag(n, told);
        RescaleWalks(cfg, told, env.view, env.now);
        Then(n, told, MaybeRescale(cfg, told, env.view, env.now));
      } else if n.rescale.order.target == "" {
        var removed := set name | name in n.rescale.evicting && name in env.removable;
        var done := Publish(n.(rescale := n.rescale.(failedSince := n.rescale.failedSince - removed, evicting := [])),
            StableServer);
        OneTag(n, done);
        RescaleWalks(cfg, done, env.view, env.now);
        Then(n, done, MaybeRescale(cfg, done, env.view, env.now));
      } else {
        OneTag(n, OnSuccess(cfg, n, env));
      }
    } else {
      AtMostOneTag(n, OnSuccess(cfg, n, env));
    }
  }

  lemma {:induction false} TurnWalks(cfg: Config, n: Node, e: Event, env: Env)
    requires Sound(cfg, n)
    ensures Walks(n, Step(cfg, n, e, env))
  {
    match e {
      case MembershipChange => MembershipChangeWalks(cfg, n, env.view, env.now);
      case UserEventReceived(event) => UserEventWalks(cfg, n, event, env);
      case RescaleCheck => RescaleWalks(cfg, n, env.view, env.now);
      case JoinWaitExpired =>
        if n.state == JoiningWaiting {
          FirstBootWalks(n.(joining := n.joining.(settled := true, timer := false)), env.view);
        }
        AtMostOneTag(n, Step(cfg, n, e, env));
      case OperationEnded(which, ok) =>
        if which < |n.pending| && ok {
          Stays(n, Retire(n, which));
          SuccessWalks(cfg, Retire(n, which), env);
          Then(n, Retire(n, which), Step(cfg, n, e, env));
        } else {
          AtMostOneTag(n, Step(cfg, n, e, env));
        }
      case _ => AtMostOneTag(n, Step(cfg, n, e, env));
    }
  }

  /** Over any run, a machine publishes its tags along the state diagram. */
  lemma {:induction false} RunsFollowTheDiagram(cfg: Config, n: Node, turns: seq<Turn>)
    requires Sound(cfg, n) && Legal(cfg, n, turns) && Timely(cfg, n, turns)
    ensures Walks(n, Run(cfg, n, turns))
  {
    if turns == [] {
      Stays(n, Run(cfg, n, turns));
    } else {
      var before, last := turns[..|turns| - 1], turns[|turns| - 1];
      var mid := Run(cfg, n, before);
      RunsFollowTheDiagram(cfg, n, before);
      TimelyRunsAreSound(cfg, n, before);
      TurnWalks(cfg, mid, last.event, last.env);
      Then(n, mid, Step(cfg, mid, last.event, last.env));
    }
  }

  // --- What the diagram says ---

  /** What a machine in one state can publish from then on. */
  predicate CanFollow(from: State, to: State) {
    && (InCluster(from) ==> InCluster(to))
    && (IsJoining(from) ==> IsJoining(to) || InCluster(to))
    && (IsFirstBoot(from) ==> IsFirstBoot(to) || InCluster(to))
    && !IsTerminal(from)
  }

  /** The first tag after the joining ones is the stable agent's. */
  ghost predicate EntersAsAgent(tags: seq<State>) {
    exists i :: 0 <= i < |tags| && tags[i] == StableAgent && forall k :: 0 <= k < i ==> IsJoining(tags[k])
  }

  lemma {:induction false} WalksStayOnTheirSide(from: State, tags: seq<State>, to: State)
    requires Walk(from, tags, to) && !from.Starting?
    ensures forall tag :: tag in tags ==> CanFollow(from, tag)
    decreases |tags|
  {
    if tags != [] {
      WalksStayOnTheirSide(tags[0], tags[1..], to);
      assert tags == [tags[0]] + tags[1..];
    }
  }

  lemma {:induction false} JoinersEnterAsAgents(from: State, tags: seq<State>, to: State)
    requires Walk(from, tags, to) && IsJoining(from) && InCluster(to)
    ensures EntersAsAgent(tags)
    decreases |tags|
  {
    if IsJoining(tags[0]) {
      JoinersEnterAsAgents(tags[0], tags[1..], to);
      var i :| 0 <= i < |tags| - 1 && tags[1..][i] == StableAgent && forall k :: 0 <= k < i ==> IsJoining(tags[1..][k]);
      assert tags[i + 1] == StableAgent;
      assert forall k :: 0 < k < i + 1 ==> tags[k] == tags[1..][k - 1];
    } else {
      assert tags[0] == StableAgent;
    }
  }

  /**
   * Over any run: a machine in the cluster never publishes a first-boot tag again, a failed one never
   * publishes anything again, and a joining one enters the cluster as an agent or not at all.
   */
  lemma {:induction false} LifecycleOverRuns(cfg: Config, n: Node, turns: seq<Turn>)
    requires Sound(cfg, n) && n.state != Starting && Legal(cfg, n, turns) && Timely(cfg, n, turns)
    ensures InCluster(n.state) ==> forall tag :: tag in Since(n, Run(cfg, n, turns)) ==> InCluster(tag)
    ensures IsTerminal(n.state) ==> Since(n, Run(cfg, n, turns)) == [] && Run(cfg, n, turns).state == n.state
    ensures IsJoining(n.state) && InCluster(Run(cfg, n, turns).state) ==> EntersAsAgent(Since(n, Run(cfg, n, turns)))
  {
    RunsFollowTheDiagram(cfg, n, turns);
    hide Run, Legal, Timely;
    var end := Run(cfg, n, turns);
    var later := Since(n, end);
    WalksStayOnTheirSide(n.state, later, end.state);
    if IsJoining(n.state) && InCluster(end.state) {
      JoinersEnterAsAgents(n.state, later, end.state);
    }
  }

  /** Once stable or coordinating, a machine holds a record of the matching role, so no order finds it without one. */
  lemma {:induction false} StableMachinesHaveARecord(cfg: Config, file: LoadResult, turns: seq<Turn>, order: Order)
    requires cfg.name != "" && ValidFile(file)
    requires var n := ChooseInitialState(cfg, Fresh(), file); Legal(cfg, n, turns) && Timely(cfg, n, turns)
    ensures var end := Run(cfg, ChooseInitialState(cfg, Fresh(), file), turns);
            && (end.state == StableServer || end.state == RescaleCoordinating ==> HasRole(cfg, end, Server))
            && (end.state == StableAgent ==> HasRole(cfg, end, Agent))
            && (AcceptsOrder(cfg, end, order) <==>
                  order.target == cfg.name && order.joinIP != "" && end.state == StableState(Other(order.role)))
  {
    BootIsSound(cfg, file);
    TimelyRunsAreSound(cfg, ChooseInitialState(cfg, Fresh(), file), turns);
  }

  // --- Rounds ---

  /** The round in progress: what it is about, and the operation that runs it. */
  predicate SameRound(n: Node, m: Node) {
    && m.state == RescaleCoordinating && m.pending == n.pending
    && m.rescale.order == n.rescale.order && m.rescale.evicting == n.rescale.evicting
         && m.rescale.cleaning == n.rescale.cleaning
  }

  lemma {:induction false} RoundSurvivesTurn(cfg: Config, n: Node, e: Event, env: Env)
    requires n.state == RescaleCoordinating && !e.OperationEnded?
    ensures SameRound(n, Step(cfg, n, e, env))
  {
    hide MaybeRescale;
    OnlyStableServersAct(cfg, n, env.view, env.now);
    if e.MembershipChange? {
      InClusterOnlyRescales(cfg, n, env.view, env.now);
    }
  }

  /** Until its result arrives, nothing changes a round. */
  lemma {:induction false} RoundsLastUntilTheirResult(cfg: Config, n: Node, turns: seq<Turn>)
    requires n.state == RescaleCoordinating
    requires forall i :: 0 <= i < |turns| ==> !turns[i].event.OperationEnded?
    ensures SameRound(n, Run(cfg, n, turns))
  {
    hide Step;
    if turns != [] {
      var before, last := turns[..|turns| - 1], turns[|turns| - 1];
      RoundsLastUntilTheirResult(cfg, n, before);
      RoundSurvivesTurn(cfg, Run(cfg, n, before), last.event, last.env);
    }
  }

  /**
   * The coordinator as it goes on after a cleaning or eviction round: with its confirmation sent, or the
   * erased forgotten.
   */
  lemma {:induction false} CleaningEnds(cfg: Config, r: Node, env: Env)
    requires r.state == RescaleCoordinating && r.rescale.cleaning != ""
    ensures OnRescaleCoordinationDone(cfg, r, env).sent ==
            r.sent + if env.sendOk then [Forgotten(Some(r.rescale.cleaning))] else []
  {
    hide MaybeRescale;
    var done := Publish(r.(rescale := r.rescale.(cleaning := "")), StableServer);
    MaybeRescaleEffect(cfg, ConfirmForgotten(done, r.rescale.cleaning, env.sendOk), env.view, env.now);
  }

  lemma {:induction false} EvictionEnds(cfg: Config, r: Node, env: Env)
    requires r.state == RescaleCoordinating && r.rescale.cleaning == "" && r.rescale.order.target == ""
    ensures var m := OnRescaleCoordinationDone(cfg, r, env);
            && m.sent == r.sent
            && forall name :: name in r.rescale.evicting && name in env.removable && name !in FailedNames(env.view) ==>
                 name !in m.rescale.failedSince
  {
    hide MaybeRescale, FailedNames;
    var removed := set name | name in r.rescale.evicting && name in env.removable;
    var a := Publish(r.(rescale := r.rescale.(failedSince := r.rescale.failedSince - removed, evicting := [])),
        StableServer);
    MaybeRescaleEffect(cfg, a, env.view, env.now);
    EvaluationForgets(cfg, a, env.view, env.now);
  }

  /**
   * And its success finishes the kind of round that was started: a confirmation for the erased name,
   * an order for the prepared machine, or the removal of the evicted machines from the failure clock.
   */
  lemma {:induction false} RoundsEndAsTheyBegan(cfg: Config, n: Node, env: Env)
    requires Sound(cfg, n) && n.state == RescaleCoordinating && WellNamed(env.view)
    ensures var m := Step(cfg, n, OperationEnded(0, true), env);
            match n.pending[0]
            case EraseLeftover(name) => m.sent == n.sent + if env.sendOk then [Forgotten(Some(name))] else []
            case PrepareConversion(name) =>
              && n.rescale.order.target == name && m.state == StableServer
              && m.sent == n.sent + if env.sendOk then [RescaleConvert(Some(n.rescale.order))] else []
            case DeleteEvicted(names) =>
              && names == n.rescale.evicting && m.sent == n.sent
              && forall name :: name in names && name in env.removable && name !in FailedNames(env.view) ==>
                   name !in m.rescale.failedSince
            case _ => false
  {
    hide MaybeRescale, RecordOk, JoinOk, FailedNames;
    var r := Retire(n, 0);
    if r.rescale.cleaning != "" {
      CleaningEnds(cfg, r, env);
      hide OnRescaleCoordinationDone;
    } else if r.rescale.order.target == "" {
      EvictionEnds(cfg, r, env);
      hide OnRescaleCoordinationDone;
    }
  }

  /** An evaluation adds no machine to the failure clock that is not failed. */
  lemma {:induction false} EvaluationForgets(cfg: Config, n: Node, v: View, now: Time)
    ensures forall name :: name in MaybeRescale(cfg, n, v, now).rescale.failedSince ==>
              name in n.rescale.failedSince || name in FailedNames(v)
  {
    hide Evictable, NextEviction, ChooseConversionTarget, IsCoordinator, EtcdIsChanging;
  }

  // --- Conversions ---

  /** A turn that completes a conversion. */
  predicate Converts(n: Node, e: Event) {
    && e.OperationEnded? && e.ok && e.which < |n.pending|
    && (n.state == RescalePromoting || n.state == RescaleDemoting)
  }

  /** The roles of the conversions a run completed, oldest first. */
  function Conversions(cfg: Config, n: Node, turns: seq<Turn>): (s: seq<Role>) {
    if turns == [] then []
    else
      var before, last := turns[..|turns| - 1], turns[|turns| - 1];
      var mid := Run(cfg, n, before);
      Conversions(cfg, n, before) + if Converts(mid, last.event) then [mid.rescale.order.role] else []
  }

  predicate Alternates(roles: seq<Role>) {
    && (forall i :: 0 <= i < |roles| ==> IsKnown(roles[i]))
    && (forall i :: 0 <= i < |roles| - 1 ==> roles[i + 1] == Other(roles[i]))
  }

  lemma {:induction false} RecordKept(cfg: Config, n: Node, e: Event, env: Env)
    requires !(e.OperationEnded? && e.ok)
    ensures Step(cfg, n, e, env).persisted == n.persisted
  {
    hide MaybeRescale, OnUserEvent, OnForgetProbed, OnJoinWaitExpired, OnMembershipChange, FirstBootSteps;
    match e {
      case MembershipChange =>
        MembershipIsQuietThenRescales(cfg, n, env.view, env.now);
        MaybeRescaleEffect(cfg, FirstBootSteps(n, env.view), env.view, env.now);
      case RescaleCheck => MaybeRescaleEffect(cfg, n, env.view, env.now);
      case OperationEnded(_, _) =>
      case _ => OtherTurnsAreQuiet(cfg, n, e, env);
    }
  }

  /** The only turns that change the recorded role are the end of a first boot and a completed conversion. */
  lemma {:induction false} RecordedRole(cfg: Config, n: Node, e: Event, env: Env)
    requires Sound(cfg, n) && n.persisted.Some? && n.state != RejoinFailed
    requires !Converts(n, e)
    ensures var m := Step(cfg, n, e, env); m.persisted.Some? && m.persisted.value.role == n.persisted.value.role
  {
    hide OnRescaleCoordinationDone;
    if e.OperationEnded? && e.ok {
      if e.which < |n.pending| && n.state == RescaleCoordinating {
        CoordinationDoneEffect(cfg, Retire(n, e.which), env);
      }
    } else {
      RecordKept(cfg, n, e, env);
    }
  }

  /**
   * In every run the completed conversions alternate between the two roles, starting from the other
   * role than the recorded one, and the record always holds the last of them.
   */
  lemma {:induction false} ConversionsAlternate(cfg: Config, n: Node, turns: seq<Turn>)
    requires Sound(cfg, n) && Legal(cfg, n, turns) && Timely(cfg, n, turns)
    ensures Alternates(Conversions(cfg, n, turns))
    ensures var done, end := Conversions(cfg, n, turns), Run(cfg, n, turns);
            && (done != [] ==> end.persisted.Some? && end.persisted.value.role == done[|done| - 1])
            && (done == [] && n.persisted.Some? ==>
                 end.persisted.Some? && end.persisted.value.role == n.persisted.value.role)
            && (done != [] && n.persisted.Some? ==> done[0] == Other(n.persisted.value.role))
  {
    hide Step, Sound, Possible, EarlyConfirmation, Converts;
    if turns != [] {
      var before, last := turns[..|turns| - 1], turns[|turns| - 1];
      var mid := Run(cfg, n, before);
      ConversionsAlternate(cfg, n, before);
      TimelyRunsAreSound(cfg, n, before);
      if Converts(mid, last.event) {
        ConversionRecordsItsRole(cfg, mid, last.event, last.env);
      } else if mid.persisted.Some? && mid.state != RejoinFailed {
        RecordedRole(cfg, mid, last.event, last.env);
      } else if mid.state == RejoinFailed {
        FailedRejoinKeepsRecord(cfg, mid, last.event, last.env);
      }
    }
  }

  lemma {:induction false} ConversionRecordsItsRole(cfg: Config, n: Node, e: Event, env: Env)
    requires Sound(cfg, n) && Possible(n, e) && Converts(n, e)
    ensures n.persisted.Some? && IsKnown(n.rescale.order.role) && n.rescale.order.role == Other(n.persisted.value.role)
    ensures var m := Step(cfg, n, e, env); m.persisted.Some? && m.persisted.value.role == n.rescale.order.role
  {
    assert n.pending[0] == ConvertTo(n.rescale.order);
  }

  lemma {:induction false} FailedRejoinKeepsRecord(cfg: Config, n: Node, e: Event, env: Env)
    requires Sound(cfg, n) && n.state == RejoinFailed
    ensures Step(cfg, n, e, env).persisted == n.persisted
  {
    if !(e.OperationEnded? && e.ok) {
      RecordKept(cfg, n, e, env);
    }
  }

  /** An order for the other role than this one, addressed to the same machine. */
  predicate Opposes(cfg: Config, order: Order, e: Event) {
    && e.UserEventReceived? && e.event.RescaleConvert? && e.event.order.Some?
    && e.event.order.value.target == cfg.name
    && (e.event.order.value.role == Server) != (order.role == Server)
  }

  /** The states a machine can be in once it has accepted an order that nothing has undone. */
  predicate IsPast(order: Order, s: State) {
    if order.role == Server then s == RescalePromoting || s == StableServer || s == RescaleCoordinating
      || s == RescaleFailed
    else s == RescaleDemoting || s == StableAgent || s == RescaleFailed
  }

  lemma {:induction false} ResultStaysPast(cfg: Config, n: Node, order: Order, which: nat, ok: bool, env: Env)
    requires Sound(cfg, n) && Possible(n, OperationEnded(which, ok)) && IsPast(order, n.state)
    ensures IsPast(order, OnOperationEnded(cfg, n, which, ok, env).state)
  {
    hide OnRescaleCoordinationDone;
    if which < |n.pending| {
      if n.state == RescaleCoordinating {
        CoordinationDoneEffect(cfg, Retire(n, which), env);
      } else if n.state == RescalePromoting || n.state == RescaleDemoting {
        assert n.pending[0] == ConvertTo(n.rescale.order);
      }
    }
  }

  lemma {:induction false} TurnStaysPast(cfg: Config, n: Node, order: Order, e: Event, env: Env)
    requires Sound(cfg, n) && Possible(n, e) && IsPast(order, n.state) && !Opposes(cfg, order, e)
    ensures IsPast(order, Step(cfg, n, e, env).state)
  {
    hide MaybeRescale, OnOperationEnded, Sound, Possible;
    match e {
      case MembershipChange =>
        InClusterOnlyRescales(cfg, n, env.view, env.now);
        MaybeRescaleEffect(cfg, n, env.view, env.now);
      case RescaleCheck => MaybeRescaleEffect(cfg, n, env.view, env.now);
      case OperationEnded(which, ok) => ResultStaysPast(cfg, n, order, which, ok, env);
      case _ =>
    }
  }

  lemma {:induction false} RunStaysPast(cfg: Config, n: Node, order: Order, turns: seq<Turn>)
    requires Sound(cfg, n) && Legal(cfg, n, turns) && Timely(cfg, n, turns) && IsPast(order, n.state)
    requires forall i :: 0 <= i < |turns| ==> !Opposes(cfg, order, turns[i].event)
    ensures IsPast(order, Run(cfg, n, turns).state)
  {
    if turns != [] {
      var before, last := turns[..|turns| - 1], turns[|turns| - 1];
      RunStaysPast(cfg, n, order, before);
      TimelyRunsAreSound(cfg, n, before);
      TurnStaysPast(cfg, Run(cfg, n, before), order, last.event, last.env);
    }
  }

  /**
   * An accepted order, delivered again any time later with no opposite order in between, changes
   * nothing at all: orders need no sequence number.
   */
  lemma {:induction false} RedeliveryChangesNothing(cfg: Config, n: Node, order: Order, env: Env, turns: seq<Turn>,
      again: Env)
    requires Sound(cfg, n) && AcceptsOrder(cfg, n, order) && GoodEnv(env)
    requires var accepted := Step(cfg, n, UserEventReceived(RescaleConvert(Some(order))), env);
             Legal(cfg, accepted, turns) && Timely(cfg, accepted, turns)
    requires forall i :: 0 <= i < |turns| ==> !Opposes(cfg, order, turns[i].event)
    ensures var end := Run(cfg, Step(cfg, n, UserEventReceived(RescaleConvert(Some(order))), env), turns);
            Step(cfg, end, UserEventReceived(RescaleConvert(Some(order))), again) == end
  {
    var accepted := Step(cfg, n, UserEventReceived(RescaleConvert(Some(order))), env);
    TurnIsSound(cfg, n, UserEventReceived(RescaleConvert(Some(order))), env);
    RunStaysPast(cfg, accepted, order, turns);
  }

  /** A conversion in progress: the state, the operation and the order that started it. */
  predicate Converting(n: Node, order: Order) {
    && n.state == (if order.role == Server then RescalePromoting else RescaleDemoting)
    && n.pending == [ConvertTo(order)] && n.rescale.order == order && n.persisted.Some?
  }

  lemma {:induction false} ConversionSurvivesTurn(cfg: Config, n: Node, order: Order, e: Event, env: Env)
    requires Converting(n, order) && !e.OperationEnded?
    ensures Converting(Step(cfg, n, e, env), order)
  {
    hide MaybeRescale;
    OnlyStableServersAct(cfg, n, env.view, env.now);
    if e.MembershipChange? {
      InClusterOnlyRescales(cfg, n, env.view, env.now);
    }
  }

  lemma {:induction false} ConversionSurvives(cfg: Config, n: Node, order: Order, turns: seq<Turn>)
    requires Converting(n, order)
    requires forall i :: 0 <= i < |turns| ==> !turns[i].event.OperationEnded?
    ensures Converting(Run(cfg, n, turns), order)
  {
    hide Step;
    if turns != [] {
      var before, last := turns[..|turns| - 1], turns[|turns| - 1];
      ConversionSurvives(cfg, n, order, before);
      ConversionSurvivesTurn(cfg, Run(cfg, n, before), order, last.event, last.env);
    }
  }

  lemma {:induction false} ConversionCompletes(cfg: Config, n: Node, order: Order, env: Env)
    requires Converting(n, order)
    ensures var m := Step(cfg, n, OperationEnded(0, true), env);
            && m.state == StableState(order.role) && m.persisted.Some? && m.persisted.value.role == order.role
            && m.pending == [] && m.rescale.order == NO_ORDER
  {
    hide MaybeRescale, OnRescaleCoordinationDone;
  }

  /**
   * Whatever its role, an accepted order is the stored one until its result, and nothing else runs; and
   * its success leaves the machine stable in the ordered role.
   */
  lemma {:induction false} OrdersLastUntilTheirResult(
    cfg: Config, n: Node, order: Order, env: Env, turns: seq<Turn>, done: Env)
    requires Sound(cfg, n) && AcceptsOrder(cfg, n, order)
    requires forall i :: 0 <= i < |turns| ==> !turns[i].event.OperationEnded?
    ensures var accepted := Step(cfg, n, UserEventReceived(RescaleConvert(Some(order))), env);
            var end := Run(cfg, accepted, turns);
            var m := Step(cfg, end, OperationEnded(0, true), done);
            && Converting(end, order)
            && m.state == StableState(order.role) && m.persisted.Some? && m.persisted.value.role == order.role
  {
    var accepted := Step(cfg, n, UserEventReceived(RescaleConvert(Some(order))), env);
    assert Converting(accepted, order);
    hide Run, Step, AcceptsOrder, Sound, Converting, StableState;
    ConversionSurvives(cfg, accepted, order, turns);
    ConversionCompletes(cfg, Run(cfg, accepted, turns), order, done);
  }

  /** An order carrying a role K3s does not have ends in failure: it can only be accepted, never completed. */
  lemma {:induction false} UnknownRolesNeverComplete(cfg: Config, n: Node, order: Order, env: Env, turns: seq<Turn>)
    requires Sound(cfg, n) && AcceptsOrder(cfg, n, order) && GoodEnv(env) && !IsKnown(order.role)
    requires var accepted := Step(cfg, n, UserEventReceived(RescaleConvert(Some(order))), env);
             Legal(cfg, accepted, turns) && Timely(cfg, accepted, turns)
    ensures var end := Run(cfg, Step(cfg, n, UserEventReceived(RescaleConvert(Some(order))), env), turns);
            (end.state == RescaleDemoting && end.rescale.order == order) || end.state == RescaleFailed
  {
    var accepted := Step(cfg, n, UserEventReceived(RescaleConvert(Some(order))), env);
    TurnIsSound(cfg, n, UserEventReceived(RescaleConvert(Some(order))), env);
    StuckOrFailed(cfg, accepted, order, turns);
  }

  lemma {:induction false} StuckTurn(cfg: Config, n: Node, order: Order, e: Event, env: Env)
    requires Sound(cfg, n) && Possible(n, e) && !IsKnown(order.role)
    requires (n.state == RescaleDemoting && n.rescale.order == order) || n.state == RescaleFailed
    ensures var m := Step(cfg, n, e, env);
            (m.state == RescaleDemoting && m.rescale.order == order) || m.state == RescaleFailed
  {
    hide MaybeRescale;
    match e {
      case MembershipChange =>
        InClusterOnlyRescales(cfg, n, env.view, env.now);
        OnlyStableServersAct(cfg, n, env.view, env.now);
      case RescaleCheck => OnlyStableServersAct(cfg, n, env.view, env.now);
      case OperationEnded(which, ok) =>
        if which < |n.pending| {
          assert n.pending[0] == ConvertTo(n.rescale.order);
        }
      case _ =>
    }
  }

  lemma {:induction false} StuckOrFailed(cfg: Config, n: Node, order: Order, turns: seq<Turn>)
    requires Sound(cfg, n) && Legal(cfg, n, turns) && Timely(cfg, n, turns) && !IsKnown(order.role)
    requires n.state == RescaleDemoting && n.rescale.order == order
    ensures var end := Run(cfg, n, turns);
            (end.state == RescaleDemoting && end.rescale.order == order) || end.state == RescaleFailed
  {
    hide Step, Sound;
    if turns != [] {
      var before, last := turns[..|turns| - 1], turns[|turns| - 1];
      StuckOrFailed(cfg, n, order, before);
      TimelyRunsAreSound(cfg, n, before);
      StuckTurn(cfg, Run(cfg, n, before), order, last.event, last.env);
    }
  }
}

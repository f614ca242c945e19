/**
 * The rescaling turn among all the machines of a cluster that share one view of the membership: it
 * passes from the machine that coordinates, to the order it broadcasts, to the machine that converts.
 */
module RescaleTurn {
  import opened Names
  import opened Lifecycle
  import opened ClusterView
  import opened NodeStep
  import opened NodeRuns
  import opened Clocks

  /** The machines that run, the failed ones with their last tag, and the orders on their way. */
  datatype World = World(nodes: map<Name, Node>, gone: map<Name, State>, orders: seq<Order>)

  /** A machine takes a turn; an order reaches its target, gets lost, or is repeated; a machine stops, or boots. */
  datatype Move =
    | Turns(who: Name, event: Event, env: Env)
    | Arrives(which: nat, env: Env)
    | Vanishes(which: nat)
    | Repeats(which: nat)
    | Stops(who: Name)
    | Boots(who: Name, file: LoadResult)

  /** The orders among some broadcasts. */
  function OrdersIn(sent: seq<UserEvent>): (s: seq<Order>) {
    if sent == [] then []
    else
      var rest, last := OrdersIn(sent[..|sent| - 1]), sent[|sent| - 1];
      if last.RescaleConvert? && last.order.Some? then rest + [last.order.value] else rest
  }

  function NewOrders(n: Node, m: Node): (s: seq<Order>) {
    if |n.sent| <= |m.sent| then OrdersIn(m.sent[|n.sent|..]) else []
  }

  /** The machines a turn erases from the membership. */
  function Removed(n: Node, e: Event, env: Env): (s: set<Name>) {
    if EndsRound(n, e) then RemovedBy(n, env) else {}
  }

  function TurnOf(base: Config, w: World, x: Name, e: Event, env: Env): (d: World)
    requires x in w.nodes
  {
    var n := w.nodes[x];
    var m := Step(ConfigOf(base, x), n, e, env);
    World(w.nodes[x := m], w.gone - Removed(n, e, env), w.orders + NewOrders(n, m))
  }

  function WithoutOrder(w: World, which: nat): (d: World) {
    if which < |w.orders| then w.(orders := w.orders[..which] + w.orders[which + 1..]) else w
  }

  function After(base: Config, w: World, move: Move): (d: World) {
    match move
    case Turns(x, e, env) => if x in w.nodes then TurnOf(base, w, x, e, env) else w
    case Arrives(i, env) =>
      if i < |w.orders| && w.orders[i].target in w.nodes then
        TurnOf(base, WithoutOrder(w, i), w.orders[i].target, UserEventReceived(RescaleConvert(Some(w.orders[i]))), env)
      else WithoutOrder(w, i)
    case Vanishes(i) => WithoutOrder(w, i)
    case Repeats(i) => if i < |w.orders| then w.(orders := w.orders + [w.orders[i]]) else w
    case Stops(x) =>
      if x in w.nodes then World(w.nodes - {x}, w.gone[x := w.nodes[x].state], w.orders) else w
    case Boots(x, file) =>
      World(w.nodes[x := ChooseInitialState(ConfigOf(base, x), Fresh(), file)], w.gone - {x}, w.orders)
  }

  /** Every other running machine is seen alive in the state it is in; anything may be seen besides. */
  ghost predicate Shared(w: World, self: Name, v: View) {
    forall y :: y in w.nodes && y != self ==> exists m :: m in v && m.name == y && Matches(m, w.nodes[y].state)
  }

  predicate BringsOrder(e: Event, self: Name) {
    e.UserEventReceived? && e.event.RescaleConvert? && e.event.order.Some? && e.event.order.value.target == self
  }

  /** Machines act on the shared view; orders only come out of the bag, and each of them once. */
  ghost predicate CanMove(w: World, move: Move) {
    && !move.Repeats?
    && (move.Turns? ==> Shared(w, move.who, move.env.view) && !BringsOrder(move.event, move.who))
  }

  /** A round only starts once the last order has arrived or got lost. */
  ghost predicate Prompt(base: Config, w: World, move: Move) {
    move.Turns? && move.who in w.nodes && w.nodes[move.who].state == StableServer ==>
      After(base, w, move).nodes[move.who].state == RescaleCoordinating ==> w.orders == []
  }

  // --- The turn ---

  predicate HoldsTurn(s: State) {
    s.RescaleCoordinating? || s.RescalePromoting? || s.RescaleDemoting?
  }

  ghost function Holders(w: World): (s: set<Name>) {
    set x | x in w.nodes && HoldsTurn(w.nodes[x].state)
  }

  /** One coordinating machine, one order on its way, or one converting machine, and only one of them. */
  ghost predicate OneTurn(w: World) {
    |Holders(w)| + |w.orders| <= 1
  }

  // --- What a turn does to the turn ---

  /** The turn is taken from a quiet cluster, and given away only with an order. */
  predicate PassesOn(n: Node, m: Node, v: View) {
    && n.sent <= m.sent
    && (HoldsTurn(m.state) ==>
         HoldsTurn(n.state) || (n.state == StableServer && m.state == RescaleCoordinating && !EtcdIsChanging(v)))
    && (NewOrders(n, m) == [] || (|NewOrders(n, m)| == 1 && n.state == RescaleCoordinating && m.state == StableServer))
  }

  lemma {:induction false} OrdersInFew(e: UserEvent)
    ensures OrdersIn([]) == []
    ensures OrdersIn([e]) == if e.RescaleConvert? && e.order.Some? then [e.order.value] else []
  {
    assert [e][..0] == [];
  }

  lemma {:induction false} NoNews(n: Node, m: Node)
    requires m.sent == n.sent
    ensures NewOrders(n, m) == [] && n.sent <= m.sent
  {
    assert m.sent[|n.sent|..] == [];
  }

  lemma {:induction false} OneNews(n: Node, m: Node, e: UserEvent)
    requires m.sent == n.sent + [e]
    ensures NewOrders(n, m) == (if e.RescaleConvert? && e.order.Some? then [e.order.value] else []) && n.sent <= m.sent
  {
    assert m.sent[|n.sent|..] == [e];
    OrdersInFew(e);
  }

  lemma {:induction false} EvaluationPassesOn(cfg: Config, n: Node, v: View, now: Time)
    ensures var m := MaybeRescale(cfg, n, v, now);
            && m.sent == n.sent
            && (m.state == n.state || (n.state == StableServer && m.state == RescaleCoordinating && !EtcdIsChanging(v)))
  {
    hide Repair, TrackFailures, IsCoordinator, EtcdIsChanging;
    if n.state == StableServer {
      var t := n.(rescale := n.rescale.(failedSince := TrackFailures(n.rescale.failedSince, FailedNames(v), now)));
      RepairEffect(cfg, t, v, now);
    }
  }

  lemma {:induction false} FirstBootPassesOn(n: Node, v: View)
    ensures MaybeJoinCluster(n, v).sent == n.sent && MaybeInstallAgent(MaybeInstallServer(n, v), v).sent == n.sent
    ensures HoldsTurn(MaybeJoinCluster(n, v).state) ==> HoldsTurn(n.state)
    ensures HoldsTurn(MaybeInstallAgent(MaybeInstallServer(n, v), v).state) ==> HoldsTurn(n.state)
  {
    hide Lowest, StableServerCount, ServerTarget;
  }

  lemma {:induction false} FirstBootStepsSendNothing(n: Node, v: View)
    ensures FirstBootSteps(n, v).sent == n.sent
  {
    hide MaybeJoinCluster, MaybeInstallAgent, MaybeInstallServer, Lowest;
    var a := MaybeStartJoiningPath(n, v);
    FirstBootPassesOn(a, v);
    FirstBootPassesOn(MaybeJoinCluster(a, v), v);
  }

  lemma {:induction false} MembershipPassesOn(cfg: Config, n: Node, v: View, now: Time)
    ensures PassesOn(n, OnMembershipChange(cfg, n, v, now), v)
  {
    hide MaybeRescale, FirstBootSteps, OnMembershipChange, EtcdIsChanging;
    MembershipIsQuietThenRescales(cfg, n, v, now);
    FirstBootStepsAreForFirstBoots(n, v);
    FirstBootStepsSendNothing(n, v);
    EvaluationPassesOn(cfg, FirstBootSteps(n, v), v, now);
    NoNews(n, OnMembershipChange(cfg, n, v, now));
  }

  lemma {:induction false} UserEventPassesOn(cfg: Config, n: Node, event: UserEvent, env: Env)
    requires !BringsOrder(UserEventReceived(event), cfg.name)
    ensures PassesOn(n, OnUserEvent(cfg, n, event, env), env.view)
    ensures OnUserEvent(cfg, n, event, env).sent == n.sent
  {
    hide MaybeJoinCluster, MaybeInstallAgent, MaybeInstallServer, RankOf, AliveNames, ExistingClusterSeen, CanForget,
         EtcdIsChanging;
    var m := OnUserEvent(cfg, n, event, env);
    if event == BootstrapStart && n.state == BootstrapWaiting && RankOf(AliveNames(env.view), cfg.name) > 0 {
      FirstBootPassesOn(AssignRole(n, AliveNames(env.view), RankOf(AliveNames(env.view), cfg.name)), env.view);
    } else if event == Forgotten(Some(cfg.name)) && n.state == JoiningCleanup {
      FirstBootPassesOn(Publish(n, JoiningWaiting).(joining := n.joining.(timer := false, cleaned := true)), env.view);
    }
    NoNews(n, m);
  }

  lemma {:induction false} SendingPassesOn(n: Node, m: Node, v: View, event: UserEvent)
    requires m.sent == n.sent || m.sent == n.sent + [event]
    requires event.RescaleConvert? && event.order.Some? && m.sent != n.sent ==>
               n.state == RescaleCoordinating && m.state == StableServer
    requires HoldsTurn(m.state) ==>
               HoldsTurn(n.state) || (n.state == StableServer && m.state == RescaleCoordinating && !EtcdIsChanging(v))
    ensures PassesOn(n, m, v)
  {
    hide EtcdIsChanging;
    if m.sent == n.sent {
      NoNews(n, m);
    } else {
      OneNews(n, m, event);
    }
  }

  lemma {:induction false} RoundEndPassesOn(cfg: Config, n: Node, r: Node, env: Env)
    requires n.state == RescaleCoordinating && r == n.(pending := r.pending)
    ensures PassesOn(n, OnRescaleCoordinationDone(cfg, r, env), env.view)
  {
    hide MaybeRescale, EtcdIsChanging;
    var m := OnRescaleCoordinationDone(cfg, r, env);
    if r.rescale.cleaning != "" {
      var a := ConfirmForgotten(Publish(r.(rescale := r.rescale.(cleaning := "")), StableServer), r.rescale.cleaning,
          env.sendOk);
      EvaluationPassesOn(cfg, a, env.view, env.now);
      SendingPassesOn(n, m, env.view, Forgotten(Some(r.rescale.cleaning)));
    } else if r.rescale.order.target == "" {
      var removed := set name | name in r.rescale.evicting && name in env.removable;
      var a := Publish(r.(rescale := r.rescale.(failedSince := r.rescale.failedSince - removed, evicting := [])),
          StableServer);
      EvaluationPassesOn(cfg, a, env.view, env.now);
      NoNews(n, m);
    } else {
      SendingPassesOn(n, m, env.view, RescaleConvert(Some(r.rescale.order)));
    }
  }

  lemma {:induction false} ResultPassesOn(cfg: Config, n: Node, which: nat, ok: bool, env: Env)
    ensures PassesOn(n, OnOperationEnded(cfg, n, which, ok, env), env.view)
  {
    hide OnRescaleCoordinationDone, EtcdIsChanging;
    var m := OnOperationEnded(cfg, n, which, ok, env);
    if which < |n.pending| && ok && n.state == RescaleCoordinating {
      RoundEndPassesOn(cfg, n, Retire(n, which), env);
    } else {
      SendingPassesOn(n, m, env.view, ForgetMe(Some(cfg.name)));
    }
  }

  lemma {:induction false} TurnPassesOn(cfg: Config, n: Node, e: Event, env: Env)
    requires !BringsOrder(e, cfg.name)
    ensures PassesOn(n, Step(cfg, n, e, env), env.view)
  {
    hide MaybeRescale, OnMembershipChange, OnUserEvent, OnOperationEnded, MaybeJoinCluster, EtcdIsChanging,
         IsVirgin, IsCoordinator, ExistingClusterSeen, PassesOn;
    var m := Step(cfg, n, e, env);
    match e {
      case MembershipChange => MembershipPassesOn(cfg, n, env.view, env.now);
      case UserEventReceived(event) => UserEventPassesOn(cfg, n, event, env);
      case RescaleCheck =>
        EvaluationPassesOn(cfg, n, env.view, env.now);
        SendingPassesOn(n, m, env.view, BootstrapRequested);
      case OperationEnded(which, ok) => ResultPassesOn(cfg, n, which, ok, env);
      case JoinWaitExpired =>
        FirstBootPassesOn(n.(joining := n.joining.(settled := true, timer := false)), env.view);
        SendingPassesOn(n, m, env.view, BootstrapRequested);
      case ForgetProbed(name, found) => SendingPassesOn(n, m, env.view, Forgotten(Some(name)));
      case ForgetRetry => SendingPassesOn(n, m, env.view, ForgetMe(Some(cfg.name)));
      case BootstrapWaitExpired => SendingPassesOn(n, m, env.view, BootstrapStart);
      case _ => SendingPassesOn(n, m, env.view, BootstrapRequested);
    }
  }

  /** An order makes its target the holder at most, and is answered by no other order. */
  lemma {:induction false} OrderPassesOn(cfg: Config, n: Node, order: Order, env: Env)
    ensures var m := Step(cfg, n, UserEventReceived(RescaleConvert(Some(order))), env);
            NewOrders(n, m) == [] && m.sent == n.sent
              && (m.state == RescaleCoordinating ==> n.state == RescaleCoordinating)
  {
    var m := Step(cfg, n, UserEventReceived(RescaleConvert(Some(order))), env);
    NoNews(n, m);
  }

  // --- One turn at a time ---

  /** A machine that takes the turn saw nobody else hold it. */
  lemma {:induction false} NobodyElseHolds(w: World, self: Name, v: View)
    requires Shared(w, self, v) && !EtcdIsChanging(v)
    ensures Holders(w) <= {self}
  {
    forall y | y in w.nodes && y != self ensures !HoldsTurn(w.nodes[y].state) {
      var m :| m in v && m.name == y && Matches(m, w.nodes[y].state);
      assert !IsBusy(m);
    }
  }

  lemma {:induction false} TurnKeepsOneTurn(base: Config, w: World, x: Name, e: Event, env: Env)
    requires OneTurn(w) && x in w.nodes && Shared(w, x, env.view) && !BringsOrder(e, x)
               && Prompt(base, w, Turns(x, e, env))
    ensures OneTurn(TurnOf(base, w, x, e, env))
  {
    hide Step, EtcdIsChanging;
    var n := w.nodes[x];
    var d := TurnOf(base, w, x, e, env);
    var m := d.nodes[x];
    TurnPassesOn(ConfigOf(base, x), n, e, env);
    assert Holders(d) <= Holders(w) + {x};
    if HoldsTurn(m.state) {
      if HoldsTurn(n.state) {
        assert Holders(d) == Holders(w);
      } else {
        NobodyElseHolds(w, x, env.view);
        assert Holders(d) == {x};
      }
    } else {
      assert Holders(d) == Holders(w) - {x};
    }
  }

  lemma {:induction false} ArrivalKeepsOneTurn(base: Config, w: World, which: nat, env: Env)
    requires OneTurn(w) && which < |w.orders| && w.orders[which].target in w.nodes
    ensures OneTurn(After(base, w, Arrives(which, env)))
  {
    hide Step;
    var order := w.orders[which];
    var x := order.target;
    var d := After(base, w, Arrives(which, env));
    assert Holders(w) == {};
    OrderPassesOn(ConfigOf(base, x), w.nodes[x], order, env);
    assert d.orders == [];
    SubsetSize(Holders(d), {x});
  }

  /** Every move keeps the turn in one place. */
  lemma {:induction false} MovesKeepOneTurn(base: Config, w: World, move: Move)
    requires OneTurn(w) && CanMove(w, move) && Prompt(base, w, move)
    ensures OneTurn(After(base, w, move))
  {
    hide Step, Shared;
    var d := After(base, w, move);
    match move {
      case Turns(x, e, env) =>
        if x in w.nodes {
          TurnKeepsOneTurn(base, w, x, e, env);
        }
      case Arrives(i, env) =>
        if i < |w.orders| && w.orders[i].target in w.nodes {
          ArrivalKeepsOneTurn(base, w, i, env);
        } else {
          assert Holders(d) == Holders(w);
        }
      case Vanishes(i) => assert Holders(d) == Holders(w);
      case Stops(x) => SubsetSize(Holders(d), Holders(w));
      case Boots(x, file) => SubsetSize(Holders(d), Holders(w));
    }
  }

  // --- Runs ---

  function Course(base: Config, w: World, moves: seq<Move>): (d: World) {
    if moves == [] then w else After(base, Course(base, w, moves[..|moves| - 1]), moves[|moves| - 1])
  }

  ghost predicate CanCourse(base: Config, w: World, moves: seq<Move>) {
    moves != [] ==>
      && CanCourse(base, w, moves[..|moves| - 1])
      && CanMove(Course(base, w, moves[..|moves| - 1]), moves[|moves| - 1])
      && Prompt(base, Course(base, w, moves[..|moves| - 1]), moves[|moves| - 1])
  }

  /**
   * Whatever stops, boots or gets lost: as long as orders settle before the next round, at most one
   * of a coordinating machine, an order on its way and a converting machine exists at any time.
   */
  lemma {:induction false} OneTurnThroughout(base: Config, w: World, moves: seq<Move>)
    requires OneTurn(w) && CanCourse(base, w, moves)
    ensures OneTurn(Course(base, w, moves))
  {
    hide After, OneTurn, CanMove, Prompt;
    if moves != [] {
      OneTurnThroughout(base, w, moves[..|moves| - 1]);
      MovesKeepOneTurn(base, Course(base, w, moves[..|moves| - 1]), moves[|moves| - 1]);
    }
  }

  // --- Without the promise about orders ---

  ghost predicate OneCoordinator(w: World) {
    forall x, y | x in w.nodes && y in w.nodes ::
      w.nodes[x].state == RescaleCoordinating && w.nodes[y].state == RescaleCoordinating ==> x == y
  }

  /** Any turn, with any event: orders may be late, repeated, or from anywhere. */
  ghost predicate CanMoveAnyhow(w: World, move: Move) {
    move.Turns? ==> Shared(w, move.who, move.env.view)
  }

  lemma {:induction false} NewCoordinatorIsAlone(base: Config, w: World, x: Name, e: Event, env: Env)
    requires x in w.nodes && Shared(w, x, env.view)
    requires TurnOf(base, w, x, e, env).nodes[x].state == RescaleCoordinating && w.nodes[x].state != RescaleCoordinating
    ensures Holders(w) <= {x}
  {
    hide Step, EtcdIsChanging, Shared;
    if BringsOrder(e, x) {
      OrderPassesOn(ConfigOf(base, x), w.nodes[x], e.event.order.value, env);
    } else {
      TurnPassesOn(ConfigOf(base, x), w.nodes[x], e, env);
      if !HoldsTurn(w.nodes[x].state) {
        NobodyElseHolds(w, x, env.view);
      } else {
        ConvertersDoNotCoordinate(ConfigOf(base, x), w.nodes[x], e, env);
      }
    }
  }

  lemma {:induction false} ConvertersDoNotCoordinate(cfg: Config, n: Node, e: Event, env: Env)
    requires n.state == RescalePromoting || n.state == RescaleDemoting
    ensures Step(cfg, n, e, env).state != RescaleCoordinating
  {
    hide MaybeRescale;
    EvaluationPassesOn(cfg, n, env.view, env.now);
    if e.MembershipChange? {
      InClusterOnlyRescales(cfg, n, env.view, env.now);
    }
  }

  lemma {:induction false} MovesKeepOneCoordinator(base: Config, w: World, move: Move)
    requires OneCoordinator(w) && CanMoveAnyhow(w, move)
    ensures OneCoordinator(After(base, w, move))
  {
    hide Step, Shared;
    var d := After(base, w, move);
    match move {
      case Turns(x, e, env) =>
        if x in w.nodes && d.nodes[x].state == RescaleCoordinating && w.nodes[x].state != RescaleCoordinating {
          NewCoordinatorIsAlone(base, w, x, e, env);
          assert forall y :: y in w.nodes && w.nodes[y].state == RescaleCoordinating ==> y in Holders(w);
        }
      case Arrives(i, env) =>
        if i < |w.orders| && w.orders[i].target in w.nodes {
          OrderPassesOn(ConfigOf(base, w.orders[i].target), w.nodes[w.orders[i].target], w.orders[i], env);
        }
      case _ =>
    }
  }

  ghost predicate CanCourseAnyhow(base: Config, w: World, moves: seq<Move>) {
    moves != [] ==>
      && CanCourseAnyhow(base, w, moves[..|moves| - 1])
      && CanMoveAnyhow(Course(base, w, moves[..|moves| - 1]), moves[|moves| - 1])
  }

  /** Even then, no two running machines coordinate at the same time. */
  lemma {:induction false} OneCoordinatorThroughout(base: Config, w: World, moves: seq<Move>)
    requires OneCoordinator(w) && CanCourseAnyhow(base, w, moves)
    ensures OneCoordinator(Course(base, w, moves))
  {
    hide After, OneCoordinator, CanMoveAnyhow;
    if moves != [] {
      OneCoordinatorThroughout(base, w, moves[..|moves| - 1]);
      MovesKeepOneCoordinator(base, Course(base, w, moves[..|moves| - 1]), moves[|moves| - 1]);
    }
  }
}

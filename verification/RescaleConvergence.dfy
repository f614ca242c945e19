/**
 * Rescaling as a whole: from any stable cluster, with the machines that are durably gone, to the one
 * control plane the name order and the target size call for.
 */
module RescaleConvergence {
  import opened Names
  import opened Lifecycle
  import opened ClusterView
  import opened NodeStep
  import opened NodeRuns
  import opened Clocks
  import opened Deadlines
  import opened RescaleTurn
  import ViewLaws

  // --- Where the servers are heading ---

  /** The cluster as rescaling finds it: its servers, its agents, and those gone since before an instant. */
  datatype Origin = Origin(servers: set<Name>, agents: set<Name>, failed: set<Name>, now: Time)

  function Target(o: Origin): (k: int) {
    ServerTarget(|o.servers| + |o.agents|)
  }

  /** The part comes before the rest, in name order. */
  ghost predicate Leads(part: set<Name>, whole: set<Name>) {
    part <= whole && forall x, y :: x in part && y in whole - part ==> Less(x, y)
  }

  /** The original servers with the lowest-named agents, or without the highest-named servers. */
  ghost predicate OnPath(o: Origin, servers: set<Name>) {
    if |servers| >= |o.servers| then o.servers <= servers && Leads(servers - o.servers, o.agents)
    else Leads(servers, o.servers)
  }

  /** Between the original size and the target. */
  predicate Between(o: Origin, size: int) {
    || |o.servers| <= size <= Target(o)
    || Target(o) <= size <= |o.servers|
  }

  predicate WellFormed(o: Origin) {
    o.servers != {} && o.servers !! o.agents && o.failed !! o.servers + o.agents
  }

  lemma {:induction false} LeadersAgree(a: set<Name>, b: set<Name>, whole: set<Name>)
    requires Leads(a, whole) && Leads(b, whole) && |a| == |b|
    ensures a == b
  {
    if x :| x in a && x !in b {
      forall y | y in b ensures y in a {
        if y !in a {
          LessIsAsymmetric(x, y);
        }
      }
      FullSubset(b, a);
    } else {
      FullSubset(a, b);
    }
  }

  /** Only one set of servers of each size is on the path. */
  lemma {:induction false} PathIsUnique(o: Origin, a: set<Name>, b: set<Name>)
    requires OnPath(o, a) && OnPath(o, b) && |a| == |b|
    ensures a == b
  {
    if |a| >= |o.servers| {
      assert a == o.servers + (a - o.servers) && b == o.servers + (b - o.servers);
      LeadersAgree(a - o.servers, b - o.servers, o.agents);
    } else {
      LeadersAgree(a, b, o.servers);
    }
  }

  lemma {:induction false} TargetIsReachable(o: Origin)
    requires WellFormed(o)
    ensures 1 <= Target(o) <= |o.servers + o.agents| == |o.servers| + |o.agents|
    ensures |o.servers| >= 1
  {
    assert |o.servers| >= 1 by { SubsetSize({}, o.servers); }
  }

  lemma {:induction false} PathGrows(o: Origin, s: set<Name>, x: Name)
    requires WellFormed(o) && OnPath(o, s) && Between(o, |s|) && |s| < Target(o)
    requires x in o.servers + o.agents && x !in s
    requires forall y :: y in o.servers + o.agents && y !in s && y != x ==> Less(x, y)
    ensures OnPath(o, s + {x}) && Between(o, |s + {x}|) && |s + {x}| == |s| + 1
  {
    assert (s + {x}) - o.servers == (s - o.servers) + {x};
  }

  lemma {:induction false} PathShrinks(o: Origin, s: set<Name>, x: Name)
    requires WellFormed(o) && OnPath(o, s) && Between(o, |s|) && |s| > Target(o)
    requires x in s && forall y :: y in s && y != x ==> Less(y, x)
    ensures OnPath(o, s - {x}) && Between(o, |s - {x}|) && |s - {x}| == |s| - 1
  {
    if |s| >= |o.servers| {
      FullSubset(o.servers, s);
    }
  }

  // --- The cluster on its way ---

  predicate RunsServer(n: Node) {
    n.persisted.Some? && n.persisted.value.role == Server
  }

  ghost function ServersOf(w: World): (s: set<Name>) {
    set x | x in w.nodes && RunsServer(w.nodes[x])
  }

  /** The one order that takes the servers a step further. */
  ghost predicate IsNext(o: Origin, w: World, order: Order) {
    && order.joinIP != "" && w.gone.Keys == {} && order.target in w.nodes
    && if |ServersOf(w)| < Target(o) then
         order.role == Server && order.target !in ServersOf(w)
         && forall y :: y in w.nodes && y !in ServersOf(w) && y != order.target ==> Less(order.target, y)
       else
         |ServersOf(w)| > Target(o) && order.role == Agent && order.target in ServersOf(w)
         && forall y :: y in ServersOf(w) && y != order.target ==> Less(y, order.target)
  }

  predicate IsUp(s: State) {
    s == StableServer || s == StableAgent || HoldsTurn(s)
  }

  /** An order that was carried out already: its target will not take it again. */
  ghost predicate IsSpent(o: Origin, w: World, order: Order) {
    && w.gone.Keys == {} && order.target in w.nodes
    && (|| (order.role == Server && |o.servers| <= Target(o) && order.target in ServersOf(w))
        || (order.role == Agent && |o.servers| >= Target(o) && order.target !in ServersOf(w)))
  }

  ghost predicate IsSettled(o: Origin, w: World, order: Order) {
    IsNext(o, w, order) || IsSpent(o, w, order)
  }

  /** The round is the one that is due. */
  ghost predicate RoundIsDue(o: Origin, w: World, r: Rescale) {
    if r.order.target == "" then (set x | x in r.evicting) == w.gone.Keys else IsNext(o, w, r.order)
  }

  /** A round in progress: the one that is due, or one whose order was carried out in the meantime. */
  ghost predicate RoundFits(o: Origin, w: World, r: Rescale) {
    if r.order.target == "" then (set x | x in r.evicting) == w.gone.Keys else IsSettled(o, w, r.order)
  }

  ghost predicate IsLowestServer(w: World, x: Name) {
    forall y :: y in ServersOf(w) && y != x ==> Less(x, y)
  }

  ghost predicate MachineOk(base: Config, o: Origin, w: World, x: Name, n: Node) {
    && Sound(ConfigOf(base, x), n) && IsUp(n.state)
    && n.rescale.cleaning == ""
    && (forall y :: y in w.gone ==> y in n.rescale.failedSince && n.rescale.failedSince[y] + base.grace <= o.now)
    && (n.state == RescaleCoordinating ==>
          RoundFits(o, w, n.rescale) && (|o.servers| > Target(o) ==> IsLowestServer(w, x)))
    && (n.state == RescalePromoting || n.state == RescaleDemoting ==> IsNext(o, w, n.rescale.order))
  }

  ghost predicate OnCourse(base: Config, o: Origin, w: World) {
    && w.nodes.Keys == o.servers + o.agents
    && (w.gone.Keys == o.failed || w.gone.Keys == {})
    && (w.gone.Keys != {} ==> ServersOf(w) == o.servers)
    && OneCoordinator(w)
    && OnPath(o, ServersOf(w)) && Between(o, |ServersOf(w)|)
    && (forall x :: x in w.nodes ==> MachineOk(base, o, w, x, w.nodes[x]))
    && (forall order :: order in w.orders ==> IsSettled(o, w, order))
  }

  /** Every machine is stable, and the failed ones have been so for the whole grace period. */
  ghost predicate Begins(base: Config, o: Origin, w: World) {
    && w.nodes.Keys == o.servers + o.agents && w.gone.Keys == o.failed && w.orders == []
    && (forall x :: x in w.nodes ==>
          && Sound(ConfigOf(base, x), w.nodes[x])
          && w.nodes[x].state == (if x in o.servers then StableServer else StableAgent)
          && forall y :: y in w.gone ==>
               y in w.nodes[x].rescale.failedSince && w.nodes[x].rescale.failedSince[y] + base.grace <= o.now)
  }

  /** What soundness says of a machine that is up. */
  lemma {:induction false} UpMachines(cfg: Config, n: Node)
    requires Sound(cfg, n) && IsUp(n.state)
    ensures n.state == StableServer || n.state == StableAgent ==>
              n.pending == [] && n.rescale.order == NO_ORDER && n.rescale.evicting == [] && n.rescale.cleaning == ""
    ensures n.state == StableServer || n.state == RescaleCoordinating || n.state == RescaleDemoting <==> RunsServer(n)
    ensures n.persisted.Some?
  {}

  lemma {:induction false} PathBegins(o: Origin)
    requires WellFormed(o)
    ensures OnPath(o, o.servers) && Between(o, |o.servers|)
  {
    assert o.servers - o.servers == {};
  }

  lemma {:induction false} FreshMachineIsOk(base: Config, o: Origin, w: World, x: Name)
    requires Begins(base, o, w) && x in w.nodes
    ensures MachineOk(base, o, w, x, w.nodes[x])
    ensures RunsServer(w.nodes[x]) <==> x in o.servers
    ensures !HoldsTurn(w.nodes[x].state) && w.nodes[x].state != RescaleCoordinating
  {
    hide RunsServer, RoundFits, IsNext;
    UpMachines(ConfigOf(base, x), w.nodes[x]);
    hide Sound;
  }

  lemma {:induction false} BeginningIsOnCourse(base: Config, o: Origin, w: World)
    requires WellFormed(o) && Begins(base, o, w)
    ensures OnCourse(base, o, w)
  {
    hide Sound, MachineOk, RunsServer, IsNext, OnPath, Between;
    forall x | x in w.nodes
      ensures RunsServer(w.nodes[x]) <==> x in o.servers
      ensures MachineOk(base, o, w, x, w.nodes[x])
      ensures !HoldsTurn(w.nodes[x].state) && w.nodes[x].state != RescaleCoordinating
    {
      FreshMachineIsOk(base, o, w, x);
    }
    hide HoldsTurn, Begins;
    assert w.nodes.Keys == o.servers + o.agents && w.gone.Keys == o.failed && w.orders == [];
    assert Holders(w) == {};
    assert ServersOf(w) == o.servers;
    PathBegins(o);
  }

  // --- What the machines see ---

  /** Exactly the running machines under these tags and the failed ones; whoever left does not matter. */
  ghost predicate Exact(tags: map<Name, State>, gone: map<Name, State>, v: View) {
    && WellNamed(v)
    && (forall m :: m in v ==>
          || (m.name in tags && m.status == Alive && m.tag == tags[m.name])
          || (m.name in gone && m.name !in tags && m.status == Failed && m.tag == gone[m.name])
          || (m.name !in gone && m.name !in tags && !IsPopulation(m)))
    && (forall x :: x in tags || x in gone ==> exists m :: m in v && m.name == x)
  }

  function TagsOf(w: World): (r: map<Name, State>) {
    map x | x in w.nodes :: w.nodes[x].state
  }

  /** A round that fails, an order that cannot be broadcast, or one that gets lost. */
  predicate IsSetback(w: World, move: Move) {
    || (move.Vanishes? && move.which < |w.orders|)
    || (move.Turns? && move.who in w.nodes && Abandons(w.nodes[move.who], move.event, move.env))
  }

  /**
   * Evaluations whenever they come, results of rounds, good or bad, conversions that succeed, and orders
   * that arrive at any time, get lost, or are repeated.
   */
  ghost predicate Goes(base: Config, o: Origin, w: World, move: Move) {
    match move
    case Turns(x, e, env) =>
      && x in w.nodes && env.now >= o.now && env.now > NO_TIME
      && (forall y :: y in w.nodes[x].rescale.evicting ==> y in env.removable)
      && (|| (e.MembershipChange? && Exact(TagsOf(w), w.gone, env.view))
          || (e.RescaleCheck? && Exact(TagsOf(w), w.gone, env.view))
          || (e.OperationEnded? && e.which == 0 && w.nodes[x].pending != []
              && (e.ok || w.nodes[x].state == RescaleCoordinating)
              && Exact(TagsOf(w)[x := StableServer], w.gone - Removed(w.nodes[x], e, env), env.view)))
    case Arrives(i, env) => i < |w.orders| && GoodEnv(env)
    case Vanishes(i) => i < |w.orders|
    case Repeats(i) => i < |w.orders|
    case _ => false
  }

  /** Nothing is going on: each machine shows the role it runs. */
  predicate Quiet(tags: map<Name, State>, servers: set<Name>) {
    servers <= tags.Keys && forall x :: x in tags ==> tags[x] == if x in servers then StableServer else StableAgent
  }

  lemma {:induction false} Visible(tags: map<Name, State>, gone: map<Name, State>, v: View, x: Name) returns (m: Member)
    requires Exact(tags, gone, v) && (x in tags || x in gone)
    ensures m in v && m.name == x
    ensures x in tags ==> m.status == Alive && m.tag == tags[x]
    ensures x !in tags ==> m.status == Failed && m.tag == gone[x]
  {
    m :| m in v && m.name == x;
  }

  lemma {:induction false} FailedAreGone(tags: map<Name, State>, gone: map<Name, State>, v: View)
    requires Exact(tags, gone, v) && tags.Keys !! gone.Keys
    ensures ViewLaws.Those(v, IsFailed) == gone.Keys
    ensures forall x :: x in FailedNames(v) <==> x in gone
  {
    forall x | x in gone ensures x in ViewLaws.Those(v, IsFailed) {
      var m := Visible(tags, gone, v, x);
    }
    ViewLaws.NamesAreListedOnce(v, IsFailed);
  }

  lemma {:induction false} AllAreCounted(tags: map<Name, State>, v: View)
    requires Exact(tags, map[], v)
    ensures ViewLaws.Those(v, IsPopulation) == tags.Keys
  {
    forall x | x in tags ensures x in ViewLaws.Those(v, IsPopulation) {
      var m := Visible(tags, map[], v, x);
    }
  }

  lemma {:induction false} ServersAreCounted(tags: map<Name, State>, v: View, servers: set<Name>)
    requires Exact(tags, map[], v) && Quiet(tags, servers)
    ensures ViewLaws.Those(v, HoldsServerSlot) == servers
    ensures ViewLaws.Those(v, IsStableServer) == servers
  {
    forall x | x in servers ensures x in ViewLaws.Those(v, HoldsServerSlot) && x in ViewLaws.Those(v, IsStableServer) {
      var m := Visible(tags, map[], v, x);
    }
  }

  lemma {:induction false} QuietCounts(tags: map<Name, State>, v: View, servers: set<Name>)
    requires Exact(tags, map[], v) && Quiet(tags, servers)
    ensures Population(v) == |tags.Keys| && K3sServerCount(v) == |servers| && StableServerCount(v) == |servers|
  {
    AllAreCounted(tags, v);
    ServersAreCounted(tags, v, servers);
    ExactIsWellNamed(tags, map[], v);
    hide Exact, Quiet;
    ViewLaws.CountIsSize(v, IsPopulation);
    ViewLaws.CountIsSize(v, HoldsServerSlot);
    ViewLaws.CountIsSize(v, IsStableServer);
  }

  lemma {:induction false} QuietIsIdle(tags: map<Name, State>, gone: map<Name, State>, v: View, servers: set<Name>)
    requires Exact(tags, gone, v) && Quiet(tags, servers)
    ensures !EtcdIsChanging(v)
  {}

  lemma {:induction false} MatchesAreSeen(tags: map<Name, State>, gone: map<Name, State>, v: View, tag: State)
    requires Exact(tags, gone, v)
    ensures forall m :: m in v && Matches(m, tag) ==> m.name in tags && tags[m.name] == tag
    ensures forall y :: y in tags && tags[y] == tag ==> exists m :: m in v && m.name == y && Matches(m, tag)
  {
    forall y | y in tags && tags[y] == tag ensures exists m :: m in v && m.name == y && Matches(m, tag) {
      var m := Visible(tags, gone, v, y);
    }
  }

  /** The lowest-named machine in one state. */
  lemma {:induction false} SeenLowest(tags: map<Name, State>, gone: map<Name, State>, v: View, tag: State)
    requires Exact(tags, gone, v)
    ensures var low := Lowest(v, tag).name;
            && (low != "" <==> exists x :: x in tags && tags[x] == tag)
            && (low != "" ==>
                 low in tags && tags[low] == tag && forall y :: y in tags && tags[y] == tag && y != low ==>
                   Less(low, y))
  {
    ExactIsWellNamed(tags, gone, v);
    MatchesAreSeen(tags, gone, v, tag);
    hide Exact, Lowest, Matches;
    ViewLaws.LowestIsLeast(v, tag);
  }

  /** The highest-named one. */
  lemma {:induction false} SeenHighest(tags: map<Name, State>, gone: map<Name, State>, v: View, tag: State)
    requires Exact(tags, gone, v)
    ensures var high := Highest(v, tag).name;
            && (high != "" <==> exists x :: x in tags && tags[x] == tag)
            && (high != "" ==>
                 high in tags && tags[high] == tag && forall y :: y in tags && tags[y] == tag && y != high ==>
                   Less(y, high))
  {
    ExactIsWellNamed(tags, gone, v);
    MatchesAreSeen(tags, gone, v, tag);
    hide Exact, Highest, Matches;
    ViewLaws.HighestIsGreatest(v, tag);
  }

  // --- What an evaluation comes to ---

  /** Nothing but clocks and the timer moved. */
  predicate Idles(n: Node, m: Node) {
    && m == n.(rescale := m.rescale)
    && m.rescale.order == n.rescale.order && m.rescale.evicting == n.rescale.evicting
         && m.rescale.cleaning == n.rescale.cleaning
    && (m.rescale.retryNotBefore == n.rescale.retryNotBefore || m.rescale.retryNotBefore == NO_TIME)
  }

  predicate Evicts(cfg: Config, n: Node, v: View, now: Time, m: Node) {
    && m == StartRound(n.(rescale := m.rescale), DeleteEvicted(m.rescale.evicting))
    && IsCoordinator(v, cfg.name) && !EtcdIsChanging(v)
    && m.rescale.evicting == Evictable(v, Tracked(n, v, now).rescale.failedSince, cfg.grace, now) != []
    && m.rescale.order == NO_ORDER && m.rescale.cleaning == "" && m.rescale.retryNotBefore == n.rescale.retryNotBefore
  }

  predicate Designates(cfg: Config, n: Node, v: View, now: Time, m: Node) {
    && m == StartRound(n.(rescale := m.rescale), PrepareConversion(m.rescale.order.target))
    && IsCoordinator(v, cfg.name) && !EtcdIsChanging(v)
    && Evictable(v, Tracked(n, v, now).rescale.failedSince, cfg.grace, now) == []
    && ChooseConversionTarget(cfg, v) == Some((m.rescale.order.target, m.rescale.order.role))
    && m.rescale.order.joinIP == cfg.localIP
    && m.rescale.evicting == [] && m.rescale.cleaning == "" && m.rescale.retryNotBefore == n.rescale.retryNotBefore
  }

  lemma {:induction false} ResizeOutcome(cfg: Config, n: Node, v: View, now: Time, next: Time)
    ensures var m := Resize(cfg, n, v, now, next);
            && m.rescale.failedSince == n.rescale.failedSince
            && (Idles(n, m)
                || (m == StartRound(n.(rescale := m.rescale), PrepareConversion(m.rescale.order.target))
                    && ChooseConversionTarget(cfg, v) == Some((m.rescale.order.target, m.rescale.order.role))
                    && m.rescale.order.joinIP == cfg.localIP
                    && m.rescale.evicting == [] && m.rescale.cleaning == ""
                         && m.rescale.retryNotBefore == n.rescale.retryNotBefore))
  {
    hide ChooseConversionTarget, K3sServerCount, DesiredServers;
  }

  lemma {:induction false} EvaluationOutcome(cfg: Config, n: Node, v: View, now: Time)
    requires cfg.rescaleEnabled && n.rescale.order == NO_ORDER && n.rescale.evicting == [] && n.rescale.cleaning == ""
    ensures var m := MaybeRescale(cfg, n, v, now);
            Idles(n, m) || (n.state == StableServer && (Evicts(cfg, n, v, now, m) || Designates(cfg, n, v, now, m)))
  {
    hide ChooseConversionTarget, TrackFailures, Evictable, Resize, NextEviction, IsCoordinator, EtcdIsChanging;
    var t := Tracked(n, v, now);
    ResizeOutcome(cfg, t, v, now, NextEviction(v, t.rescale.failedSince, cfg.grace, now));
  }

  /** A busy machine only notes the failures. */
  lemma {:induction false} BusyMachinesNote(cfg: Config, n: Node, v: View, now: Time)
    requires cfg.rescaleEnabled && n.state != StableServer
    ensures var m := MaybeRescale(cfg, n, v, now);
            m == n.(rescale := n.rescale.(failedSince := TrackFailures(n.rescale.failedSince, FailedNames(v), now)))
  {
    hide TrackFailures, Repair;
  }

  lemma {:induction false} PromotionIsNext(cfg: Config, tags: map<Name, State>, v: View, servers: set<Name>)
    requires Exact(tags, map[], v) && Quiet(tags, servers)
    requires K3sServerCount(v) < DesiredServers(v) && |servers| < |tags.Keys|
    ensures ChooseConversionTarget(cfg, v).Some?
    ensures var (x, role) := ChooseConversionTarget(cfg, v).value;
            && x in tags && x != "" && role == Server && x !in servers
            && forall y :: y in tags && y !in servers && y != x ==> Less(x, y)
  {
    hide K3sServerCount, DesiredServers, Lowest, Exact;
    SeenLowest(tags, map[], v, StableAgent);
    var x := OneMissing(servers, tags.Keys);
    assert tags[x] == StableAgent;
  }

  lemma {:induction false} DemotionIsNext(cfg: Config, tags: map<Name, State>, v: View, servers: set<Name>)
    requires Exact(tags, map[], v) && Quiet(tags, servers) && IsCoordinator(v, cfg.name)
    requires K3sServerCount(v) > DesiredServers(v) && |servers| > 1
    ensures ChooseConversionTarget(cfg, v).Some?
    ensures var (x, role) := ChooseConversionTarget(cfg, v).value;
            && x in tags && x != "" && role == Agent && x in servers
            && forall y :: y in servers && y != x ==> Less(y, x)
  {
    QuietCounts(tags, v, servers);
    ViewLaws.CoordinatorIsLastToGo(v, cfg.name);
    hide K3sServerCount, DesiredServers, Highest, Exact, IsCoordinator, StableServerCount;
    SeenHighest(tags, map[], v, StableServer);
  }

  lemma {:induction false} SizesSeen(o: Origin, tags: map<Name, State>, v: View, servers: set<Name>)
    requires WellFormed(o) && Exact(tags, map[], v) && Quiet(tags, servers) && tags.Keys == o.servers + o.agents
    ensures K3sServerCount(v) == |servers| && DesiredServers(v) == Target(o)
  {
    hide K3sServerCount, ServerTarget, Exact, Quiet, Population;
    TargetIsReachable(o);
    QuietCounts(tags, v, servers);
  }

  /** The choice of the machine to convert is the step the path calls for, and never fails to be made. */
  lemma {:induction false} ChoiceIsNext(cfg: Config, o: Origin, tags: map<Name, State>, v: View, servers: set<Name>)
    requires WellFormed(o) && tags.Keys == o.servers + o.agents && Between(o, |servers|)
    requires Exact(tags, map[], v) && Quiet(tags, servers) && IsCoordinator(v, cfg.name)
    ensures ChooseConversionTarget(cfg, v).None? <==> |servers| == Target(o)
    ensures ChooseConversionTarget(cfg, v).Some? ==>
              var (x, role) := ChooseConversionTarget(cfg, v).value;
              && x in tags && x != ""
              && if |servers| < Target(o) then
                   role == Server && x !in servers && forall y :: y in tags && y !in servers && y != x ==> Less(x, y)
                 else
                   |servers| > Target(o) && role == Agent && x in servers && forall y :: y in servers && y != x ==>
                     Less(y, x)
  {
    hide Target, K3sServerCount, DesiredServers, Exact, Quiet, Lowest, Highest, IsCoordinator, WellFormed;
    TargetIsReachable(o);
    SizesSeen(o, tags, v, servers);
    if |servers| < Target(o) {
      PromotionIsNext(cfg, tags, v, servers);
    } else if |servers| > Target(o) {
      DemotionIsNext(cfg, tags, v, servers);
    }
  }

  lemma {:induction false} OneMissing(part: set<Name>, whole: set<Name>) returns (x: Name)
    requires part <= whole && |part| < |whole|
    ensures x in whole && x !in part
  {
    assert whole != part;
    x :| x in whole && x !in part;
  }

  // --- How far there is to go ---

  predicate IsConverting(s: State) { s == RescalePromoting || s == RescaleDemoting }

  ghost predicate HasConverter(w: World) {
    exists x :: x in w.nodes && IsConverting(w.nodes[x].state)
  }

  ghost predicate HasNextOrder(o: Origin, w: World) {
    exists order :: order in w.orders && IsNext(o, w, order)
  }

  ghost predicate HasDueRound(o: Origin, w: World) {
    exists x :: x in w.nodes && w.nodes[x].state == RescaleCoordinating && RoundIsDue(o, w, w.nodes[x].rescale)
  }

  /** How far the next step has come: a round, then an order, then a machine that converts. */
  ghost function Stage(o: Origin, w: World): (k: int) {
    if HasConverter(w) then 3
    else if HasNextOrder(o, w) then 2
    else if HasDueRound(o, w) then 1
    else 0
  }

  function Distance(a: int, b: int): (k: nat) { if a < b then b - a else a - b }

  /** How many more effective moves rescaling needs. */
  ghost function Remaining(o: Origin, w: World): (k: int) {
    (if w.gone.Keys != {} then 2 else 0) + 4 * Distance(|ServersOf(w)|, Target(o)) - Stage(o, w)
  }

  /** One machine changed, and perhaps what is gone and what is on its way. */
  ghost predicate Changed(w: World, d: World, x: Name) {
    && x in w.nodes && d.nodes.Keys == w.nodes.Keys
    && (forall y :: y in w.nodes && y != x ==> d.nodes[y] == w.nodes[y])
    && (d.gone.Keys == w.gone.Keys || d.gone.Keys == {})
  }

  ghost predicate SameFrame(w: World, d: World) {
    ServersOf(d) == ServersOf(w) && d.gone.Keys == w.gone.Keys && d.nodes.Keys == w.nodes.Keys
  }

  lemma {:induction false} NextInSameFrame(o: Origin, w: World, d: World, order: Order)
    requires SameFrame(w, d)
    ensures (IsNext(o, w, order) <==> IsNext(o, d, order)) && (IsSpent(o, w, order) <==> IsSpent(o, d, order))
  {
    hide ServersOf;
  }

  lemma {:induction false} DueInSameFrame(o: Origin, w: World, d: World, r: Rescale)
    requires SameFrame(w, d)
    ensures (RoundIsDue(o, w, r) <==> RoundIsDue(o, d, r)) && (RoundFits(o, w, r) <==> RoundFits(o, d, r))
  {
    hide ServersOf, IsNext, IsSpent;
    NextInSameFrame(o, w, d, r.order);
  }

  lemma {:induction false} MachineInSameFrame(base: Config, o: Origin, w: World, d: World, y: Name, n: Node)
    requires SameFrame(w, d) && MachineOk(base, o, w, y, n)
    ensures MachineOk(base, o, d, y, n)
  {
    hide Sound, ServersOf, IsNext, RoundFits;
    assert forall z :: z in d.gone ==> z in w.gone.Keys;
    DueInSameFrame(o, w, d, n.rescale);
    NextInSameFrame(o, w, d, n.rescale.order);
  }

  /** A machine that holds nothing is not concerned by what the others do. */
  lemma {:induction false} RestingStaysOk(base: Config, o: Origin, w: World, d: World, y: Name, n: Node)
    requires MachineOk(base, o, w, y, n) && !HoldsTurn(n.state) && d.gone.Keys <= w.gone.Keys
    ensures MachineOk(base, o, d, y, n)
  {
    hide Sound, ServersOf, IsNext, RoundFits;
    assert forall z :: z in d.gone ==> z in w.gone.Keys;
  }

  /** A change of one machine keeps the cluster on course if that machine, the others and the orders are right. */
  lemma {:induction false} ChangeStaysOnCourse(base: Config, o: Origin, w: World, d: World, x: Name)
    requires OnCourse(base, o, w) && Changed(w, d, x) && OneCoordinator(d)
    requires OnPath(o, ServersOf(d)) && Between(o, |ServersOf(d)|)
    requires d.gone.Keys == {} || ServersOf(d) == ServersOf(w)
    requires forall y :: y in d.nodes ==> MachineOk(base, o, d, y, d.nodes[y])
    requires forall order :: order in d.orders ==> IsSettled(o, d, order)
    ensures OnCourse(base, o, d)
  {
    hide OnPath, Between, ServersOf, IsSettled, MachineOk, OneCoordinator;
  }

  /** The same, when the servers and the gone machines stay as they are. */
  lemma {:induction false} QuietChange(base: Config, o: Origin, w: World, d: World, x: Name)
    requires OnCourse(base, o, w) && Changed(w, d, x) && SameFrame(w, d) && OneCoordinator(d)
    requires MachineOk(base, o, d, x, d.nodes[x])
    requires forall order :: order in d.orders ==> order in w.orders || IsSettled(o, d, order)
    ensures OnCourse(base, o, d)
  {
    hide OnPath, Between, ServersOf, IsNext, IsSpent, MachineOk, OneCoordinator;
    forall y | y in d.nodes ensures MachineOk(base, o, d, y, d.nodes[y]) {
      if y != x {
        MachineInSameFrame(base, o, w, d, y, w.nodes[y]);
      }
    }
    forall order | order in d.orders ensures IsSettled(o, d, order) {
      NextInSameFrame(o, w, d, order);
    }
    ChangeStaysOnCourse(base, o, w, d, x);
  }

  lemma {:induction false} SameRoles(w: World, d: World, x: Name)
    requires Changed(w, d, x) && (RunsServer(d.nodes[x]) <==> RunsServer(w.nodes[x]))
    ensures ServersOf(d) == ServersOf(w)
  {
    hide RunsServer;
  }

  lemma {:induction false} HoldersAfter(w: World, d: World, x: Name)
    requires Changed(w, d, x)
    ensures Holders(d) == if HoldsTurn(d.nodes[x].state) then Holders(w) + {x} else Holders(w) - {x}
  {
    hide HoldsTurn;
  }

  /** What a change of x does to the stage: the other machines count as before. */
  lemma {:induction false} StageAfter(o: Origin, w: World, d: World, x: Name)
    requires Changed(w, d, x) && SameFrame(w, d)
    ensures IsConverting(d.nodes[x].state) ==> HasConverter(d)
    ensures IsConverting(d.nodes[x].state) == IsConverting(w.nodes[x].state) ==> (HasConverter(d) <==> HasConverter(w))
    ensures (forall order :: order in d.orders <==> order in w.orders) ==> (HasNextOrder(o, d) <==> HasNextOrder(o, w))
    ensures (d.nodes[x].state == RescaleCoordinating && RoundIsDue(o, d, d.nodes[x].rescale) <==>
               w.nodes[x].state == RescaleCoordinating && RoundIsDue(o, w, w.nodes[x].rescale)) ==>
              (HasDueRound(o, d) <==> HasDueRound(o, w))
  {
    hide IsNext, IsConverting, ServersOf, RoundIsDue;
    forall order ensures IsNext(o, w, order) <==> IsNext(o, d, order) {
      NextInSameFrame(o, w, d, order);
    }
    forall r ensures RoundIsDue(o, w, r) <==> RoundIsDue(o, d, r) {
      DueInSameFrame(o, w, d, r);
    }
    if y :| y in w.nodes && IsConverting(w.nodes[y].state) {
      assert y in d.nodes && (y != x ==> d.nodes[y] == w.nodes[y]);
    }
    if y :| y in d.nodes && IsConverting(d.nodes[y].state) {
      assert y in w.nodes && (y != x ==> d.nodes[y] == w.nodes[y]);
    }
    if y :| y in w.nodes && w.nodes[y].state == RescaleCoordinating && RoundIsDue(o, w, w.nodes[y].rescale) {
      assert y in d.nodes && (y != x ==> d.nodes[y] == w.nodes[y]);
    }
    if y :| y in d.nodes && d.nodes[y].state == RescaleCoordinating && RoundIsDue(o, d, d.nodes[y].rescale) {
      assert y in w.nodes && (y != x ==> d.nodes[y] == w.nodes[y]);
    }
  }

  lemma {:induction false} CoordinatorsHold()
    ensures HoldsTurn(RescaleCoordinating)
  {}

  lemma {:induction false} NobodyHolding(o: Origin, w: World)
    requires Holders(w) == {}
    ensures !HasConverter(w) && !HasDueRound(o, w) && OneCoordinator(w)
  {
    hide RoundIsDue;
    forall x | x in w.nodes ensures !IsConverting(w.nodes[x].state) && w.nodes[x].state != RescaleCoordinating {
      assert x !in Holders(w);
    }
  }

  // --- Evaluations ---

  /** With nobody holding the turn, each machine shows its role. */
  lemma {:induction false} RestIsQuiet(base: Config, o: Origin, w: World)
    requires OnCourse(base, o, w) && Holders(w) == {}
    ensures Quiet(TagsOf(w), ServersOf(w))
  {
    hide Sound, RunsServer, OnPath, Between, IsNext, RoundIsDue;
    forall x | x in w.nodes ensures w.nodes[x].state == if x in ServersOf(w) then StableServer else StableAgent {
      assert MachineOk(base, o, w, x, w.nodes[x]);
      UpMachines(ConfigOf(base, x), w.nodes[x]);
      assert x !in Holders(w);
    }
  }

  lemma {:induction false} ExactIsShared(w: World, x: Name, v: View)
    requires Exact(TagsOf(w), w.gone, v)
    ensures Shared(w, x, v)
  {
    forall y | y in w.nodes && y != x ensures exists m :: m in v && m.name == y && Matches(m, w.nodes[y].state) {
      var m := Visible(TagsOf(w), w.gone, v, y);
    }
  }

  /** The failed machines' clocks go on. */
  lemma {:induction false} FailuresStayKnown(cfg: Config, tags: map<Name, State>, gone: map<Name, State>, n: Node,
      v: View, now: Time, since: Time)
    requires Exact(tags, gone, v) && tags.Keys !! gone.Keys
    requires forall y :: y in gone ==> y in n.rescale.failedSince && n.rescale.failedSince[y] + cfg.grace <= since
    ensures var f := TrackFailures(n.rescale.failedSince, FailedNames(v), now);
            forall y :: y in gone ==> y in f && f[y] + cfg.grace <= since
    ensures since <= now ==>
              forall y :: y in Evictable(v, Tracked(n, v, now).rescale.failedSince, cfg.grace, now) <==> y in gone
  {
    hide FailedNames, Evictable, Exact;
    FailedAreGone(tags, gone, v);
    ViewLaws.EvictableAreTheDurablyFailed(v, Tracked(n, v, now).rescale.failedSince, cfg.grace,
      now) by { ExactIsWellNamed(tags, gone, v); }
  }

  lemma {:induction false} ExactIsWellNamed(tags: map<Name, State>, gone: map<Name, State>, v: View)
    requires Exact(tags, gone, v)
    ensures WellNamed(v)
  {}

  /** An evaluation in such a cluster: nothing, the eviction of all that is gone, or the next conversion. */
  ghost predicate Expected(o: Origin, w: World, x: Name, m: Node)
    requires x in w.nodes
  {
    var n := w.nodes[x];
    || (Idles(n, m) && m.state == n.state)
    || (n.state == StableServer && m.state == RescaleCoordinating && Holders(w) == {} && m.persisted == n.persisted
        && m.rescale.cleaning == "" && m.rescale.retryNotBefore == n.rescale.retryNotBefore
        && RoundIsDue(o, w, m.rescale) && IsLowestServer(w, x))
  }

  lemma {:induction false} MachineFacts(base: Config, o: Origin, w: World, x: Name)
    requires OnCourse(base, o, w) && WellFormed(o) && x in w.nodes
    ensures MachineOk(base, o, w, x, w.nodes[x])
    ensures Sound(ConfigOf(base, x), w.nodes[x]) && TagsOf(w).Keys !! w.gone.Keys && w.nodes[x].rescale.cleaning == ""
    ensures forall y :: y in w.gone ==>
              y in w.nodes[x].rescale.failedSince && w.nodes[x].rescale.failedSince[y] + base.grace <= o.now
  {
    hide Sound, OnPath, Between, IsNext, ServersOf;
    assert TagsOf(w).Keys == w.nodes.Keys;
    assert MachineOk(base, o, w, x, w.nodes[x]);
  }

  lemma {:induction false} NobodyHolds(w: World, x: Name, v: View)
    requires Exact(TagsOf(w), w.gone, v) && !EtcdIsChanging(v) && x in w.nodes && !HoldsTurn(w.nodes[x].state)
    ensures Holders(w) == {}
  {
    hide Exact, EtcdIsChanging, Shared;
    ExactIsShared(w, x, v);
    NobodyElseHolds(w, x, v);
    assert x !in Holders(w);
  }

  /** Whoever is elected in a quiet cluster is its lowest-named server. */
  lemma {:induction false} ElectedIsLowest(base: Config, o: Origin, w: World, x: Name, v: View)
    requires OnCourse(base, o, w) && Holders(w) == {} && Exact(TagsOf(w), w.gone, v) && IsCoordinator(v, x)
    ensures IsLowestServer(w, x)
  {
    hide OnCourse, ServersOf, Exact, Lowest;
    RestIsQuiet(base, o, w);
    SeenLowest(TagsOf(w), w.gone, v, StableServer);
    forall y | y in ServersOf(w) && y != x ensures Less(x, y) {
      assert TagsOf(w)[y] == StableServer;
    }
  }

  lemma {:induction false} EvictionIsExpected(base: Config, o: Origin, w: World, x: Name, v: View, now: Time)
    requires OnCourse(base, o, w) && WellFormed(o) && x in w.nodes && o.now <= now
    requires Exact(TagsOf(w), w.gone, v) && w.nodes[x].state == StableServer
    requires Evicts(ConfigOf(base, x), w.nodes[x], v, now, MaybeRescale(ConfigOf(base, x), w.nodes[x], v, now))
    ensures Expected(o, w, x, MaybeRescale(ConfigOf(base, x), w.nodes[x], v, now))
  {
    hide MaybeRescale, Evictable, TrackFailures, Exact, IsCoordinator, EtcdIsChanging, Sound, IsNext, OnCourse,
         MachineOk;
    var n := w.nodes[x];
    MachineFacts(base, o, w, x);
    NobodyHolds(w, x, v);
    ElectedIsLowest(base, o, w, x, v);
    FailuresStayKnown(ConfigOf(base, x), TagsOf(w), w.gone, n, v, now, o.now);
    var m := MaybeRescale(ConfigOf(base, x), n, v, now);
    assert (set y | y in m.rescale.evicting) == w.gone.Keys;
  }

  lemma {:induction false} NothingGone(cfg: Config, tags: map<Name, State>, gone: map<Name, State>, n: Node, v: View,
      now: Time, since: Time)
    requires Exact(tags, gone, v) && tags.Keys !! gone.Keys && since <= now
    requires forall y :: y in gone ==> y in n.rescale.failedSince && n.rescale.failedSince[y] + cfg.grace <= since
    requires Evictable(v, Tracked(n, v, now).rescale.failedSince, cfg.grace, now) == []
    ensures gone == map[]
  {
    hide Evictable, Exact, TrackFailures;
    FailuresStayKnown(cfg, tags, gone, n, v, now, since);
    assert gone.Keys == {};
  }

  lemma {:induction false} ConversionIsExpected(base: Config, o: Origin, w: World, x: Name, v: View, now: Time)
    requires base.localIP != "" && OnCourse(base, o, w) && WellFormed(o) && x in w.nodes && o.now <= now
    requires Exact(TagsOf(w), w.gone, v) && w.nodes[x].state == StableServer
    requires Designates(ConfigOf(base, x), w.nodes[x], v, now, MaybeRescale(ConfigOf(base, x), w.nodes[x], v, now))
    ensures Expected(o, w, x, MaybeRescale(ConfigOf(base, x), w.nodes[x], v, now))
  {
    hide MaybeRescale, Evictable, TrackFailures, Exact, IsCoordinator, EtcdIsChanging, Sound, OnPath, Between,
         ChooseConversionTarget, ServersOf, RoundIsDue, Quiet, MachineOk;
    var n := w.nodes[x];
    MachineFacts(base, o, w, x);
    NobodyHolds(w, x, v);
    NothingGone(ConfigOf(base, x), TagsOf(w), w.gone, n, v, now, o.now);
    RestIsQuiet(base, o, w);
    ElectedIsLowest(base, o, w, x, v);
    ChoiceIsNext(ConfigOf(base, x), o, TagsOf(w), v, ServersOf(w));
    DueConversion(o, w, MaybeRescale(ConfigOf(base, x), n, v, now).rescale);
  }

  lemma {:induction false} DueConversion(o: Origin, w: World, r: Rescale)
    requires r.order.target != "" && IsNext(o, w, r.order)
    ensures RoundIsDue(o, w, r)
  {}

  ghost predicate KnowsFailures(base: Config, o: Origin, w: World, m: Node) {
    forall y :: y in w.gone ==> y in m.rescale.failedSince && m.rescale.failedSince[y] + base.grace <= o.now
  }

  lemma {:induction false} BusyEvaluation(base: Config, o: Origin, w: World, x: Name, v: View, now: Time)
    requires base.rescaleEnabled && x in w.nodes && w.nodes[x].state != StableServer
    ensures Expected(o, w, x, MaybeRescale(ConfigOf(base, x), w.nodes[x], v, now))
  {
    hide MaybeRescale, TrackFailures, FailedNames, RoundIsDue, Holders;
    BusyMachinesNote(ConfigOf(base, x), w.nodes[x], v, now);
  }

  lemma {:induction false} StableEvaluation(base: Config, o: Origin, w: World, x: Name, v: View, now: Time)
    requires base.rescaleEnabled && base.localIP != "" && OnCourse(base, o, w) && WellFormed(o) && x in w.nodes
               && o.now <= now
    requires Exact(TagsOf(w), w.gone, v) && w.nodes[x].state == StableServer
    ensures Expected(o, w, x, MaybeRescale(ConfigOf(base, x), w.nodes[x], v, now))
  {
    var cfg, n := ConfigOf(base, x), w.nodes[x];
    hide MaybeRescale, TrackFailures, Exact, Sound, OnCourse, MachineOk, RoundIsDue, Evicts, Designates, WellFormed,
         Holders, TagsOf;
    MachineFacts(base, o, w, x);
    UpMachines(cfg, n);
    EvaluationOutcome(cfg, n, v, now);
    var m := MaybeRescale(cfg, n, v, now);
    if Evicts(cfg, n, v, now, m) {
      EvictionIsExpected(base, o, w, x, v, now);
    } else if Designates(cfg, n, v, now, m) {
      ConversionIsExpected(base, o, w, x, v, now);
    }
  }

  lemma {:induction false} EvaluationKnows(base: Config, o: Origin, w: World, x: Name, v: View, now: Time)
    requires base.rescaleEnabled && OnCourse(base, o, w) && WellFormed(o) && x in w.nodes
    requires Exact(TagsOf(w), w.gone, v)
    ensures KnowsFailures(base, o, w, MaybeRescale(ConfigOf(base, x), w.nodes[x], v, now))
  {
    var cfg, n := ConfigOf(base, x), w.nodes[x];
    hide MaybeRescale, TrackFailures, Exact, Sound, OnCourse, MachineOk, WellFormed, TagsOf, Evictable, FailedNames;
    MachineFacts(base, o, w, x);
    FailuresStayKnown(cfg, TagsOf(w), w.gone, n, v, now, o.now);
    EvaluationTracks(cfg, n, v, now);
  }

  /** What an evaluation makes of a machine of such a cluster. */
  lemma {:induction false} EvaluationIsExpected(base: Config, o: Origin, w: World, x: Name, v: View, now: Time)
    requires base.rescaleEnabled && base.localIP != "" && OnCourse(base, o, w) && WellFormed(o) && x in w.nodes
               && o.now <= now
    requires Exact(TagsOf(w), w.gone, v)
    ensures var m := MaybeRescale(ConfigOf(base, x), w.nodes[x], v, now);
            Expected(o, w, x, m) && Sound(ConfigOf(base, x), m) && KnowsFailures(base, o, w, m)
              && m.sent == w.nodes[x].sent
  {
    var cfg, n := ConfigOf(base, x), w.nodes[x];
    hide MaybeRescale, Exact, Sound, OnCourse, MachineOk, Expected, WellFormed, TagsOf, KnowsFailures, RescaleEffect,
         EtcdIsChanging;
    MachineFacts(base, o, w, x);
    MaybeRescaleEffect(cfg, n, v, now);
    EvaluationPassesOn(cfg, n, v, now);
    EvaluationKnows(base, o, w, x, v, now);
    if n.state != StableServer {
      BusyEvaluation(base, o, w, x, v, now);
    } else {
      StableEvaluation(base, o, w, x, v, now);
    }
  }

  lemma {:induction false} EvaluationTracks(cfg: Config, n: Node, v: View, now: Time)
    requires cfg.rescaleEnabled
    ensures MaybeRescale(cfg, n, v, now).rescale.failedSince ==
              TrackFailures(n.rescale.failedSince, FailedNames(v), now)
  {
    hide TrackFailures, Resize, Evictable, NextEviction, IsCoordinator, EtcdIsChanging;
    var t := Tracked(n, v, now);
    ResizeKeepsFailures(cfg, t, v, now, NextEviction(v, t.rescale.failedSince, cfg.grace, now));
  }

  lemma {:induction false} SameMachineOk(base: Config, o: Origin, w: World, d: World, x: Name)
    requires Changed(w, d, x) && SameFrame(w, d) && Idles(w.nodes[x], d.nodes[x])
               && d.nodes[x].state == w.nodes[x].state
    requires MachineOk(base, o, w, x, w.nodes[x]) && Sound(ConfigOf(base, x), d.nodes[x])
               && KnowsFailures(base, o, d, d.nodes[x])
    ensures MachineOk(base, o, d, x, d.nodes[x])
    ensures RoundIsDue(o, d, d.nodes[x].rescale) <==> RoundIsDue(o, w, w.nodes[x].rescale)
  {
    hide Sound, IsNext, IsSpent, ServersOf;
    var order := w.nodes[x].rescale.order;
    NextInSameFrame(o, w, d, order);
  }

  lemma {:induction false} NewRoundOk(base: Config, o: Origin, w: World, d: World, x: Name)
    requires Changed(w, d, x) && SameFrame(w, d) && d.nodes[x].state == RescaleCoordinating
               && RoundIsDue(o, w, d.nodes[x].rescale) && IsLowestServer(w, x)
    requires Sound(ConfigOf(base, x), d.nodes[x]) && KnowsFailures(base, o, d, d.nodes[x])
    requires d.nodes[x].rescale.cleaning == ""
    ensures MachineOk(base, o, d, x, d.nodes[x]) && RoundIsDue(o, d, d.nodes[x].rescale)
  {
    hide Sound, IsNext, IsSpent, ServersOf;
    var order := d.nodes[x].rescale.order;
    NextInSameFrame(o, w, d, order);
  }

  /** The machine evaluated; the others did not move. */
  function WithEvaluated(base: Config, w: World, x: Name, v: View, now: Time): (d: World)
    requires x in w.nodes
  {
    w.(nodes := w.nodes[x := MaybeRescale(ConfigOf(base, x), w.nodes[x], v, now)])
  }

  /** An evaluation that starts a round brings the step closer, unless its order is on its way already. */
  lemma {:induction false} RoundStarts(o: Origin, w: World, d: World, x: Name)
    requires Changed(w, d, x) && SameFrame(w, d) && d.orders == w.orders && Holders(w) == {}
    requires d.nodes[x].state == RescaleCoordinating && RoundIsDue(o, d, d.nodes[x].rescale)
    ensures OneCoordinator(d)
    ensures Stage(o, d) == if HasNextOrder(o, w) then Stage(o, w) else Stage(o, w) + 1
  {
    hide ServersOf, IsNext, RoundIsDue;
    NobodyHolding(o, w);
    StageAfter(o, w, d, x);
    assert x !in Holders(w);
    CoordinatorsHold();
    HoldersAfter(w, d, x);
    hide HoldsTurn;
    forall y | y in d.nodes && d.nodes[y].state == RescaleCoordinating ensures y == x {
      assert y in Holders(d);
    }
  }

  /** An evaluation either moves no further, or starts the next round. */
  lemma {:induction false} EvaluationGoesOn(base: Config, o: Origin, w: World, x: Name, v: View, now: Time)
    requires base.rescaleEnabled && base.localIP != "" && OnCourse(base, o, w) && WellFormed(o) && x in w.nodes
               && o.now <= now
    requires Exact(TagsOf(w), w.gone, v)
    ensures var d := WithEvaluated(base, w, x, v, now);
            && OnCourse(base, o, d) && SameFrame(w, d)
            && Remaining(o, d) ==
                 Remaining(o, w) - (if d.nodes[x].state == w.nodes[x].state || HasNextOrder(o, w) then 0 else 1)
            && (d.nodes[x].state == w.nodes[x].state ==>
                 Holders(d) == Holders(w) && (HasNextOrder(o, d) <==> HasNextOrder(o, w)))
  {
    hide MaybeRescale, Exact, Sound, MachineOk, RoundIsDue, OnPath, Between, IsNext, ServersOf, RunsServer, HoldsTurn,
         TagsOf, IsConverting, IsLowestServer, OnCourse, HasNextOrder, HasDueRound, HasConverter, Distance, Target,
         IsSettled, OneCoordinator, WellFormed;
    var d := WithEvaluated(base, w, x, v, now);
    var n, m := w.nodes[x], d.nodes[x];
    EvaluationIsExpected(base, o, w, x, v, now);
    MachineFacts(base, o, w, x);
    CourseFacts(base, o, w);
    assert Changed(w, d, x);
    SameRoles(w, d, x) by { SameRecord(n, m); }
    StageAfter(o, w, d, x);
    HoldersAfter(w, d, x);
    if Idles(n, m) && m.state == n.state {
      SameMachineOk(base, o, w, d, x);
      SameCoordinator(w, d, x);
      SameHolder(w, x);
    } else {
      NewRoundOk(base, o, w, d, x);
      RoundStarts(o, w, d, x);
    }
    QuietChange(base, o, w, d, x);
  }

  lemma {:induction false} AtRest(o: Origin, w: World)
    requires Holders(w) == {} && w.orders == []
    ensures Stage(o, w) == 0
  {
    NobodyHolding(o, w);
  }

  lemma {:induction false} SameHolder(w: World, x: Name)
    requires x in w.nodes
    ensures (if HoldsTurn(w.nodes[x].state) then Holders(w) + {x} else Holders(w) - {x}) == Holders(w)
  {
    hide HoldsTurn;
  }

  lemma {:induction false} SameCoordinator(w: World, d: World, x: Name)
    requires OneCoordinator(w) && Changed(w, d, x)
    requires d.nodes[x].state == RescaleCoordinating ==> w.nodes[x].state == RescaleCoordinating
    ensures OneCoordinator(d)
  {
    forall y, z | y in d.nodes && z in d.nodes && d.nodes[y].state == RescaleCoordinating
                    && d.nodes[z].state == RescaleCoordinating
      ensures y == z
    {
      assert w.nodes[y].state == RescaleCoordinating && w.nodes[z].state == RescaleCoordinating;
    }
  }

  lemma {:induction false} SameRecord(n: Node, m: Node)
    requires m.persisted == n.persisted
    ensures RunsServer(m) <==> RunsServer(n)
  {}

  // --- The other moves ---

  lemma {:induction false} CourseFacts(base: Config, o: Origin, w: World)
    requires OnCourse(base, o, w)
    ensures OneCoordinator(w) && OnPath(o, ServersOf(w)) && Between(o, |ServersOf(w)|)
    ensures w.nodes.Keys == o.servers + o.agents
    ensures w.gone.Keys == o.failed || w.gone.Keys == {}
    ensures forall order :: order in w.orders ==> IsSettled(o, w, order)
  {
    hide IsSettled, OnPath, Between, MachineOk;
  }

  /** While machines are gone, no order is on its way and none is carried out. */
  lemma {:induction false} OrdersNeedNobodyGone(o: Origin, w: World, order: Order)
    requires IsSettled(o, w, order)
    ensures w.gone.Keys == {} && order.target in w.nodes
  {
    hide ServersOf;
  }

  lemma {:induction false} EvictionEnds(cfg: Config, n: Node, env: Env)
    requires Sound(cfg, n) && n.state == RescaleCoordinating && n.rescale.cleaning == "" && n.rescale.order.target == ""
    ensures n.pending != [] && EndsRound(n, OperationEnded(0, true)) && n.rescale.evicting != []
    ensures var a := AfterRound(Retire(n, 0), env);
            && Sound(cfg, a) && a.state == StableServer && a.persisted == n.persisted && a.sent == n.sent
            && a.rescale.retryNotBefore == n.rescale.retryNotBefore && a.rescale.cleaning == ""
  {
    assert Retire(n, 0).pending == [];
  }

  /** The cluster between the end of an eviction and the evaluation that follows in the same turn. */
  function Evicted(w: World, x: Name, env: Env): (d: World)
    requires x in w.nodes && w.nodes[x].pending != []
  {
    World(w.nodes[x := AfterRound(Retire(w.nodes[x], 0), env)], w.gone - RemovedBy(w.nodes[x], env), w.orders)
  }

  lemma {:induction false} StableMachineOk(base: Config, o: Origin, d: World, x: Name, m: Node)
    requires Sound(ConfigOf(base, x), m) && (m.state == StableServer || m.state == StableAgent)
               && m.rescale.cleaning == ""
    requires KnowsFailures(base, o, d, m)
    ensures MachineOk(base, o, d, x, m)
  {
    hide Sound, RoundFits, IsNext;
  }

  lemma {:induction false} StableIsFree(s: State)
    requires s == StableServer || s == StableAgent
    ensures !HoldsTurn(s)
  {}

  /** The coordinator becomes stable again, without having changed anything but the orders. */
  lemma {:induction false} ReleaseGoesOn(base: Config, o: Origin, w: World, d: World, x: Name)
    requires OnCourse(base, o, w) && Changed(w, d, x) && d.gone.Keys == w.gone.Keys
    requires w.nodes[x].state == RescaleCoordinating && d.nodes[x].state == StableServer
    requires d.nodes[x].persisted == w.nodes[x].persisted && MachineOk(base, o, d, x, d.nodes[x])
    requires SameFrame(w, d) ==> forall order :: order in d.orders ==> order in w.orders || IsSettled(o, d, order)
    ensures OnCourse(base, o, d) && SameFrame(w, d) && Holders(d) == Holders(w) - {x}
    ensures !HasDueRound(o, d) && (HasConverter(d) <==> HasConverter(w))
  {
    hide IsNext, IsSpent, ServersOf, RunsServer, MachineOk, OnCourse, OnPath, Between, RoundIsDue;
    CourseFacts(base, o, w);
    SameRoles(w, d, x) by { SameRecord(w.nodes[x], d.nodes[x]); }
    SameCoordinator(w, d, x);
    HoldersAfter(w, d, x);
    StageAfter(o, w, d, x);
    QuietChange(base, o, w, d, x);
    forall y | y in d.nodes ensures d.nodes[y].state != RescaleCoordinating {
      assert y != x ==> d.nodes[y] == w.nodes[y];
    }
  }

  lemma {:induction false} DueEviction(o: Origin, w: World, r: Rescale)
    requires RoundIsDue(o, w, r) && r.order.target == "" && r.evicting != []
    ensures w.gone.Keys == (set y | y in r.evicting) && w.gone.Keys != {}
  {
    assert r.evicting[0] in w.gone.Keys;
  }

  lemma {:induction false} FittingRound(base: Config, o: Origin, w: World, x: Name)
    requires x in w.nodes && MachineOk(base, o, w, x, w.nodes[x]) && w.nodes[x].state == RescaleCoordinating
    ensures RoundFits(o, w, w.nodes[x].rescale) && (|o.servers| > Target(o) ==> IsLowestServer(w, x))
  {
    hide Sound, IsSettled, Target;
  }

  lemma {:induction false} EvictionIsDue(o: Origin, w: World, r: Rescale)
    requires RoundFits(o, w, r) && r.order.target == ""
    ensures RoundIsDue(o, w, r)
  {}

  /** While a machine is gone, nothing but its eviction is under way. */
  lemma {:induction false} OnlyEvictions(base: Config, o: Origin, w: World, x: Name)
    requires OnCourse(base, o, w) && w.gone.Keys != {} && x in w.nodes && w.nodes[x].state == RescaleCoordinating
    ensures w.orders == [] && Holders(w) == {x} && !HasConverter(w)
  {
    hide Sound, IsNext, IsSpent, ServersOf, OnPath, Between, RoundFits;
    forall y | y in w.nodes ensures !IsConverting(w.nodes[y].state) {
      assert MachineOk(base, o, w, y, w.nodes[y]);
      if IsNext(o, w, w.nodes[y].rescale.order) {
        OrdersNeedNobodyGone(o, w, w.nodes[y].rescale.order);
      }
    }
    if w.orders != [] {
      OrdersNeedNobodyGone(o, w, w.orders[0]);
    }
    forall y | y in Holders(w) ensures y == x {
      assert w.nodes[y].state == RescaleCoordinating;
    }
    CoordinatorsHold();
  }

  /** One eviction round removes exactly the machines that are gone. */
  lemma {:induction false} EvictionGoesOn(base: Config, o: Origin, w: World, x: Name, env: Env)
    requires OnCourse(base, o, w) && WellFormed(o) && x in w.nodes
    requires w.nodes[x].state == RescaleCoordinating && w.nodes[x].rescale.order.target == ""
    requires forall y :: y in w.nodes[x].rescale.evicting ==> y in env.removable
    ensures w.nodes[x].pending != [] && w.gone.Keys == o.failed == (set y | y in w.nodes[x].rescale.evicting)
    ensures var k := Evicted(w, x, env);
            && OnCourse(base, o, k) && k.gone == map[] && ServersOf(k) == ServersOf(w)
            && Remaining(o, k) == Remaining(o, w) - 1
            && k.orders == [] && k.nodes[x].sent == w.nodes[x].sent && k.nodes[x].state == StableServer
  {
    hide Sound, IsNext, IsSpent, ServersOf, HoldsTurn, OnCourse, AfterRound, MachineOk, OnPath, Between, RunsServer;
    var n := w.nodes[x];
    MachineFacts(base, o, w, x);
    CourseFacts(base, o, w);
    FittingRound(base, o, w, x);
    EvictionIsDue(o, w, n.rescale);
    EvictionEnds(ConfigOf(base, x), n, env);
    DueEviction(o, w, n.rescale);
    OnlyEvictions(base, o, w, x);
    var k := Evicted(w, x, env);
    assert k.gone.Keys == {};
    assert Changed(w, k, x);
    SameRoles(w, k, x) by { SameRecord(n, k.nodes[x]); }
    StableMachineOk(base, o, k, x, k.nodes[x]);
    EvictionRests(base, o, w, k, x);
    assert HasDueRound(o, w);
  }

  lemma {:induction false} EvictionRests(base: Config, o: Origin, w: World, k: World, x: Name)
    requires OnCourse(base, o, w) && Changed(w, k, x) && Holders(w) == {x} && k.nodes[x].state == StableServer
    requires k.gone.Keys == {} && ServersOf(k) == ServersOf(w) && k.orders == [] && MachineOk(base, o, k, x, k.nodes[x])
    ensures OnCourse(base, o, k) && Stage(o, k) == 0
  {
    hide Sound, IsNext, IsSpent, ServersOf, OnCourse, MachineOk, OnPath, Between, RoundIsDue;
    CourseFacts(base, o, w);
    HoldersAfter(w, k, x);
    NobodyHolding(o, k);
    hide HoldsTurn, HasConverter, HasDueRound;
    forall y | y in k.nodes ensures MachineOk(base, o, k, y, k.nodes[y]) {
      if y != x {
        assert y !in Holders(w);
        assert MachineOk(base, o, w, y, w.nodes[y]) by { IsOk(base, o, w, y); }
        RestingStaysOk(base, o, w, k, y, w.nodes[y]);
      }
    }
    ChangeStaysOnCourse(base, o, w, k, x);
  }

  lemma {:induction false} IsOk(base: Config, o: Origin, w: World, x: Name)
    requires OnCourse(base, o, w) && x in w.nodes
    ensures MachineOk(base, o, w, x, w.nodes[x])
  {
    hide MachineOk, IsSettled, OnPath, Between;
  }

  lemma {:induction false} OrderGoesOut(cfg: Config, n: Node, env: Env)
    requires Sound(cfg, n) && n.state == RescaleCoordinating && n.rescale.cleaning == ""
               && n.rescale.order.target != "" && env.sendOk
    requires env.now > NO_TIME && WellNamed(env.view)
    ensures var m := Step(cfg, n, OperationEnded(0, true), env);
            && Sound(cfg, m) && m.state == StableServer && m.persisted == n.persisted
                 && NewOrders(n, m) == [n.rescale.order]
            && m.rescale.failedSince == n.rescale.failedSince && m.rescale.retryNotBefore == n.rescale.retryNotBefore
                 && m.rescale.cleaning == ""
    ensures n.pending != [] && !EndsRound(n, OperationEnded(0, true))
  {
    TurnIsSound(cfg, n, OperationEnded(0, true), env);
    hide MaybeRescale, OrdersIn;
    OneNews(n, Step(cfg, n, OperationEnded(0, true), env), RescaleConvert(Some(n.rescale.order)));
  }

  lemma {:induction false} FittingOrder(o: Origin, w: World, r: Rescale)
    requires RoundFits(o, w, r) && r.order.target != ""
    ensures IsSettled(o, w, r.order) && (RoundIsDue(o, w, r) <==> IsNext(o, w, r.order))
  {}

  /** What such a turn does to the world. */
  lemma {:induction false} OrderTurn(base: Config, w: World, x: Name, env: Env)
    requires x in w.nodes && env.sendOk && env.now > NO_TIME && WellNamed(env.view)
    requires var n := w.nodes[x];
             Sound(ConfigOf(base, x), n) && n.state == RescaleCoordinating && n.rescale.cleaning == ""
             && n.rescale.order.target != ""
    ensures var n, d := w.nodes[x], TurnOf(base, w, x, OperationEnded(0, true), env);
            && Changed(w, d, x) && d.gone == w.gone && d.orders == w.orders + [n.rescale.order]
            && Sound(ConfigOf(base, x), d.nodes[x]) && d.nodes[x].state == StableServer
            && d.nodes[x].persisted == n.persisted && d.nodes[x].rescale.cleaning == ""
            && d.nodes[x].rescale.failedSince == n.rescale.failedSince
  {
    hide Step, Sound, EndsRound;
    OrderGoesOut(ConfigOf(base, x), w.nodes[x], env);
    assert w.gone - {} == w.gone;
  }

  /** A round that broadcasts its order passes its step on; if the order is spent, there was no step to pass. */
  lemma {:induction false} OrderRoundGoesOn(base: Config, o: Origin, w: World, x: Name, env: Env)
    requires OnCourse(base, o, w) && WellFormed(o) && x in w.nodes && env.sendOk && env.now > NO_TIME
               && WellNamed(env.view)
    requires w.nodes[x].state == RescaleCoordinating && w.nodes[x].rescale.order.target != ""
    ensures var d := TurnOf(base, w, x, OperationEnded(0, true), env);
            && OnCourse(base, o, d) && SameFrame(w, d) && Remaining(o, d) <= Remaining(o, w)
            && d.gone == w.gone && Holders(d) == Holders(w) - {x} && x in Holders(w)
  {
    hide Sound, IsNext, IsSpent, ServersOf, RunsServer, TurnOf, OnCourse, MachineOk, OnPath, Between, RoundIsDue,
         RoundFits, HasConverter, IsLowestServer, Target, Distance;
    var n := w.nodes[x];
    var order := n.rescale.order;
    MachineFacts(base, o, w, x);
    CourseFacts(base, o, w);
    FittingRound(base, o, w, x);
    FittingOrder(o, w, n.rescale);
    OrderTurn(base, w, x, env);
    var d := TurnOf(base, w, x, OperationEnded(0, true), env);
    SameRoles(w, d, x) by { SameRecord(n, d.nodes[x]); }
    NextInSameFrame(o, w, d, order);
    StableMachineOk(base, o, d, x, d.nodes[x]);
    ReleaseGoesOn(base, o, w, d, x);
    OrderTakesOver(base, o, w, d, x, order);
    CoordinatorsHold();
    hide HasNextOrder, HasDueRound, HoldsTurn;
  }

  lemma {:induction false} OrderTakesOver(base: Config, o: Origin, w: World, d: World, x: Name, order: Order)
    requires SameFrame(w, d) && d.orders == w.orders + [order] && OneCoordinator(w)
    requires x in w.nodes && w.nodes[x].state == RescaleCoordinating
    requires RoundIsDue(o, w, w.nodes[x].rescale) <==> IsNext(o, w, order)
    ensures HasNextOrder(o, w) || HasDueRound(o, w) ==> HasNextOrder(o, d)
  {
    hide IsNext, ServersOf, RoundIsDue;
    NextInSameFrame(o, w, d, order);
    if earlier :| earlier in w.orders && IsNext(o, w, earlier) {
      NextInSameFrame(o, w, d, earlier);
      assert earlier in d.orders;
    } else if y :| y in w.nodes && w.nodes[y].state == RescaleCoordinating && RoundIsDue(o, w, w.nodes[y].rescale) {
      assert y == x && order in d.orders;
    }
  }

  lemma {:induction false} OrderComesIn(cfg: Config, n: Node, order: Order, env: Env)
    requires Sound(cfg, n) && env.now > NO_TIME && WellNamed(env.view)
    requires order.target == cfg.name && order.joinIP != "" && IsKnown(order.role)
               && n.state == StableState(Other(order.role))
    ensures var m := Step(cfg, n, UserEventReceived(RescaleConvert(Some(order))), env);
            && Sound(cfg, m) && m.persisted == n.persisted && m.sent == n.sent
            && m.state == (if order.role == Server then RescalePromoting else RescaleDemoting)
            && m.rescale == n.rescale.(order := order)
  {
    hide MaybeRescale;
    TurnIsSound(cfg, n, UserEventReceived(RescaleConvert(Some(order))), env);
  }

  lemma {:induction false} ConverterOk(base: Config, o: Origin, d: World, x: Name, m: Node)
    requires Sound(ConfigOf(base, x), m) && (m.state == RescalePromoting || m.state == RescaleDemoting)
               && m.rescale.cleaning == ""
    requires KnowsFailures(base, o, d, m) && IsNext(o, d, m.rescale.order)
    ensures MachineOk(base, o, d, x, m)
  {
    hide Sound, IsNext, RoundFits;
  }

  lemma {:induction false} ConversionEnds(cfg: Config, n: Node, env: Env)
    requires Sound(cfg, n) && (n.state == RescalePromoting || n.state == RescaleDemoting)
               && IsKnown(n.rescale.order.role)
    requires env.now > NO_TIME && WellNamed(env.view)
    ensures var m := Step(cfg, n, OperationEnded(0, true), env);
            && Sound(cfg, m) && m.sent == n.sent && (RunsServer(m) <==> n.rescale.order.role == Server)
            && m.state == StableState(n.rescale.order.role) && m.rescale == n.rescale.(order := NO_ORDER)
    ensures n.pending != [] && !EndsRound(n, OperationEnded(0, true)) && n.rescale.order.target == cfg.name
  {
    TurnIsSound(cfg, n, OperationEnded(0, true), env);
    hide MaybeRescale;
  }

  lemma {:induction false} ConverterHasOrder(base: Config, o: Origin, w: World, x: Name)
    requires x in w.nodes && MachineOk(base, o, w, x, w.nodes[x])
    requires w.nodes[x].state == RescalePromoting || w.nodes[x].state == RescaleDemoting
    ensures IsNext(o, w, w.nodes[x].rescale.order)
  {
    hide Sound, IsNext, RoundFits;
  }

  lemma {:induction false} NewRole(w: World, d: World, x: Name)
    requires Changed(w, d, x)
    ensures ServersOf(d) == if RunsServer(d.nodes[x]) then ServersOf(w) + {x} else ServersOf(w) - {x}
  {
    hide RunsServer;
  }

  lemma {:induction false} StepOnPath(o: Origin, w: World, order: Order)
    requires WellFormed(o) && w.nodes.Keys == o.servers + o.agents && IsNext(o, w, order)
    requires OnPath(o, ServersOf(w)) && Between(o, |ServersOf(w)|)
    ensures var s := if order.role == Server then ServersOf(w) + {order.target} else ServersOf(w) - {order.target};
            && OnPath(o, s) && Between(o, |s|)
            && Distance(|s|, Target(o)) == Distance(|ServersOf(w)|, Target(o)) - 1
    ensures IsKnown(order.role) && w.gone.Keys == {}
  {
    hide ServersOf, OnPath, Between, Target;
    if |ServersOf(w)| < Target(o) {
      PathGrows(o, ServersOf(w), order.target);
    } else {
      PathShrinks(o, ServersOf(w), order.target);
    }
  }

  lemma {:induction false} StableStates(r: Role)
    ensures StableState(r) == StableServer || StableState(r) == StableAgent
  {}

  // --- Orders that come late, or again ---

  lemma {:induction false} NextIsUnique(o: Origin, w: World, a: Order, b: Order)
    requires IsNext(o, w, a) && IsNext(o, w, b)
    ensures a.target == b.target && a.role == b.role
  {
    if a.target != b.target {
      LessIsAsymmetric(a.target, b.target);
    }
  }

  lemma {:induction false} SpentIsNotNext(o: Origin, w: World, order: Order)
    requires IsSpent(o, w, order)
    ensures !IsNext(o, w, order)
  {
    hide ServersOf, Target;
  }

  /** Once the next step is made, every order is spent: those for this step now, and the earlier ones for good. */
  lemma {:induction false} StepSpendsOrders(o: Origin, w: World, d: World, next: Order, order: Order)
    requires IsNext(o, w, next) && Between(o, |ServersOf(w)|) && d.gone.Keys == w.gone.Keys
               && d.nodes.Keys == w.nodes.Keys
    requires ServersOf(d) ==
             if next.role == Server then ServersOf(w) + {next.target} else ServersOf(w) - {next.target}
    requires IsSettled(o, w, order)
    ensures IsSpent(o, d, order)
  {
    hide ServersOf, Target;
    if IsNext(o, w, order) {
      NextIsUnique(o, w, next, order);
    }
  }

  lemma {:induction false} ConvertersAreOne(base: Config, o: Origin, w: World, x: Name, y: Name)
    requires OnCourse(base, o, w) && x in w.nodes && y in w.nodes
    requires IsConverting(w.nodes[x].state) && IsNext(o, w, w.nodes[x].rescale.order) && IsConverting(w.nodes[y].state)
    ensures y == x
  {
    IsOk(base, o, w, x);
    IsOk(base, o, w, y);
    ConverterHasOrder(base, o, w, y);
    OwnOrder(base, o, w, x);
    OwnOrder(base, o, w, y);
    hide OnCourse, MachineOk, IsNext;
    NextIsUnique(o, w, w.nodes[x].rescale.order, w.nodes[y].rescale.order);
  }

  lemma {:induction false} OwnOrder(base: Config, o: Origin, w: World, x: Name)
    requires x in w.nodes && MachineOk(base, o, w, x, w.nodes[x]) && IsConverting(w.nodes[x].state)
    ensures w.nodes[x].rescale.order.target == x
  {
    hide IsNext, RoundFits, TokenOk, RecordOk, JoinOk;
  }

  /** A coordinator keeps on fitting when another machine makes the next step. */
  lemma {:induction false} CoordinatorFitsOn(cfg: Config, o: Origin, w: World, d: World, next: Order, n: Node)
    requires IsNext(o, w, next) && Between(o, |ServersOf(w)|)
    requires d.gone.Keys == w.gone.Keys && d.nodes.Keys == w.nodes.Keys
    requires ServersOf(d) ==
             if next.role == Server then ServersOf(w) + {next.target} else ServersOf(w) - {next.target}
    requires Sound(cfg, n) && n.state == RescaleCoordinating && n.rescale.cleaning == "" && RoundFits(o, w, n.rescale)
    ensures RoundFits(o, d, n.rescale) && !RoundIsDue(o, d, n.rescale)
  {
    hide ServersOf, IsNext, IsSpent, Between;
    CoordinatorsEvictOrConvert(cfg, n);
    OrdersNeedNobodyGone(o, w, next);
    if n.rescale.order.target != "" {
      StepSpendsOrders(o, w, d, next, n.rescale.order);
      SpentIsNotNext(o, d, n.rescale.order);
    } else {
      EvictionIsDue(o, w, n.rescale);
      DueEviction(o, w, n.rescale);
    }
  }

  lemma {:induction false} LowestStaysLowest(o: Origin, w: World, d: World, next: Order, y: Name)
    requires IsNext(o, w, next) && Between(o, |ServersOf(w)|) && |o.servers| > Target(o) && IsLowestServer(w, y)
    requires ServersOf(d) ==
             if next.role == Server then ServersOf(w) + {next.target} else ServersOf(w) - {next.target}
    ensures IsLowestServer(d, y)
  {
    hide ServersOf, Target;
  }

  lemma {:induction false} RoundFitsOn(base: Config, o: Origin, w: World, d: World, next: Order, y: Name)
    requires IsNext(o, w, next) && Between(o, |ServersOf(w)|)
    requires d.gone.Keys == w.gone.Keys && d.nodes.Keys == w.nodes.Keys
    requires ServersOf(d) ==
             if next.role == Server then ServersOf(w) + {next.target} else ServersOf(w) - {next.target}
    requires y in w.nodes && MachineOk(base, o, w, y, w.nodes[y]) && !IsConverting(w.nodes[y].state)
    ensures MachineOk(base, o, d, y, w.nodes[y])
    ensures w.nodes[y].state == RescaleCoordinating ==> !RoundIsDue(o, d, w.nodes[y].rescale)
  {
    hide Sound, IsNext, IsSpent, ServersOf, Target, Between, RoundFits, RoundIsDue, IsLowestServer;
    var n := w.nodes[y];
    assert forall z :: z in d.gone ==> z in w.gone.Keys;
    if n.state == RescaleCoordinating {
      CoordinatorFitsOn(ConfigOf(base, y), o, w, d, next, n);
      if |o.servers| > Target(o) {
        LowestStaysLowest(o, w, d, next, y);
      }
    }
  }

  lemma {:induction false} CoordinatorsEvictOrConvert(cfg: Config, n: Node)
    requires Sound(cfg, n) && n.state == RescaleCoordinating && n.rescale.cleaning == ""
    ensures n.rescale.order.target == "" ==> n.rescale.evicting != []
  {}

  /** The cluster after a step: nothing that was under way for it is left but spent orders and rounds. */
  lemma {:induction false} StepGoesOn(base: Config, o: Origin, w: World, d: World, x: Name, next: Order)
    requires OnCourse(base, o, w) && WellFormed(o) && Changed(w, d, x) && d.gone.Keys == w.gone.Keys
               && d.orders == w.orders
    requires IsConverting(w.nodes[x].state) && next == w.nodes[x].rescale.order && IsNext(o, w, next)
    requires ServersOf(d) ==
             if next.role == Server then ServersOf(w) + {next.target} else ServersOf(w) - {next.target}
    requires OnPath(o, ServersOf(d)) && Between(o, |ServersOf(d)|)
    requires MachineOk(base, o, d, x, d.nodes[x]) && !HoldsTurn(d.nodes[x].state)
    ensures OnCourse(base, o, d) && Stage(o, d) == 0 && Stage(o, w) == 3
  {
    hide Sound, IsNext, IsSpent, ServersOf, OnCourse, MachineOk, OnPath, Between, RoundIsDue, RoundFits;
    CourseFacts(base, o, w);
    OrdersNeedNobodyGone(o, w, next);
    CoordinatorsHold();
    SameCoordinator(w, d, x);
    forall y | y in d.nodes
      ensures MachineOk(base, o, d, y, d.nodes[y])
      ensures !IsConverting(d.nodes[y].state)
      ensures d.nodes[y].state == RescaleCoordinating ==> !RoundIsDue(o, d, d.nodes[y].rescale)
    {
      if y != x {
        IsOk(base, o, w, y);
        if IsConverting(w.nodes[y].state) {
          ConvertersAreOne(base, o, w, x, y);
        }
        RoundFitsOn(base, o, w, d, next, y);
      }
    }
    forall order | order in d.orders ensures IsSettled(o, d, order) && !IsNext(o, d, order) {
      StepSpendsOrders(o, w, d, next, order);
      SpentIsNotNext(o, d, order);
    }
    ChangeStaysOnCourse(base, o, w, d, x);
  }

  /** Each conversion moves the server count one step towards its target. */
  lemma {:induction false} ConversionGoesOn(base: Config, o: Origin, w: World, x: Name, env: Env)
    requires OnCourse(base, o, w) && WellFormed(o) && x in w.nodes && env.now > NO_TIME && WellNamed(env.view)
    requires IsConverting(w.nodes[x].state)
    ensures var d := TurnOf(base, w, x, OperationEnded(0, true), env);
            && OnCourse(base, o, d) && Remaining(o, d) == Remaining(o, w) - 1
            && Distance(|ServersOf(d)|, Target(o)) == Distance(|ServersOf(w)|, Target(o)) - 1
            && d.gone == w.gone
  {
    hide Sound, IsNext, OnPath, Between, ServersOf, RunsServer, HoldsTurn, Step, StableState, Distance, Target,
         OnCourse, MachineOk, Stage;
    var n := w.nodes[x];
    MachineFacts(base, o, w, x);
    CourseFacts(base, o, w);
    ConverterHasOrder(base, o, w, x);
    StepOnPath(o, w, n.rescale.order);
    ConversionEnds(ConfigOf(base, x), n, env);
    var d := TurnOf(base, w, x, OperationEnded(0, true), env);
    NoNews(n, d.nodes[x]);
    assert d.gone == w.gone && d.orders == w.orders;
    assert Changed(w, d, x);
    StableStates(n.rescale.order.role);
    StableIsFree(d.nodes[x].state);
    NewRole(w, d, x);
    StableMachineOk(base, o, d, x, d.nodes[x]);
    StepGoesOn(base, o, w, d, x, n.rescale.order);
  }

  /** An order that is spent is not taken; nor is any order a machine is not in the state for. */
  lemma {:induction false} OnlyNextIsTaken(base: Config, o: Origin, w: World, order: Order)
    requires OnCourse(base, o, w) && IsSettled(o, w, order) && order.target in w.nodes
    requires AcceptsOrder(ConfigOf(base, order.target), w.nodes[order.target], order)
    ensures IsNext(o, w, order)
  {
    var x := order.target;
    IsOk(base, o, w, x);
    UpMachines(ConfigOf(base, x), w.nodes[x]);
    hide OnCourse, IsNext, Sound, RoundFits, RunsServer;
    assert x in ServersOf(w) <==> RunsServer(w.nodes[x]);
  }

  /** The machine the next order is for takes it, or is converting already. */
  /** A machine whose role is to change is stable, coordinating, or converting. */
  lemma {:induction false} RoleAndState(base: Config, o: Origin, w: World, x: Name)
    requires OnCourse(base, o, w) && x in w.nodes
    ensures w.nodes[x].persisted.Some?
    ensures var s := w.nodes[x].state;
            if x in ServersOf(w) then s == StableServer || s == RescaleCoordinating || s == RescaleDemoting
            else s == StableAgent || s == RescalePromoting
  {
    IsOk(base, o, w, x);
    OkMachinesAreUp(base, o, w, x, w.nodes[x]);
    UpMachines(ConfigOf(base, x), w.nodes[x]);
    assert x in ServersOf(w) <==> RunsServer(w.nodes[x]);
    hide OnCourse, MachineOk, Sound, RunsServer, ServersOf;
  }

  lemma {:induction false} NextIsTaken(base: Config, o: Origin, w: World, order: Order)
    requires OnCourse(base, o, w) && WellFormed(o) && IsNext(o, w, order)
    ensures IsKnown(order.role)
    ensures AcceptsOrder(ConfigOf(base, order.target), w.nodes[order.target], order) ||
            IsConverting(w.nodes[order.target].state)
  {
    hide OnCourse, Sound, RoundFits, RunsServer, ServersOf, Target, MachineOk, WellFormed, IsLowestServer, Between,
         OnPath;
    var x := order.target;
    RoleAndState(base, o, w, x);
    if w.nodes[x].state == RescaleCoordinating {
      IsOk(base, o, w, x);
      FittingRound(base, o, w, x);
      CourseFacts(base, o, w);
      LowestIsNotNext(o, w, order);
    }
  }

  /** The lowest-named server is never the next to go. */
  lemma {:induction false} LowestIsNotNext(o: Origin, w: World, order: Order)
    requires WellFormed(o) && IsNext(o, w, order) && order.role == Agent && Between(o, |ServersOf(w)|)
    ensures |o.servers| > Target(o) && !IsLowestServer(w, order.target)
  {
    hide ServersOf;
    TargetIsReachable(o);
    hide Target;
    var y := OneMissing({order.target}, ServersOf(w));
    LessIsAsymmetric(y, order.target);
  }

  lemma {:induction false} SameServers(w: World, d: World)
    requires d.nodes == w.nodes
    ensures ServersOf(d) == ServersOf(w)
  {}

  lemma {:induction false} FewerOrders(base: Config, o: Origin, w: World, d: World)
    requires OnCourse(base, o, w) && d.nodes == w.nodes && d.gone == w.gone
    requires forall order :: order in d.orders ==> order in w.orders
    ensures OnCourse(base, o, d) && SameFrame(w, d)
  {
    hide IsNext, IsSpent, OnPath, Between, MachineOk, ServersOf, OneCoordinator;
    SameServers(w, d);
    forall y | y in d.nodes ensures MachineOk(base, o, d, y, d.nodes[y]) {
      MachineInSameFrame(base, o, w, d, y, w.nodes[y]);
    }
    forall order | order in d.orders ensures IsSettled(o, d, order) {
      NextInSameFrame(o, w, d, order);
    }
    assert OneCoordinator(d) by { SameCoordinators(w, d); }
  }

  lemma {:induction false} SameCoordinators(w: World, d: World)
    requires OneCoordinator(w) && d.nodes == w.nodes
    ensures OneCoordinator(d)
  {}

  /** Without one of its orders, a cluster is as far as it was, or two stages back. */
  lemma {:induction false} StageWithFewer(o: Origin, w: World, d: World)
    requires d.nodes == w.nodes && d.gone == w.gone && SameFrame(w, d)
    ensures (HasConverter(d) <==> HasConverter(w)) && (HasDueRound(o, d) <==> HasDueRound(o, w))
    ensures (forall order :: order in d.orders ==> order in w.orders) && HasNextOrder(o, d) ==> HasNextOrder(o, w)
    ensures (forall order :: order in w.orders && IsNext(o, w, order) ==> order in d.orders) && HasNextOrder(o, w) ==>
              HasNextOrder(o, d)
  {
    hide IsNext, RoundIsDue, ServersOf;
    forall order ensures IsNext(o, w, order) <==> IsNext(o, d, order) {
      NextInSameFrame(o, w, d, order);
    }
    forall r ensures RoundIsDue(o, w, r) <==> RoundIsDue(o, d, r) {
      DueInSameFrame(o, w, d, r);
    }
  }

  lemma {:induction false} OrdersWithout(w: World, which: nat)
    requires which < |w.orders|
    ensures forall order :: order in WithoutOrder(w, which).orders ==> order in w.orders
    ensures forall order :: order in w.orders && order != w.orders[which] ==> order in WithoutOrder(w, which).orders
  {
    var d := WithoutOrder(w, which);
    forall order | order in w.orders && order != w.orders[which] ensures order in d.orders {
      var i :| 0 <= i < |w.orders| && w.orders[i] == order;
      assert d.orders[if i < which then i else i - 1] == order;
    }
  }

  /** An order that gets lost leaves the cluster where it was before the round. */
  lemma {:induction false} LossMove(base: Config, o: Origin, w: World, which: nat)
    requires OnCourse(base, o, w) && which < |w.orders|
    ensures var d := WithoutOrder(w, which);
            && OnCourse(base, o, d) && SameFrame(w, d) && Remaining(o, d) <= Remaining(o, w) + 2
            && (!IsNext(o, w, w.orders[which]) || HasConverter(w) ==> Remaining(o, d) == Remaining(o, w))
  {
    hide OnCourse, ServersOf, IsNext, HasConverter, HasNextOrder, HasDueRound;
    var d := WithoutOrder(w, which);
    OrdersWithout(w, which);
    FewerOrders(base, o, w, d);
    StageWithFewer(o, w, d);
  }

  /** An order that is repeated changes nothing. */
  lemma {:induction false} RepeatMove(base: Config, o: Origin, w: World, which: nat)
    requires OnCourse(base, o, w) && which < |w.orders|
    ensures var d := w.(orders := w.orders + [w.orders[which]]);
            OnCourse(base, o, d) && SameFrame(w, d) && Remaining(o, d) == Remaining(o, w)
  {
    hide OnCourse, ServersOf, IsNext, HasConverter, HasNextOrder, HasDueRound;
    var d := w.(orders := w.orders + [w.orders[which]]);
    FewerOrders(base, o, w, d);
    StageWithFewer(o, w, d);
  }

  lemma {:induction false} RefusedOrder(cfg: Config, n: Node, order: Order, env: Env)
    requires !AcceptsOrder(cfg, n, order)
    ensures Step(cfg, n, UserEventReceived(RescaleConvert(Some(order))), env) == n
  {}

  /** The order the cluster waits for arrives: its target converts. */
  lemma {:induction false} TakingGoesOn(base: Config, o: Origin, w: World, d: World, order: Order)
    requires OnCourse(base, o, w) && order in w.orders && IsNext(o, w, order) && Changed(w, d, order.target)
    requires d.gone == w.gone && (forall other :: other in d.orders ==> other in w.orders)
    requires w.nodes[order.target].state == StableServer || w.nodes[order.target].state == StableAgent
    requires IsConverting(d.nodes[order.target].state)
               && d.nodes[order.target].persisted == w.nodes[order.target].persisted
    requires SameFrame(w, d) ==> MachineOk(base, o, d, order.target, d.nodes[order.target])
    ensures OnCourse(base, o, d) && SameFrame(w, d) && Stage(o, w) == 2 && Stage(o, d) == 3
  {
    var x := order.target;
    hide Sound, IsNext, IsSpent, ServersOf, RunsServer, OnCourse, MachineOk, OnPath, Between, RoundIsDue, RoundFits;
    SameRoles(w, d, x) by { SameRecord(w.nodes[x], d.nodes[x]); }
    CourseFacts(base, o, w);
    SameCoordinator(w, d, x);
    forall y | y in w.nodes ensures !IsConverting(w.nodes[y].state) {
      if IsConverting(w.nodes[y].state) {
        IsOk(base, o, w, y);
        ConverterHasOrder(base, o, w, y);
        OwnOrder(base, o, w, y);
        NextIsUnique(o, w, order, w.nodes[y].rescale.order);
      }
    }
    QuietChange(base, o, w, d, x);
    assert HasNextOrder(o, w) && HasConverter(d);
  }

  /** An order arrives, early or late, for the first time or not. */
  lemma {:induction false} ArrivalGoesOn(base: Config, o: Origin, w: World, which: nat, env: Env)
    requires OnCourse(base, o, w) && WellFormed(o) && which < |w.orders| && env.now > NO_TIME && WellNamed(env.view)
    ensures var order := w.orders[which];
            var d := After(base, w, Arrives(which, env));
            && OnCourse(base, o, d) && SameFrame(w, d) && d.gone == w.gone && Remaining(o, d) <= Remaining(o, w)
            && (IsNext(o, w, order) && !HasConverter(w) ==> Remaining(o, d) == Remaining(o, w) - 1)
  {
    hide Sound, IsNext, IsSpent, ServersOf, Step, MachineOk, OnCourse, OnPath, Between, AcceptsOrder, Target, Distance,
         RunsServer;
    CourseFacts(base, o, w);
    var order := w.orders[which];
    assert IsSettled(o, w, order);
    OrdersNeedNobodyGone(o, w, order);
    var x := order.target;
    var n := w.nodes[x];
    if IsNext(o, w, order) {
      NextIsTaken(base, o, w, order);
    }
    if AcceptsOrder(ConfigOf(base, x), n, order) {
      OnlyNextIsTaken(base, o, w, order);
      AcceptedArrival(base, o, w, which, env);
    } else {
      RefusedOrder(ConfigOf(base, x), n, order, env);
      NoNews(n, n);
      LossMove(base, o, w, which);
      var d := After(base, w, Arrives(which, env));
      assert d.nodes == w.nodes && d.gone == w.gone && d == WithoutOrder(w, which);
    }
  }

  /** What taking an order does to the world. */
  lemma {:induction false} TakingTurn(base: Config, w: World, which: nat, env: Env)
    requires which < |w.orders| && w.orders[which].target in w.nodes && IsKnown(w.orders[which].role)
    requires env.now > NO_TIME && WellNamed(env.view)
    requires var order := w.orders[which];
             var n := w.nodes[order.target];
             Sound(ConfigOf(base, order.target), n) && AcceptsOrder(ConfigOf(base, order.target), n, order)
    ensures var order, d := w.orders[which], After(base, w, Arrives(which, env));
            var x, n := order.target, w.nodes[order.target];
            && Changed(w, d, x) && d.gone == w.gone && d.orders == WithoutOrder(w, which).orders
            && (n.state == StableServer || n.state == StableAgent)
            && Sound(ConfigOf(base, x), d.nodes[x]) && d.nodes[x].persisted == n.persisted
            && IsConverting(d.nodes[x].state) && d.nodes[x].rescale == n.rescale.(order := order)
  {
    var order := w.orders[which];
    var x := order.target;
    var n := w.nodes[x];
    assert n.state == StableState(Other(order.role)) && order.joinIP != "";
    StableStates(Other(order.role));
    hide Sound, Step, AcceptsOrder, StableState;
    OrderComesIn(ConfigOf(base, x), n, order, env);
    var d := After(base, w, Arrives(which, env));
    NoNews(n, d.nodes[x]);
    assert w.gone - {} == w.gone;
  }

  lemma {:induction false} TakerOk(base: Config, o: Origin, w: World, d: World, x: Name, order: Order)
    requires x in w.nodes && x in d.nodes && SameFrame(w, d) && MachineOk(base, o, w, x, w.nodes[x]) && d.gone == w.gone
    requires Sound(ConfigOf(base, x), d.nodes[x]) && IsConverting(d.nodes[x].state) && IsNext(o, w, order)
    requires d.nodes[x].rescale == w.nodes[x].rescale.(order := order)
    ensures MachineOk(base, o, d, x, d.nodes[x])
  {
    hide Sound, IsNext, IsSpent, ServersOf, RoundFits;
    NextInSameFrame(o, w, d, order);
    ConverterOk(base, o, d, x, d.nodes[x]);
  }

  lemma {:induction false} AcceptedArrival(base: Config, o: Origin, w: World, which: nat, env: Env)
    requires OnCourse(base, o, w) && WellFormed(o) && which < |w.orders| && env.now > NO_TIME && WellNamed(env.view)
    requires IsNext(o, w, w.orders[which]) && IsKnown(w.orders[which].role) && w.orders[which].target in w.nodes
    requires AcceptsOrder(ConfigOf(base, w.orders[which].target), w.nodes[w.orders[which].target], w.orders[which])
    ensures var d := After(base, w, Arrives(which, env));
            && OnCourse(base, o, d) && SameFrame(w, d) && d.gone == w.gone
            && Stage(o, w) == 2 && Stage(o, d) == 3
  {
    var order := w.orders[which];
    var x := order.target;
    hide Sound, IsNext, IsSpent, ServersOf, After, MachineOk, OnCourse, OnPath, Between, AcceptsOrder, Stage,
         RunsServer,
         IsConverting, WellFormed, WithoutOrder, TagsOf, IsKnown, WellNamed;
    MachineFacts(base, o, w, x);
    TakingTurn(base, w, which, env);
    var d := After(base, w, Arrives(which, env));
    OrdersWithout(w, which);
    SameRoles(w, d, x) by { SameRecord(w.nodes[x], d.nodes[x]); }
    TakerOk(base, o, w, d, x, order);
    TakingGoesOn(base, o, w, d, order);
  }

  // --- Any move ---

  predicate IsConversion(w: World, move: Move) {
    && move.Turns? && move.who in w.nodes && move.event.OperationEnded? && move.event.ok
    && (w.nodes[move.who].state == RescalePromoting || w.nodes[move.who].state == RescaleDemoting)
  }

  predicate IsEviction(w: World, move: Move) {
    && move.Turns? && move.who in w.nodes && move.event.OperationEnded? && move.event.ok
    && w.nodes[move.who].state == RescaleCoordinating && w.nodes[move.who].rescale.order.target == ""
  }

  /**
   * How a move brings rescaling forward: a conversion or an eviction at a time, and back by two of the
   * measure's steps at most, when it is a setback.
   */
  ghost predicate GoesOn(o: Origin, w: World, move: Move, d: World) {
    && Remaining(o, d) <= Remaining(o, w) + (if IsSetback(w, move) then 2 else 0)
    && Distance(|ServersOf(d)|, Target(o)) ==
         Distance(|ServersOf(w)|, Target(o)) - (if IsConversion(w, move) then 1 else 0)
    && (if IsEviction(w, move) then w.gone.Keys == o.failed != {} && d.gone.Keys == {} else d.gone.Keys == w.gone.Keys)
  }

  lemma {:induction false} EvaluationMove(base: Config, o: Origin, w: World, x: Name, e: Event, env: Env)
    requires base.rescaleEnabled && base.localIP != "" && WellFormed(o) && OnCourse(base, o, w)
    requires Goes(base, o, w, Turns(x, e, env)) && !e.OperationEnded?
    ensures After(base, w, Turns(x, e, env)) == WithEvaluated(base, w, x, env.view, env.now)
    ensures OnCourse(base, o, WithEvaluated(base, w, x, env.view, env.now))
    ensures GoesOn(o, w, Turns(x, e, env), WithEvaluated(base, w, x, env.view, env.now))
  {
    hide MaybeRescale, Sound, OnCourse, MachineOk, Exact, ServersOf, Stage, Distance, Target, OnMembershipChange;
    var cfg, n := ConfigOf(base, x), w.nodes[x];
    UpIsInCluster(base, o, w, x);
    InClusterOnlyRescales(cfg, n, env.view, env.now);
    EvaluationPassesOn(cfg, n, env.view, env.now);
    NoNews(n, MaybeRescale(cfg, n, env.view, env.now));
    var move := Turns(x, e, env);
    assert After(base, w, move).nodes[x] == MaybeRescale(cfg, n, env.view, env.now);
    assert After(base, w, move).gone == w.gone;
    EvaluationGoesOn(base, o, w, x, env.view, env.now);
  }

  lemma {:induction false} OkMachinesAreUp(base: Config, o: Origin, w: World, x: Name, n: Node)
    requires MachineOk(base, o, w, x, n)
    ensures IsUp(n.state)
  {
    hide Sound, RoundFits, IsNext, IsLowestServer, IsUp;
  }

  lemma {:induction false} UpIsInCluster(base: Config, o: Origin, w: World, x: Name)
    requires OnCourse(base, o, w) && x in w.nodes
    ensures InCluster(w.nodes[x].state) && IsUp(w.nodes[x].state)
  {
    hide OnCourse, MachineOk;
    IsOk(base, o, w, x);
    OkMachinesAreUp(base, o, w, x, w.nodes[x]);
  }

  lemma {:induction false} EvictionMove(base: Config, o: Origin, w: World, x: Name, env: Env)
    requires base.rescaleEnabled && base.localIP != "" && WellFormed(o) && OnCourse(base, o, w)
    requires Goes(base, o, w, Turns(x, OperationEnded(0, true), env))
               && IsEviction(w, Turns(x, OperationEnded(0, true), env))
    ensures OnCourse(base, o, After(base, w, Turns(x, OperationEnded(0, true), env)))
    ensures GoesOn(o, w, Turns(x, OperationEnded(0, true), env), After(base, w, Turns(x, OperationEnded(0, true), env)))
    ensures Remaining(o, After(base, w, Turns(x, OperationEnded(0, true), env))) < Remaining(o, w)
  {
    hide MaybeRescale, Sound, OnCourse, MachineOk, Exact, ServersOf, Remaining, Distance, Target, AfterRound, Holders,
         HasNextOrder, WellFormed, Step;
    var cfg, n, e := ConfigOf(base, x), w.nodes[x], OperationEnded(0, true);
    MachineFacts(base, o, w, x);
    EvictionEnds(cfg, n, env);
    EndOfRoundIsEvaluation(cfg, n, e, env);
    EvictionGoesOn(base, o, w, x, env);
    assert o.failed != {} by { assert n.rescale.evicting[0] in w.gone.Keys; }
    var k := Evicted(w, x, env);
    assert TagsOf(k) == TagsOf(w)[x := StableServer];
    assert w.gone - Removed(n, e, env) == k.gone;
    EvaluationGoesOn(base, o, k, x, env.view, env.now);
    var m := MaybeRescale(cfg, k.nodes[x], env.view, env.now);
    EvaluationPassesOn(cfg, k.nodes[x], env.view, env.now);
    NoNews(n, m);
    assert After(base, w, Turns(x, e, env)) == WithEvaluated(base, k, x, env.view, env.now);
  }

  /** Giving a round up, with what is left of its order or not. */
  lemma {:induction false} AbandonedEffect(cfg: Config, n: Node, e: Event, env: Env)
    requires Abandons(n, e, env)
    ensures var m := OnOperationEnded(cfg, n, e.which, e.ok, env);
            && m.state == StableServer && m.persisted == n.persisted && m.sent == n.sent
            && m.rescale.failedSince == n.rescale.failedSince && m.rescale.cleaning == ""
    ensures !EndsRound(n, e)
  {
    hide MaybeRescale, FinishEviction, FinishForgetting;
  }

  lemma {:induction false} AbandonedRound(cfg: Config, n: Node, e: Event, env: Env)
    requires Sound(cfg, n) && Abandons(n, e, env) && GoodEnv(env)
    ensures var m := Step(cfg, n, e, env);
            && Sound(cfg, m) && m.state == StableServer && m.persisted == n.persisted && m.sent == n.sent
            && m.rescale.failedSince == n.rescale.failedSince && m.rescale.cleaning == ""
    ensures !EndsRound(n, e)
  {
    AbandonedEffect(cfg, n, e, env);
    assert e.OperationEnded? && Possible(n, e);
    hide OnOperationEnded, Sound, Abandons, EndsRound, Possible;
    TurnIsSound(cfg, n, e, env);
  }

  /** An abandoned round leaves the cluster where it was before the round. */
  lemma {:induction false} AbandonedMove(base: Config, o: Origin, w: World, x: Name, e: Event, env: Env)
    requires OnCourse(base, o, w) && WellFormed(o) && x in w.nodes && Abandons(w.nodes[x], e, env) && GoodEnv(env)
    ensures var d := TurnOf(base, w, x, e, env);
            && OnCourse(base, o, d) && SameFrame(w, d) && d.gone == w.gone && Remaining(o, d) <= Remaining(o, w) + 1
  {
    hide Sound, IsNext, IsSpent, ServersOf, RunsServer, OnCourse, AfterRound, RoundIsDue, MachineOk, OnPath, Between,
         Step, EndsRound, HoldsTurn;
    var n := w.nodes[x];
    MachineFacts(base, o, w, x);
    AbandonedRound(ConfigOf(base, x), n, e, env);
    var d := TurnOf(base, w, x, e, env);
    NoNews(n, d.nodes[x]);
    assert d.gone == w.gone && d.orders == w.orders;
    assert Changed(w, d, x);
    SameRoles(w, d, x) by { SameRecord(n, d.nodes[x]); }
    StableMachineOk(base, o, d, x, d.nodes[x]);
    ReleaseGoesOn(base, o, w, d, x);
    StageAfter(o, w, d, x);
    hide HasConverter, HasNextOrder, HasDueRound;
  }

  lemma {:induction false} HoldersArePending(base: Config, o: Origin, w: World, x: Name)
    requires OnCourse(base, o, w) && x in w.nodes
    ensures w.nodes[x].pending != [] <==> HoldsTurn(w.nodes[x].state)
  {
    IsOk(base, o, w, x);
    hide OnCourse, IsNext, ServersOf, RoundFits, RecordOk, JoinOk, RoundOk;
  }

  lemma {:induction false} ExactViewsAreWellNamed(base: Config, o: Origin, w: World, x: Name, e: Event, env: Env)
    requires Goes(base, o, w, Turns(x, e, env))
    ensures WellNamed(env.view)
  {}

  /** The end of an operation that is no setback. */
  lemma {:induction false} ResultMove(base: Config, o: Origin, w: World, x: Name, e: Event, env: Env)
    requires base.rescaleEnabled && base.localIP != "" && WellFormed(o) && OnCourse(base, o, w)
    requires Goes(base, o, w, Turns(x, e, env)) && e.OperationEnded? && !Abandons(w.nodes[x], e, env)
    ensures OnCourse(base, o, TurnOf(base, w, x, e, env))
    ensures GoesOn(o, w, Turns(x, e, env), TurnOf(base, w, x, e, env))
  {
    hide Step, Sound, OnCourse, MachineOk, Exact, ServersOf, Remaining, Distance, Target, HoldsTurn;
    HoldersArePending(base, o, w, x);
    HoldersAre(w.nodes[x].state);
    MachineFacts(base, o, w, x);
    ExactViewsAreWellNamed(base, o, w, x, e, env);
    assert e == OperationEnded(0, true);
    if w.nodes[x].state != RescaleCoordinating {
      ConversionGoesOn(base, o, w, x, env);
    } else if w.nodes[x].rescale.order.target == "" {
      EvictionMove(base, o, w, x, env);
    } else {
      OrderRoundGoesOn(base, o, w, x, env);
    }
  }

  /** Every move keeps the cluster on course, and only setbacks take it back. */
  lemma {:induction false} MovesGoOn(base: Config, o: Origin, w: World, move: Move)
    requires base.rescaleEnabled && base.localIP != "" && WellFormed(o) && OnCourse(base, o, w)
               && Goes(base, o, w, move)
    ensures OnCourse(base, o, After(base, w, move)) && GoesOn(o, w, move, After(base, w, move))
  {
    hide Step, Sound, OnCourse, MachineOk, Exact, ServersOf, Remaining, Distance, Target, HoldsTurn;
    match move {
      case Turns(x, e, env) =>
        ExactViewsAreWellNamed(base, o, w, x, e, env);
        if !e.OperationEnded? {
          EvaluationMove(base, o, w, x, e, env);
        } else if Abandons(w.nodes[x], e, env) {
          AbandonedMove(base, o, w, x, e, env);
        } else {
          ResultMove(base, o, w, x, e, env);
        }
      case Arrives(i, env) => ArrivalGoesOn(base, o, w, i, env);
      case Vanishes(i) => LossMove(base, o, w, i);
      case Repeats(i) => RepeatMove(base, o, w, i);
    }
  }

  lemma {:induction false} HoldersAre(s: State)
    requires HoldsTurn(s)
    ensures s == RescaleCoordinating || s == RescalePromoting || s == RescaleDemoting
  {}

  // --- The end, and why it is reached ---

  /** Nobody is gone, and the control plane has its target size. */
  ghost predicate AtTarget(o: Origin, w: World) {
    w.gone.Keys == {} && |ServersOf(w)| == Target(o)
  }

  /** And no machine coordinates or converts: spent orders may still be on their way. */
  ghost predicate Arrived(o: Origin, w: World) {
    AtTarget(o, w) && Holders(w) == {}
  }

  lemma {:induction false} NothingLeft(base: Config, o: Origin, w: World)
    requires OnCourse(base, o, w) && WellFormed(o)
    ensures Remaining(o, w) >= 0 && (Remaining(o, w) == 0 <==> AtTarget(o, w))
  {
    hide Sound, OnPath, Between, ServersOf, MachineOk, IsNext, Target, OnCourse, RoundIsDue;
    if x :| x in w.nodes && IsConverting(w.nodes[x].state) {
      IsOk(base, o, w, x);
      ConverterHasOrder(base, o, w, x);
      NextIsAStep(o, w, w.nodes[x].rescale.order);
    } else if order :| order in w.orders && IsNext(o, w, order) {
      NextIsAStep(o, w, order);
    } else if x :| x in w.nodes && w.nodes[x].state == RescaleCoordinating && RoundIsDue(o, w, w.nodes[x].rescale) {
      MachineFacts(base, o, w, x);
      DueIsAStep(base, o, w, x);
    }
  }

  lemma {:induction false} NextIsAStep(o: Origin, w: World, order: Order)
    requires IsNext(o, w, order)
    ensures |ServersOf(w)| != Target(o)
  {
    hide ServersOf, Target;
  }

  lemma {:induction false} DueIsAStep(base: Config, o: Origin, w: World, x: Name)
    requires x in w.nodes && Sound(ConfigOf(base, x), w.nodes[x]) && w.nodes[x].rescale.cleaning == ""
    requires w.nodes[x].state == RescaleCoordinating && RoundIsDue(o, w, w.nodes[x].rescale)
    ensures |ServersOf(w)| != Target(o) || w.gone.Keys != {}
  {
    hide ServersOf, Target, IsNext;
    var r := w.nodes[x].rescale;
    if r.order.target != "" {
      NextIsAStep(o, w, r.order);
    } else {
      CoordinatorsEvictOrConvert(ConfigOf(base, x), w.nodes[x]);
      DueEviction(o, w, r);
    }
  }

  /** With nothing under way, some server is the coordinator. */
  lemma {:induction false} Coordinator(base: Config, o: Origin, w: World) returns (c: Name)
    requires OnCourse(base, o, w) && WellFormed(o)
    ensures c in ServersOf(w) && c in w.nodes && forall y :: y in ServersOf(w) && y != c ==> Less(c, y)
  {
    hide Sound, OnPath, MachineOk, IsNext, ServersOf;
    TargetIsReachable(o);
    c := Least(ServersOf(w));
    assert ServersOf(w) <= w.nodes.Keys by { ServersRun(w); }
  }

  lemma {:induction false} ServersRun(w: World)
    ensures ServersOf(w) <= w.nodes.Keys
  {}

  /** It sees itself elected, and nothing in its way. */
  lemma {:induction false} RestElects(base: Config, o: Origin, w: World, c: Name, v: View)
    requires OnCourse(base, o, w) && WellFormed(o) && Holders(w) == {} && Exact(TagsOf(w), w.gone, v)
    requires c in w.nodes && c in ServersOf(w) && forall y :: y in ServersOf(w) && y != c ==> Less(c, y)
    ensures w.nodes[c].state == StableServer && IsCoordinator(v, c) && !EtcdIsChanging(v)
  {
    hide Sound, OnCourse, MachineOk, ServersOf, Exact, Lowest;
    RestIsQuiet(base, o, w);
    assert TagsOf(w)[c] == StableServer;
    QuietIsIdle(TagsOf(w), w.gone, v, ServersOf(w));
    SeenLowest(TagsOf(w), w.gone, v, StableServer);
    var low := Lowest(v, StableServer).name;
    if low != c {
      assert low in ServersOf(w);
      LessIsAsymmetric(low, c);
    }
  }

  /** At rest with someone gone, the coordinator's very next evaluation starts the eviction. */
  lemma {:induction false} RestStartsEviction(base: Config, o: Origin, w: World, c: Name, v: View, now: Time)
    requires base.rescaleEnabled && OnCourse(base, o, w) && WellFormed(o) && Holders(w) == {} && o.now <= now
    requires Exact(TagsOf(w), w.gone, v) && w.gone.Keys != {}
    requires c in w.nodes && c in ServersOf(w) && forall y :: y in ServersOf(w) && y != c ==> Less(c, y)
    requires w.nodes[c].rescale.retryNotBefore <= now
    ensures MaybeRescale(ConfigOf(base, c), w.nodes[c], v, now).state == RescaleCoordinating
  {
    hide Sound, OnCourse, MachineOk, ServersOf, Exact, Evictable, IsCoordinator, EtcdIsChanging, TrackFailures, Resize,
         TagsOf, WellFormed;
    var cfg, n := ConfigOf(base, c), w.nodes[c];
    RestElects(base, o, w, c, v);
    MachineFacts(base, o, w, c);
    FailuresStayKnown(cfg, TagsOf(w), w.gone, n, v, now, o.now);
    var y :| y in w.gone;
    assert y in Evictable(v, Tracked(n, v, now).rescale.failedSince, cfg.grace, now);
  }

  /** At rest off target, an evaluation starts the settle delay, and one after it the next conversion. */
  lemma {:induction false} RestStartsConversion(base: Config, o: Origin, w: World, c: Name, v: View, now: Time)
    requires base.rescaleEnabled && OnCourse(base, o, w) && WellFormed(o) && Holders(w) == {} && o.now <= now
               && now > NO_TIME
    requires Exact(TagsOf(w), w.gone, v) && w.gone == map[] && |ServersOf(w)| != Target(o)
    requires c in w.nodes && c in ServersOf(w) && forall y :: y in ServersOf(w) && y != c ==> Less(c, y)
    requires w.nodes[c].rescale.retryNotBefore <= now
    ensures var since := w.nodes[c].rescale.imbalanceSince;
            var m := MaybeRescale(ConfigOf(base, c), w.nodes[c], v, now);
            && (since != NO_TIME && since + base.settle <= now ==> m.state == RescaleCoordinating)
            && (m.state == RescaleCoordinating || m.rescale.imbalanceSince == (if since != NO_TIME then since else now))
  {
    hide Sound, OnCourse, MachineOk, ServersOf, Exact, Evictable, IsCoordinator, EtcdIsChanging, TrackFailures, TagsOf,
         ChooseConversionTarget, K3sServerCount, DesiredServers, Quiet, OnPath, Between, MaybeRescale;
    var cfg, n := ConfigOf(base, c), w.nodes[c];
    RestElects(base, o, w, c, v);
    RestIsQuiet(base, o, w);
    CourseFacts(base, o, w);
    assert TagsOf(w).Keys == o.servers + o.agents by { TagKeys(w); }
    ChoiceIsNext(cfg, o, TagsOf(w), v, ServersOf(w));
    SizesSeen(o, TagsOf(w), v, ServersOf(w));
    NoneEvictable(TagsOf(w), v, Tracked(n, v, now).rescale.failedSince, base.grace, now);
    ComparingMeansResizing(cfg, n, v, now);
  }

  lemma {:induction false} TagKeys(w: World)
    ensures TagsOf(w).Keys == w.nodes.Keys
  {}

  lemma {:induction false} SomeoneIsListed(names: seq<Name>)
    requires names != []
    ensures exists x :: x in names
  {
    assert names[0] in names;
  }

  lemma {:induction false} NoneEvictable(tags: map<Name, State>, v: View, since: map<Name, Time>, grace: nat, now: Time)
    requires Exact(tags, map[], v)
    ensures Evictable(v, since, grace, now) == []
  {
    FailedAreGone(tags, map[], v);
    ViewLaws.EvictableAreTheDurablyFailed(v, since, grace, now);
    hide Evictable;
    if Evictable(v, since, grace, now) != [] {
      SomeoneIsListed(Evictable(v, since, grace, now));
    }
  }

  /**
   * Rescaling never gets stuck: whatever is under way can end, and ends closer; and when nothing is,
   * two evaluations of the coordinator a settle delay apart bring it closer.
   */
  lemma {:induction false} TwoEvaluationsSuffice(base: Config, o: Origin, w: World, c: Name, v1: View, t1: Time,
      v2: View, t2: Time)
    requires base.rescaleEnabled && base.localIP != "" && OnCourse(base, o, w) && WellFormed(o)
    requires Holders(w) == {} && !HasNextOrder(o, w) && !AtTarget(o, w)
    requires c in w.nodes && c in ServersOf(w) && forall y :: y in ServersOf(w) && y != c ==> Less(c, y)
    requires o.now <= t1 && NO_TIME < t1 && t1 + base.settle <= t2 && Exact(TagsOf(w), w.gone, v1)
    requires w.nodes[c].rescale.imbalanceSince <= t1 && w.nodes[c].rescale.retryNotBefore <= t1
    ensures var d := WithEvaluated(base, w, c, v1, t1);
            Remaining(o, d) < Remaining(o, w)
            || (Exact(TagsOf(d), d.gone, v2) ==> Remaining(o, WithEvaluated(base, d, c, v2, t2)) < Remaining(o, w))
  {
    hide Sound, OnCourse, MachineOk, ServersOf, Exact, MaybeRescale, TagsOf, Stage, Distance, Target, WellFormed,
         RoundIsDue;
    EvaluationGoesOn(base, o, w, c, v1, t1);
    EvaluationIsExpected(base, o, w, c, v1, t1);
    RestElects(base, o, w, c, v1);
    var d := WithEvaluated(base, w, c, v1, t1);
    if w.gone.Keys != {} {
      RestStartsEviction(base, o, w, c, v1, t1);
    } else {
      assert w.gone == map[];
      RestStartsConversion(base, o, w, c, v1, t1);
      if d.nodes[c].state == w.nodes[c].state && Exact(TagsOf(d), d.gone, v2) {
        EvaluationGoesOn(base, o, d, c, v2, t2);
        RestStartsConversion(base, o, d, c, v2, t2);
      }
    }
  }

  // --- Runs ---

  ghost predicate CanGo(base: Config, o: Origin, w: World, moves: seq<Move>) {
    moves != [] ==>
      && CanGo(base, o, w, moves[..|moves| - 1])
      && Goes(base, o, Course(base, w, moves[..|moves| - 1]), moves[|moves| - 1])
  }

  /** The conversions completed in a run. */
  function Conversions(base: Config, w: World, moves: seq<Move>): (k: nat) {
    if moves == [] then 0
    else
      Conversions(base, w, moves[..|moves| - 1])
      + if IsConversion(Course(base, w, moves[..|moves| - 1]), moves[|moves| - 1]) then 1 else 0
  }

  /** The eviction rounds completed in a run. */
  function Evictions(base: Config, w: World, moves: seq<Move>): (k: nat) {
    if moves == [] then 0
    else
      Evictions(base, w, moves[..|moves| - 1])
      + if IsEviction(Course(base, w, moves[..|moves| - 1]), moves[|moves| - 1]) then 1 else 0
  }

  /** The moves of a run that bring its end closer. */
  ghost function Advances(base: Config, o: Origin, w: World, moves: seq<Move>): (k: nat) {
    if moves == [] then 0
    else
      Advances(base, o, w, moves[..|moves| - 1])
      + if Remaining(o, Course(base, w, moves)) < Remaining(o, Course(base, w, moves[..|moves| - 1])) then 1 else 0
  }

  /** The rounds a run abandoned, and the orders it lost. */
  function Setbacks(base: Config, w: World, moves: seq<Move>): (k: nat) {
    if moves == [] then 0
    else
      Setbacks(base, w, moves[..|moves| - 1])
      + if IsSetback(Course(base, w, moves[..|moves| - 1]), moves[|moves| - 1]) then 1 else 0
  }

  lemma {:induction false} RunsGoOn(base: Config, o: Origin, w: World, moves: seq<Move>)
    requires base.rescaleEnabled && base.localIP != "" && WellFormed(o) && Begins(base, o, w)
               && CanGo(base, o, w, moves)
    ensures var d := Course(base, w, moves);
            && OnCourse(base, o, d)
            && Conversions(base, w, moves) + Distance(|ServersOf(d)|, Target(o)) == Distance(|o.servers|, Target(o))
            && Evictions(base, w, moves) == (if d.gone.Keys == w.gone.Keys then 0 else 1)
            && (d.gone.Keys == w.gone.Keys || d.gone.Keys == {})
            && Advances(base, o, w, moves) + Remaining(o, d) <= Remaining(o, w) + 2 * Setbacks(base, w, moves)
  {
    hide Goes, After, OnCourse, Begins, ServersOf, Remaining, Distance, Target, WellFormed, IsConversion, IsEviction,
         IsSetback;
    if moves == [] {
      BeginningIsOnCourse(base, o, w);
      assert ServersOf(w) == o.servers by { BeginningServers(base, o, w); }
    } else {
      var before, last := moves[..|moves| - 1], moves[|moves| - 1];
      RunsGoOn(base, o, w, before);
      MovesGoOn(base, o, Course(base, w, before), last);
      assert w.gone.Keys == o.failed by { BeginningServers(base, o, w); }
    }
  }

  lemma {:induction false} BeginningServers(base: Config, o: Origin, w: World)
    requires WellFormed(o) && Begins(base, o, w)
    ensures ServersOf(w) == o.servers && w.gone.Keys == o.failed && Holders(w) == {} && w.orders == []
  {
    hide Sound;
    forall x | x in w.nodes ensures RunsServer(w.nodes[x]) <==> x in o.servers {
      UpMachines(ConfigOf(base, x), w.nodes[x]);
    }
    hide RunsServer;
    assert Holders(w) == {};
  }

  /**
   * From any stable cluster with some machines durably gone, over any run in which conversions succeed,
   * whatever rounds are abandoned, and however late, often or never orders arrive: the servers stay on
   * the one path from the original ones to the target, never none; no machine is lost; at most
   * 2 + 4 * |s - D| moves bring the end closer, and two more for each setback; a run that has come to
   * the target completed one eviction round if anyone was gone and exactly |s - D| conversions; and once
   * no machine is at work, each is stable in the role the path's end gives it.
   */
  lemma {:induction false} RescalingConverges(base: Config, o: Origin, w: World, moves: seq<Move>)
    requires base.rescaleEnabled && base.localIP != "" && WellFormed(o) && Begins(base, o, w)
               && CanGo(base, o, w, moves)
    ensures var d := Course(base, w, moves);
            && d.nodes.Keys == w.nodes.Keys && OnPath(o, ServersOf(d)) && Between(o, |ServersOf(d)|)
                 && |ServersOf(d)| >= 1
            && Advances(base, o, w, moves) + Remaining(o, d)
               <= (if o.failed != {} then 2 else 0) + 4 * Distance(|o.servers|, Target(o)) +
                 2 * Setbacks(base, w, moves)
            && Remaining(o, d) >= 0 && (Remaining(o, d) == 0 <==> AtTarget(o, d))
            && (AtTarget(o, d) ==>
                  && Evictions(base, w, moves) == (if o.failed != {} then 1 else 0)
                  && Conversions(base, w, moves) == Distance(|o.servers|, Target(o)))
            && (Arrived(o, d) ==>
                  forall x :: x in d.nodes ==>
                       d.nodes[x].state == if x in ServersOf(d) then StableServer else StableAgent)
  {
    hide Goes, Course, OnCourse, Begins, ServersOf, WellFormed, CanGo, OnPath, Stage;
    RunsGoOn(base, o, w, moves);
    var d := Course(base, w, moves);
    BeginningServers(base, o, w);
    AtRest(o, w);
    CourseFacts(base, o, d);
    BeginningIsOnCourse(base, o, w);
    CourseFacts(base, o, w);
    NothingLeft(base, o, d);
    TargetIsReachable(o);
    if Arrived(o, d) {
      RestIsQuiet(base, o, d);
      forall x | x in d.nodes ensures d.nodes[x].state == if x in ServersOf(d) then StableServer else StableAgent {
        assert TagsOf(d)[x] == d.nodes[x].state;
      }
    }
  }

  /** So all runs that come to the target have the same servers there. */
  lemma {:induction false} AllCoursesMeet(base: Config, o: Origin, w: World, a: seq<Move>, b: seq<Move>)
    requires base.rescaleEnabled && base.localIP != "" && WellFormed(o) && Begins(base, o, w)
    requires CanGo(base, o, w, a) && CanGo(base, o, w, b)
    requires AtTarget(o, Course(base, w, a)) && AtTarget(o, Course(base, w, b))
    ensures ServersOf(Course(base, w, a)) == ServersOf(Course(base, w, b))
  {
    hide Course, Begins, ServersOf, WellFormed, CanGo, OnPath;
    RescalingConverges(base, o, w, a);
    RescalingConverges(base, o, w, b);
    PathIsUnique(o, ServersOf(Course(base, w, a)), ServersOf(Course(base, w, b)));
  }
}

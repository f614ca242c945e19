/** A bootstrap in which nothing failed or stopped can always still be completed. */
module BootstrapProgress {
  import opened Names
  import opened Lifecycle
  import opened ClusterView
  import opened NodeStep
  import opened NodeRuns
  import opened BootstrapCluster
  import ViewLaws

  // --- A bootstrap that can go on ---

  predicate IsServing(s: State) { s == StableServer || s == RescaleCoordinating }

  predicate IsInstalling(s: State) {
    s == BootstrapInstallInit || s == BootstrapInstallServer || s == BootstrapInstallAgent
  }

  /** Before its installation, in it, or after it; and on the side its rank gives it. */
  ghost predicate OnTheWay(cohort: set<Name>, x: Name, n: Node) {
    && (|| n.state == Discovering || n.state == BootstrapConfirm || n.state == BootstrapWaiting
        || IsInstalling(n.state) || IsServing(n.state) || n.state == StableAgent)
    && (n.state == BootstrapInstallAgent || n.state == StableAgent ==> !ToBeServer(cohort, x))
  }

  /** No machine of the cohort stopped, failed, or went to join another cluster. */
  ghost predicate Healthy(cohort: set<Name>, base: Config, c: Cluster) {
    && cohort <= c.nodes.Keys && cohort !! c.stopped
    && forall x :: x in cohort ==>
         && Sound(ConfigOf(base, x), c.nodes[x]) && OnTheWay(cohort, x, c.nodes[x]) && Starting in c.nodes[x].published
  }

  ghost predicate IsDone(cohort: set<Name>, x: Name, n: Node) {
    if ToBeServer(cohort, x) then IsServing(n.state) else n.state == StableAgent
  }

  ghost function Undone(cohort: set<Name>, c: Cluster): (s: set<Name>) {
    set x | x in cohort && x in c.nodes && !IsDone(cohort, x, c.nodes[x])
  }

  // --- Views ---

  /** What a machine may see of the cohort: who was ever a stable server so, and the others as they started. */
  function TagFor(n: Node, current: bool): (tag: State) {
    if current && StableServer in n.published then StableServer else Starting
  }

  /** Every machine of the cohort, alive, once. */
  ghost predicate Shows(cohort: set<Name>, c: Cluster, current: bool, v: View) {
    && WellNamed(v)
    && (forall m :: m in v ==>
          m.name in cohort && m.name in c.nodes && m.status == Alive && m.tag == TagFor(c.nodes[m.name], current))
    && (forall x :: x in cohort ==> exists m :: m in v && m.name == x)
  }

  lemma {:induction false} ViewOf(names: set<Name>, cohort: set<Name>, c: Cluster, current: bool) returns (v: View)
    requires names <= cohort <= c.nodes.Keys && "" !in cohort
    ensures WellNamed(v)
    ensures forall m :: m in v ==>
              m.name in names && m.name in c.nodes && m.status == Alive && m.tag == TagFor(c.nodes[m.name], current)
    ensures forall x :: x in names ==> exists m :: m in v && m.name == x
  {
    hide TagFor;
    if names == {} {
      v := [];
    } else {
      var x :| x in names;
      var rest := ViewOf(names - {x}, cohort, c, current);
      var member := Member(x, "", Alive, TagFor(c.nodes[x], current));
      v := rest + [member];
      forall y | y in names ensures exists m :: m in v && m.name == y {
        if y == x {
          assert member in v;
        } else {
          assert y in names - {x};
          var m :| m in rest && m.name == y;
          assert m in v;
        }
      }
    }
  }

  lemma {:induction false} SomeView(cohort: set<Name>, base: Config, c: Cluster, current: bool) returns (v: View)
    requires Healthy(cohort, base, c)
    ensures Shows(cohort, c, current, v) && Plausible(c, v) && SameList(cohort, v)
  {
    forall x | x in cohort ensures x != "" {
      assert Sound(ConfigOf(base, x), c.nodes[x]);
    }
    hide Sound, OnTheWay;
    v := ViewOf(cohort, cohort, c, current);
    ShownIsPlausible(cohort, base, c, current, v);
  }

  lemma {:induction false} ShownIsPlausible(cohort: set<Name>, base: Config, c: Cluster, current: bool, v: View)
    requires Healthy(cohort, base, c) && Shows(cohort, c, current, v)
    ensures Plausible(c, v) && SameList(cohort, v)
  {
    hide Sound, OnTheWay;
    ViewLaws.NamesAreListedOnce(v, IsAlive);
    forall x ensures x in AliveNames(v) <==> x in cohort {
      if x in cohort {
        var m :| m in v && m.name == x;
        assert x in ViewLaws.Those(v, IsAlive);
      }
    }
  }

  /** In a stale view nobody is in the cluster. */
  lemma {:induction false} StaleShowsNobody(cohort: set<Name>, c: Cluster, v: View)
    requires Shows(cohort, c, false, v)
    ensures Lowest(v, StableServer).name == "" && !ExistingClusterSeen(v)
  {
    ViewLaws.LowestIsLeast(v, StableServer);
  }

  /** In a current one the stable servers are those that have ever been. */
  lemma {:induction false} FreshShowsServers(cohort: set<Name>, c: Cluster, v: View, some: set<Name>)
    requires Shows(cohort, c, true, v) && some <= cohort && some <= Ever(c)
    ensures StableServerCount(v) >= |some|
    ensures some != {} ==> Lowest(v, StableServer).name != "" && Lowest(v, StableServer).name in cohort
  {
    ViewLaws.CountIsSize(v, IsStableServer);
    forall x | x in some ensures x in ViewLaws.Those(v, IsStableServer) {
      var m :| m in v && m.name == x;
      assert IsStableServer(m);
    }
    SubsetSize(some, ViewLaws.Those(v, IsStableServer));
    ViewLaws.LowestIsLeast(v, StableServer);
    if x :| x in some {
      var m :| m in v && m.name == x;
      assert Matches(m, StableServer);
    }
  }

  // --- One machine at a time ---

  /** Exactly as many machines are to be servers as the target says. */
  lemma {:induction false} AsManyServers(cohort: set<Name>, v: View)
    requires WellNamed(v) && SameList(cohort, v)
    ensures |set y | y in cohort && ToBeServer(cohort, y)| == ServerTarget(|cohort|)
  {
    var names := AliveNames(v);
    ViewLaws.NamesAreListedOnce(v, IsAlive);
    LowestNamesBecomeServers(names);
    forall y | y in cohort ensures y in ServersAmong(names) <==> ToBeServer(cohort, y) {
      RankIsBefore(cohort, v, y);
    }
    assert |names| == |cohort| by { RankIsBefore(cohort, v, ""); }
    assert (set y | y in cohort && ToBeServer(cohort, y)) == ServersAmong(names);
  }

  /** The first of the undone: everyone before it is done. */
  ghost predicate IsFirst(cohort: set<Name>, c: Cluster, x: Name) {
    x in Undone(cohort, c) && forall y :: y in cohort && y in c.nodes && Less(y, x) ==> IsDone(cohort, y, c.nodes[y])
  }

  lemma {:induction false} BeforeServers(cohort: set<Name>, x: Name, y: Name)
    requires ToBeServer(cohort, x) && y in cohort && Less(y, x)
    ensures ToBeServer(cohort, y)
  {
    forall z | z in Before(cohort, y) ensures z in Before(cohort, x) {
      LessIsTransitive(z, y, x);
    }
    SubsetSize(Before(cohort, y), Before(cohort, x));
  }

  /** A machine that is done and to be a server has been one. */
  lemma {:induction false} DoneServersWere(cohort: set<Name>, c: Cluster, y: Name)
    requires InRankOrder(cohort, c) && y in c.nodes && ToBeServer(cohort, y) && IsDone(cohort, y, c.nodes[y])
    ensures y in Ever(c)
  {
    hide ToBeServer, RankedOk, Calm;
    assert NodeOk(cohort, c, y);
  }

  lemma {:induction false} ServersBeforeAgents(cohort: set<Name>, x: Name, y: Name)
    requires x in cohort && !ToBeServer(cohort, x) && ToBeServer(cohort, y)
    ensures Less(y, x)
  {
    LessIsTotal(x, y);
    if Less(x, y) {
      BeforeServers(cohort, y, x);
    }
  }

  /** The machines the first of the undone waits for have all been stable servers. */
  lemma {:induction false} PredecessorsWere(cohort: set<Name>, base: Config, c: Cluster, x: Name)
    requires InRankOrder(cohort, c) && Healthy(cohort, base, c) && IsFirst(cohort, c, x)
    ensures ToBeServer(cohort, x) ==> Before(cohort, x) <= Ever(c)
    ensures !ToBeServer(cohort, x) ==> (set y | y in cohort && ToBeServer(cohort, y)) <= Ever(c)
  {
    hide ToBeServer, NodeOk, Sound, OnTheWay, IsDone;
    if ToBeServer(cohort, x) {
      forall y | y in Before(cohort, x) ensures y in Ever(c) {
        BeforeServers(cohort, x, y);
        DoneServersWere(cohort, c, y);
      }
    } else {
      forall y | y in cohort && ToBeServer(cohort, y) ensures y in Ever(c) {
        ServersBeforeAgents(cohort, x, y);
        DoneServersWere(cohort, c, y);
      }
    }
  }

  // --- Its moves ---

  /** How far a machine is from its place. */
  function Steps(s: State): (k: nat) {
    if s == Discovering || s == BootstrapConfirm then 3
    else if s == BootstrapWaiting then 2
    else if IsInstalling(s) then 1
    else 0
  }

  lemma {:induction false} IsAsked(cfg: Config, n: Node, env: Env)
    requires n.state == Discovering || n.state == BootstrapConfirm
    ensures Step(cfg, n, UserEventReceived(BootstrapRequested), env).state == BootstrapWaiting
  {}

  /** The rank a machine of the cohort has, as the start signal leaves it. */
  ghost predicate IsRanked(cohort: set<Name>, x: Name, n: Node, w: View) {
    && n.bootstrap.rank == |Before(cohort, x)| && n.bootstrap.total == |cohort|
    && n.bootstrap.role == RoleForRank(n.bootstrap.rank, n.bootstrap.total) && n.bootstrap.members == AliveNames(w)
  }

  lemma {:induction false} StartsUnseen(cfg: Config, n: Node, env: Env)
    requires n.state == BootstrapWaiting && RankOf(AliveNames(env.view), cfg.name) >= 0
    requires Lowest(env.view, StableServer).name == "" && !ExistingClusterSeen(env.view)
    ensures var m := Step(cfg, n, UserEventReceived(BootstrapStart), env);
            var names := AliveNames(env.view);
            var rank := RankOf(names, cfg.name);
            if rank == 0 then m.state == BootstrapInstallInit
            else
              m.state == BootstrapWaiting
              && m.bootstrap == Bootstrap(false, RoleForRank(rank, |names|), rank, |names|, names)
  {
    hide Lowest, ExistingClusterSeen, RankOf, AliveNames, StableServerCount, RoleForRank, ServerTarget;
  }

  /**
   * The start signal, seen as if nobody were in the cluster yet: the first machine installs, the others know
   * their rank.
   */
  lemma {:induction false} Starts(cohort: set<Name>, base: Config, c: Cluster, x: Name, env: Env)
    requires Healthy(cohort, base, c) && x in cohort && c.nodes[x].state == BootstrapWaiting
    requires Shows(cohort, c, false, env.view) && SameList(cohort, env.view)
    ensures var m := Step(ConfigOf(base, x), c.nodes[x], UserEventReceived(BootstrapStart), env);
            if Before(cohort, x) == {} then m.state == BootstrapInstallInit
            else m.state == BootstrapWaiting && IsRanked(cohort, x, m, env.view)
  {
    var v := env.view;
    assert WellNamed(v);
    hide Step, Healthy, SameList, Lowest, ExistingClusterSeen, RankOf, AliveNames, RoleForRank, Before, Shows,
         WellNamed;
    RankIsBefore(cohort, v, x);
    StaleShowsNobody(cohort, c, v);
    assert |Before(cohort, x)| == 0 <==> Before(cohort, x) == {};
    StartsUnseen(ConfigOf(base, x), c.nodes[x], env);
  }

  /** It sees the servers it waits for, and starts its installation. */
  lemma {:induction false} Installs(cfg: Config, n: Node, v: View, now: Time)
    requires !cfg.rescaleEnabled && n.state == BootstrapWaiting
    requires Lowest(v, StableServer).name != "" && Lowest(v, StableServer).name in n.bootstrap.members
    requires n.bootstrap.role == Server ==> StableServerCount(v) >= n.bootstrap.rank
    requires n.bootstrap.role != Server ==>
               n.bootstrap.role == Agent && StableServerCount(v) >= ServerTarget(n.bootstrap.total)
    ensures OnMembershipChange(cfg, n, v, now).state ==
            if n.bootstrap.role == Server then BootstrapInstallServer else BootstrapInstallAgent
  {
    hide Lowest, StableServerCount, ServerTarget;
  }

  lemma {:induction false} Completes(cfg: Config, n: Node, env: Env)
    requires Sound(cfg, n) && IsInstalling(n.state)
    ensures Possible(n, OperationEnded(0, true))
    ensures Step(cfg, n, OperationEnded(0, true), env).state ==
            if n.state == BootstrapInstallAgent then StableAgent else StableServer
  {}

  /** A turn this machine can take, and that keeps it on its way. */
  ghost predicate CanTake(cohort: set<Name>, base: Config, c: Cluster, x: Name, e: Event, env: Env) {
    && x in cohort && x in c.nodes && CanTurn(cohort, c, x, e, env) && GoodEnv(env) && Possible(c.nodes[x], e)
    && !(e.UserEventReceived? && e.event.RescaleConvert?) && c.nodes[x].state != JoiningCleanup
    && OnTheWay(cohort, x, Step(ConfigOf(base, x), c.nodes[x], e, env))
  }

  lemma {:induction false} TakerIsHealthy(cohort: set<Name>, base: Config, c: Cluster, x: Name, e: Event, env: Env)
    requires !base.rescaleEnabled && InRankOrder(cohort, c) && Healthy(cohort, base, c)
               && CanTake(cohort, base, c, x, e, env)
    ensures var m := Step(ConfigOf(base, x), c.nodes[x], e, env);
            Sound(ConfigOf(base, x), m) && OnTheWay(cohort, x, m) && Starting in m.published
  {
    var cfg, n := ConfigOf(base, x), c.nodes[x];
    assert Calm(n) by { InOrderIsCalm(cohort, c, x); }
    assert Sound(cfg, n) && Starting in n.published;
    assert !EarlyConfirmation(cfg, n, e);
    hide Step, Sound, OnTheWay, InRankOrder, Healthy, Calm, Effects, Plausible, SameList, Possible, EarlyConfirmation;
    TurnIsSound(cfg, n, e, env);
    TurnEffects(cfg, n, e, env);
    GrowingLog(cfg, n, e, env);
    Kept(n, Step(cfg, n, e, env), Starting);
  }

  /** It leaves the cluster in rank order, and the others as they are. */
  lemma {:induction false} MoveIsHealthy(cohort: set<Name>, base: Config, c: Cluster, x: Name, e: Event, env: Env)
    requires !base.rescaleEnabled && InRankOrder(cohort, c) && Healthy(cohort, base, c)
               && CanTake(cohort, base, c, x, e, env)
    ensures var d := After(base, c, Turns(x, e, env));
            && CanMove(cohort, c, Turns(x, e, env)) && InRankOrder(cohort, d) && Healthy(cohort, base, d)
            && x in c.nodes && d == c.(nodes := c.nodes[x := Step(ConfigOf(base, x), c.nodes[x], e, env)])
  {
    TakerIsHealthy(cohort, base, c, x, e, env);
    hide Step, Sound, OnTheWay, InRankOrder, Plausible, SameList, Possible, CanTurn;
    MovesKeepRankOrder(cohort, base, c, Turns(x, e, env));
    hide GoodEnv;
    OthersStayHealthy(cohort, base, c, After(base, c, Turns(x, e, env)), x);
  }

  lemma {:induction false} OthersStayHealthy(cohort: set<Name>, base: Config, c: Cluster, d: Cluster, x: Name)
    requires Healthy(cohort, base, c) && x in c.nodes && x in d.nodes && d == c.(nodes := c.nodes[x := d.nodes[x]])
    requires Sound(ConfigOf(base, x), d.nodes[x]) && OnTheWay(cohort, x, d.nodes[x]) && Starting in d.nodes[x].published
    ensures Healthy(cohort, base, d)
  {
    hide Sound, OnTheWay;
  }

  /** The turn only concerns this machine. */
  lemma {:induction false} OnlyThisOne(cohort: set<Name>, c: Cluster, d: Cluster, x: Name)
    requires x in c.nodes && x in d.nodes && d == c.(nodes := c.nodes[x := d.nodes[x]]) && IsFirst(cohort, c, x)
    ensures if IsDone(cohort, x, d.nodes[x]) then Undone(cohort, d) == Undone(cohort, c) - {x}
              else IsFirst(cohort, d, x)
    ensures !IsDone(cohort, x, d.nodes[x]) ==> Undone(cohort, d) == Undone(cohort, c)
  {
    hide IsDone;
    LessIsAsymmetric(x, x);
  }

  // --- Runs ---

  ghost predicate IsCourse(cohort: set<Name>, base: Config, c: Cluster, moves: seq<Move>) {
    && CanCourse(cohort, base, c, moves)
    && InRankOrder(cohort, Course(base, c, moves)) && Healthy(cohort, base, Course(base, c, moves))
  }

  lemma {:induction false} OneMore(cohort: set<Name>, base: Config, c: Cluster, moves: seq<Move>, move: Move)
    requires CanCourse(cohort, base, c, moves) && CanMove(cohort, Course(base, c, moves), move)
    ensures CanCourse(cohort, base, c, moves + [move])
    ensures Course(base, c, moves + [move]) == After(base, Course(base, c, moves), move)
  {
    hide CanMove, After;
    assert (moves + [move])[..|moves|] == moves;
  }

  /** One more turn of x that keeps it on its way. */
  lemma {:induction false} Takes(cohort: set<Name>, base: Config, c: Cluster, moves: seq<Move>, x: Name, e: Event,
      env: Env)
    returns (more: seq<Move>)
    requires !base.rescaleEnabled && IsCourse(cohort, base, c, moves) && IsFirst(cohort, Course(base, c, moves), x)
    requires CanTake(cohort, base, Course(base, c, moves), x, e, env)
    ensures moves <= more && IsCourse(cohort, base, c, more)
    ensures var k, d := Course(base, c, moves), Course(base, c, more);
            && x in k.nodes && x in d.nodes && d.nodes[x] == Step(ConfigOf(base, x), k.nodes[x], e, env)
            && (if IsDone(cohort, x, d.nodes[x]) then Undone(cohort, d) == Undone(cohort, k) - {x}
                else IsFirst(cohort, d, x) && Undone(cohort, d) == Undone(cohort, k))
  {
    hide Step, CanTake, Course, CanCourse, After, CanMove, InRankOrder, Healthy, IsFirst, Undone, IsDone;
    var k := Course(base, c, moves);
    MoveIsHealthy(cohort, base, k, x, e, env);
    OneMore(cohort, base, c, moves, Turns(x, e, env));
    more := moves + [Turns(x, e, env)];
    OnlyThisOne(cohort, k, Course(base, c, more), x);
  }

  /** What the first of the undone is like. */
  lemma {:induction false} FirstFacts(cohort: set<Name>, base: Config, c: Cluster, x: Name)
    requires Healthy(cohort, base, c) && IsFirst(cohort, c, x)
    ensures x in cohort && x in c.nodes && x !in c.stopped && OnTheWay(cohort, x, c.nodes[x])
    ensures !IsDone(cohort, x, c.nodes[x]) && Sound(ConfigOf(base, x), c.nodes[x])
  {
    hide OnTheWay, IsDone, Sound;
  }

  /** Anything may be seen by a machine that looks at nobody. */
  lemma {:induction false} NobodyIsPlausible(c: Cluster)
    ensures Plausible(c, []) && WellNamed([])
  {}

  lemma {:induction false} SeesItsServers(cohort: set<Name>, base: Config, c: Cluster, x: Name, v: View)
    requires InRankOrder(cohort, c) && Healthy(cohort, base, c) && IsFirst(cohort, c, x)
    requires ToBeServer(cohort, x) && Before(cohort, x) != {} && Shows(cohort, c, true, v)
    ensures StableServerCount(v) >= |Before(cohort, x)|
    ensures Lowest(v, StableServer).name != "" && Lowest(v, StableServer).name in cohort
  {
    hide Healthy, IsFirst, InRankOrder, Shows, Lowest, StableServerCount, ToBeServer;
    PredecessorsWere(cohort, base, c, x);
    FreshShowsServers(cohort, c, v, Before(cohort, x));
  }

  lemma {:induction false} SeesAllServers(cohort: set<Name>, base: Config, c: Cluster, x: Name, w: View, v: View)
    requires InRankOrder(cohort, c) && Healthy(cohort, base, c) && IsFirst(cohort, c, x)
    requires x in cohort && !ToBeServer(cohort, x) && Shows(cohort, c, true, v) && WellNamed(w) && SameList(cohort, w)
    ensures StableServerCount(v) >= ServerTarget(|cohort|)
    ensures Lowest(v, StableServer).name != "" && Lowest(v, StableServer).name in cohort
  {
    hide Healthy, IsFirst, InRankOrder, Shows, Lowest, StableServerCount, ToBeServer, WellNamed, SameList;
    PredecessorsWere(cohort, base, c, x);
    var servers := set y | y in cohort && ToBeServer(cohort, y);
    AsManyServers(cohort, w);
    assert |cohort| >= 1 by { SubsetSize({x}, cohort); }
    assert servers != {};
    FreshShowsServers(cohort, c, v, servers);
  }

  lemma {:induction false} RankGivesRole(cohort: set<Name>, x: Name, n: Node, w: View)
    requires x in cohort && IsRanked(cohort, x, n, w)
    ensures n.bootstrap.role == if ToBeServer(cohort, x) then Server else Agent
  {
    hide ServerTarget, AliveNames, Before;
  }

  /** A ranked machine that all its predecessors precede can install. */
  lemma {:induction false} CanInstall(cohort: set<Name>, base: Config, c: Cluster, x: Name, w: View, v: View)
    requires !base.rescaleEnabled && InRankOrder(cohort, c) && Healthy(cohort, base, c) && IsFirst(cohort, c, x)
    requires Before(cohort, x) != {} && Shows(cohort, c, true, v) && WellNamed(w) && SameList(cohort, w)
    requires x in cohort && x in c.nodes && c.nodes[x].state == BootstrapWaiting && IsRanked(cohort, x, c.nodes[x], w)
    ensures OnMembershipChange(ConfigOf(base, x), c.nodes[x], v, 1).state ==
            if ToBeServer(cohort, x) then BootstrapInstallServer else BootstrapInstallAgent
  {
    RankGivesRole(cohort, x, c.nodes[x], w);
    hide Healthy, IsFirst, InRankOrder, Shows, Lowest, StableServerCount, AliveNames, OnMembershipChange, ToBeServer,
         Before, ServerTarget, RoleForRank, WellNamed;
    if ToBeServer(cohort, x) {
      SeesItsServers(cohort, base, c, x, v);
    } else {
      SeesAllServers(cohort, base, c, x, w, v);
    }
    Installs(ConfigOf(base, x), c.nodes[x], v, 1);
  }

  // --- The turns it takes ---

  lemma {:induction false} TakesIt(cohort: set<Name>, base: Config, c: Cluster, x: Name, e: Event, env: Env)
    requires x in cohort && x in c.nodes && x !in c.stopped && Plausible(c, env.view) && env.now > NO_TIME
    requires e == UserEventReceived(BootstrapStart) ==> SameList(cohort, env.view)
    requires !(e.UserEventReceived? && e.event.RescaleConvert?) && Possible(c.nodes[x], e)
    requires c.nodes[x].state != JoiningCleanup && OnTheWay(cohort, x, Step(ConfigOf(base, x), c.nodes[x], e, env))
    ensures CanTake(cohort, base, c, x, e, env)
  {
    assert WellNamed(env.view);
    hide Step, OnTheWay, SameList, Possible, WellNamed, Plausible;
  }

  /** A machine in an installation of its own side, or on the way to one, is on its way. */
  lemma {:induction false} StaysOnTheWay(cohort: set<Name>, x: Name, m: Node)
    requires || m.state == BootstrapWaiting || (m.state == BootstrapInstallAgent && !ToBeServer(cohort, x))
             || m.state == BootstrapInstallInit || m.state == BootstrapInstallServer
             || (m.state == StableAgent && !ToBeServer(cohort, x)) || m.state == StableServer
    ensures OnTheWay(cohort, x, m)
  {
    hide ToBeServer;
  }

  /** Where the first of the undone is, in a cluster whose bootstrap can go on. */
  ghost predicate IsAt(cohort: set<Name>, base: Config, c: Cluster, x: Name, s: State) {
    && InRankOrder(cohort, c) && Healthy(cohort, base, c) && IsFirst(cohort, c, x)
    && x in c.nodes && c.nodes[x].state == s
  }

  lemma {:induction false} CanBeAsked(cohort: set<Name>, base: Config, c: Cluster, x: Name, s: State)
    requires IsAt(cohort, base, c, x, s) && Steps(s) == 3
    ensures var e, env := UserEventReceived(BootstrapRequested), Env(1, [], true, {});
            CanTake(cohort, base, c, x, e, env) && Step(ConfigOf(base, x), c.nodes[x], e, env).state == BootstrapWaiting
  {
    hide InRankOrder, Healthy, IsFirst, Sound, Plausible, ToBeServer, CanTake, OnTheWay, IsDone, WellNamed, Step;
    var e, env := UserEventReceived(BootstrapRequested), Env(1, [], true, {});
    FirstFacts(cohort, base, c, x);
    NobodyIsPlausible(c);
    IsAsked(ConfigOf(base, x), c.nodes[x], env);
    StaysOnTheWay(cohort, x, Step(ConfigOf(base, x), c.nodes[x], e, env));
    TakesIt(cohort, base, c, x, e, env);
  }

  lemma {:induction false} CanStart(cohort: set<Name>, base: Config, c: Cluster, x: Name) returns (env: Env)
    requires IsAt(cohort, base, c, x, BootstrapWaiting)
    ensures CanTake(cohort, base, c, x, UserEventReceived(BootstrapStart), env)
    ensures WellNamed(env.view) && SameList(cohort, env.view)
    ensures var m := Step(ConfigOf(base, x), c.nodes[x], UserEventReceived(BootstrapStart), env);
            if Before(cohort, x) == {} then m.state == BootstrapInstallInit
            else m.state == BootstrapWaiting && IsRanked(cohort, x, m, env.view)
  {
    hide InRankOrder, Healthy, IsFirst, Sound, ToBeServer, CanTake, OnTheWay, IsDone, SameList, Before, IsRanked, Step;
    FirstFacts(cohort, base, c, x);
    var v := SomeView(cohort, base, c, false);
    assert WellNamed(v);
    hide Plausible, WellNamed, Shows;
    env := Env(1, v, true, {});
    Starts(cohort, base, c, x, env);
    StaysOnTheWay(cohort, x, Step(ConfigOf(base, x), c.nodes[x], UserEventReceived(BootstrapStart), env));
    TakesIt(cohort, base, c, x, UserEventReceived(BootstrapStart), env);
  }

  lemma {:induction false} MembershipStep(cfg: Config, n: Node, env: Env)
    ensures Step(cfg, n, MembershipChange, env) == OnMembershipChange(cfg, n, env.view, env.now)
  {
    hide OnMembershipChange;
  }

  lemma {:induction false} CanGoOn(cohort: set<Name>, base: Config, c: Cluster, x: Name, w: View) returns (env: Env)
    requires !base.rescaleEnabled && IsAt(cohort, base, c, x, BootstrapWaiting)
    requires Before(cohort, x) != {} && WellNamed(w) && SameList(cohort, w) && IsRanked(cohort, x, c.nodes[x], w)
    ensures CanTake(cohort, base, c, x, MembershipChange, env)
    ensures IsInstalling(Step(ConfigOf(base, x), c.nodes[x], MembershipChange, env).state)
  {
    hide InRankOrder, Healthy, IsFirst, Sound, ToBeServer, CanTake, OnTheWay, IsDone, SameList, Before, IsRanked, Step,
         OnMembershipChange, Plausible, WellNamed, Shows;
    FirstFacts(cohort, base, c, x);
    var v := SomeView(cohort, base, c, true);
    env := Env(1, v, true, {});
    CanInstall(cohort, base, c, x, w, v);
    MembershipStep(ConfigOf(base, x), c.nodes[x], env);
    StaysOnTheWay(cohort, x, Step(ConfigOf(base, x), c.nodes[x], MembershipChange, env));
    TakesIt(cohort, base, c, x, MembershipChange, env);
  }

  lemma {:induction false} CanComplete(cohort: set<Name>, base: Config, c: Cluster, x: Name, s: State)
    requires IsAt(cohort, base, c, x, s) && IsInstalling(s)
    ensures var e, env := OperationEnded(0, true), Env(1, [], true, {});
            CanTake(cohort, base, c, x, e, env) && IsDone(cohort, x, Step(ConfigOf(base, x), c.nodes[x], e, env))
  {
    hide InRankOrder, Healthy, IsFirst, Sound, Plausible, ToBeServer, CanTake, WellNamed, Step, Possible;
    var e, env := OperationEnded(0, true), Env(1, [], true, {});
    FirstFacts(cohort, base, c, x);
    NobodyIsPlausible(c);
    InstallersAreRanked(cohort, c, x);
    Completes(ConfigOf(base, x), c.nodes[x], env);
    TakesIt(cohort, base, c, x, e, env);
  }

  lemma {:induction false} InstallersAreRanked(cohort: set<Name>, c: Cluster, x: Name)
    requires InRankOrder(cohort, c) && x in c.nodes
    ensures c.nodes[x].state == BootstrapInstallInit || c.nodes[x].state == BootstrapInstallServer ==>
              ToBeServer(cohort, x)
  {
    hide ToBeServer, Calm, RankedOk;
    assert NodeOk(cohort, c, x);
  }

  /** The run has come to a cluster in which the first of the undone is there. */
  ghost predicate Comes(cohort: set<Name>, base: Config, c: Cluster, moves: seq<Move>, x: Name, s: State,
      left: set<Name>) {
    && IsCourse(cohort, base, c, moves) && IsAt(cohort, base, Course(base, c, moves), x, s)
    && Undone(cohort, Course(base, c, moves)) == left
  }

  /** A turn that leaves it undone. */
  lemma {:induction false} ComesOn(
    cohort: set<Name>, base: Config, c: Cluster, moves: seq<Move>, x: Name, s: State, left: set<Name>, e: Event,
      env: Env)
    returns (more: seq<Move>)
    requires !base.rescaleEnabled && Comes(cohort, base, c, moves, x, s, left)
    requires var k := Course(base, c, moves);
             CanTake(cohort, base, k, x, e, env) && x in k.nodes
             && Steps(Step(ConfigOf(base, x), k.nodes[x], e, env).state) > 0
    ensures moves <= more && x in Course(base, c, moves).nodes && x in Course(base, c, more).nodes
    ensures Course(base, c, more).nodes[x] == Step(ConfigOf(base, x), Course(base, c, moves).nodes[x], e, env)
    ensures Comes(cohort, base, c, more, x, Course(base, c, more).nodes[x].state, left)
  {
    hide Step, CanTake, Course, CanCourse, InRankOrder, Healthy, IsFirst, Undone, ToBeServer;
    more := Takes(cohort, base, c, moves, x, e, env);
  }

  lemma {:induction false} AskStep(
    cohort: set<Name>, base: Config, c: Cluster, moves: seq<Move>, x: Name, s: State, left: set<Name>)
    returns (more: seq<Move>)
    requires !base.rescaleEnabled && Comes(cohort, base, c, moves, x, s, left) && Steps(s) == 3
    ensures moves <= more && Comes(cohort, base, c, more, x, BootstrapWaiting, left)
  {
    hide Step, CanTake, Course, IsCourse, InRankOrder, Healthy, IsFirst, Undone;
    CanBeAsked(cohort, base, Course(base, c, moves), x, s);
    more := ComesOn(cohort, base, c, moves, x, s, left, UserEventReceived(BootstrapRequested), Env(1, [], true, {}));
  }

  lemma {:induction false} WaitStep(
    cohort: set<Name>, base: Config, c: Cluster, moves: seq<Move>, x: Name, left: set<Name>)
    returns (more: seq<Move>, s: State)
    requires !base.rescaleEnabled && Comes(cohort, base, c, moves, x, BootstrapWaiting, left)
    ensures moves <= more && Comes(cohort, base, c, more, x, s, left) && IsInstalling(s)
  {
    hide Step, CanTake, Course, IsCourse, InRankOrder, Healthy, IsFirst, Undone, Before, IsRanked, WellNamed, SameList;
    var env := CanStart(cohort, base, Course(base, c, moves), x);
    more := ComesOn(cohort, base, c, moves, x, BootstrapWaiting, left, UserEventReceived(BootstrapStart), env);
    if Before(cohort, x) != {} {
      var last := CanGoOn(cohort, base, Course(base, c, more), x, env.view);
      more := ComesOn(cohort, base, c, more, x, BootstrapWaiting, left, MembershipChange, last);
    }
    s := Course(base, c, more).nodes[x].state;
  }

  lemma {:induction false} CompleteStep(
    cohort: set<Name>, base: Config, c: Cluster, moves: seq<Move>, x: Name, s: State, left: set<Name>)
    returns (more: seq<Move>)
    requires !base.rescaleEnabled && Comes(cohort, base, c, moves, x, s, left) && IsInstalling(s)
    ensures moves <= more && IsCourse(cohort, base, c, more) && Undone(cohort, Course(base, c, more)) == left - {x}
  {
    hide Step, CanTake, Course, IsCourse, InRankOrder, Healthy, IsFirst, Undone, IsDone;
    CanComplete(cohort, base, Course(base, c, moves), x, s);
    more := Takes(cohort, base, c, moves, x, OperationEnded(0, true), Env(1, [], true, {}));
  }

  lemma {:induction false} UndoneHaveSteps(cohort: set<Name>, base: Config, c: Cluster, x: Name)
    requires InRankOrder(cohort, c) && Healthy(cohort, base, c) && IsFirst(cohort, c, x)
    ensures x in c.nodes && var s := c.nodes[x].state; Steps(s) == 3 || s == BootstrapWaiting || IsInstalling(s)
  {
    hide ToBeServer, Calm, RankedOk, Sound;
    FirstFacts(cohort, base, c, x);
    assert NodeOk(cohort, c, x);
  }

  /** The first of the undone comes to its place. */
  lemma {:induction false} FirstIsDone(cohort: set<Name>, base: Config, c: Cluster, moves: seq<Move>, x: Name)
    returns (more: seq<Move>)
    requires !base.rescaleEnabled && IsCourse(cohort, base, c, moves) && IsFirst(cohort, Course(base, c, moves), x)
    ensures moves <= more && IsCourse(cohort, base, c, more)
    ensures Undone(cohort, Course(base, c, more)) == Undone(cohort, Course(base, c, moves)) - {x}
  {
    hide Course, IsFirst, Undone, InRankOrder, Healthy, CanCourse;
    UndoneHaveSteps(cohort, base, Course(base, c, moves), x);
    var s, left := Course(base, c, moves).nodes[x].state, Undone(cohort, Course(base, c, moves));
    assert Comes(cohort, base, c, moves, x, s, left);
    hide IsCourse, Comes, IsAt;
    more := moves;
    if Steps(s) == 3 {
      more := AskStep(cohort, base, c, more, x, s, left);
      s := BootstrapWaiting;
    }
    if s == BootstrapWaiting {
      more, s := WaitStep(cohort, base, c, more, x, left);
    }
    more := CompleteStep(cohort, base, c, more, x, s, left);
  }

  lemma {:induction false} SomeoneIsFirst(cohort: set<Name>, c: Cluster) returns (x: Name)
    requires Undone(cohort, c) != {}
    ensures IsFirst(cohort, c, x) && x in Undone(cohort, c)
  {
    hide IsDone;
    x := Least(Undone(cohort, c));
    forall y | y in cohort && y in c.nodes && Less(y, x) ensures IsDone(cohort, y, c.nodes[y]) {
      LessIsAsymmetric(x, y);
    }
  }

  lemma {:induction false} AllCanBeDone(cohort: set<Name>, base: Config, c: Cluster, moves: seq<Move>)
    returns (all: seq<Move>)
    requires !base.rescaleEnabled && IsCourse(cohort, base, c, moves)
    ensures moves <= all && IsCourse(cohort, base, c, all) && Undone(cohort, Course(base, c, all)) == {}
    decreases |Undone(cohort, Course(base, c, moves))|
  {
    hide IsCourse, Course, Undone, IsFirst;
    all := moves;
    if Undone(cohort, Course(base, c, moves)) != {} {
      var x := SomeoneIsFirst(cohort, Course(base, c, moves));
      var more := FirstIsDone(cohort, base, c, moves, x);
      all := AllCanBeDone(cohort, base, c, more);
    }
  }

  lemma {:induction false} NobodyUndone(cohort: set<Name>, base: Config, c: Cluster)
    requires Healthy(cohort, base, c) && Undone(cohort, c) == {}
    ensures forall x :: x in cohort ==> x in c.nodes && IsDone(cohort, x, c.nodes[x])
  {
    hide IsDone, Sound, OnTheWay;
    forall x | x in cohort ensures IsDone(cohort, x, c.nodes[x]) {
      assert x !in Undone(cohort, c);
    }
  }

  /**
   * Wherever a bootstrap has come to: as long as no machine of the cohort stopped, failed, or joined as
   * an agent in a server's place, it can be continued until every machine that is to be a server is one
   * and every other one is a stable agent.
   */
  lemma {:induction false} EveryBootstrapCanComplete(cohort: set<Name>, base: Config, c: Cluster, moves: seq<Move>)
    returns (all: seq<Move>)
    requires !base.rescaleEnabled && AllDiscovering(base, c) && CanCourse(cohort, base, c, moves)
    requires Healthy(cohort, base, Course(base, c, moves))
    ensures moves <= all && CanCourse(cohort, base, c, all)
    ensures var d := Course(base, c, all);
            forall x :: x in cohort ==> x in d.nodes && IsDone(cohort, x, d.nodes[x])
  {
    hide Course, CanCourse, InRankOrder, Healthy, AllDiscovering, IsDone, Undone;
    CoursesAreInRankOrder(cohort, base, c, moves);
    all := AllCanBeDone(cohort, base, c, moves);
    NobodyUndone(cohort, base, Course(base, c, all));
  }
}

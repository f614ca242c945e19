/** Rescaling can always be brought to its end, from wherever a run has taken it. */
module RescaleProgress {
  import opened Names
  import opened Lifecycle
  import opened ClusterView
  import opened NodeStep
  import opened NodeRuns
  import opened RescaleTurn
  import opened RescaleConvergence

  // --- A beginning for every cluster ---

  function StableNode(x: Name, role: Role, failedSince: map<Name, Time>): (m: Node) {
    Node(StableState(role), NO_BOOTSTRAP, Joining(false, false, false, 0),
         Rescale(failedSince, NO_TIME, NO_TIME, NO_TIME, NO_ORDER, [], ""),
         Some(Persisted(x, role, 1, NO_TIME, NO_TIME)), [], [StableState(role)], [], [])
  }

  function Beginning(o: Origin): (d: World) {
    var failedSince := map y | y in o.failed :: NO_TIME;
    World(map x | x in o.servers + o.agents :: StableNode(x, if x in o.servers then Server else Agent, failedSince),
          map y | y in o.failed :: StableServer, [])
  }

  /** Any machines make a cluster for rescaling to begin with, once the failures have lasted the grace period. */
  lemma {:induction false} BeginningBegins(base: Config, o: Origin)
    requires "" !in o.servers + o.agents && base.grace <= o.now
    ensures Begins(base, o, Beginning(o))
  {
    var w := Beginning(o);
    assert w.nodes.Keys == o.servers + o.agents && w.gone.Keys == o.failed;
    forall x | x in w.nodes ensures Sound(ConfigOf(base, x), w.nodes[x]) {
    }
  }

  // --- A view for every cluster ---

  function MemberOf(tags: map<Name, State>, gone: map<Name, State>, x: Name): (m: Member)
    requires x in tags || x in gone
  {
    if x in tags then Member(x, "", Alive, tags[x]) else Member(x, "", Failed, gone[x])
  }

  lemma {:induction false} MembersFor(names: set<Name>, tags: map<Name, State>, gone: map<Name, State>)
    returns (v: View)
    requires "" !in names && names <= tags.Keys + gone.Keys
    ensures WellNamed(v)
    ensures forall m :: m in v ==> m.name in names && m == MemberOf(tags, gone, m.name)
    ensures forall x :: x in names ==> exists m :: m in v && m.name == x
  {
    if names == {} {
      v := [];
    } else {
      var x :| x in names;
      var rest := MembersFor(names - {x}, tags, gone);
      var member := MemberOf(tags, gone, x);
      v := rest + [member];
      forall y | y in names ensures exists m :: m in v && m.name == y {
        if y == x {
          assert member in v;
        } else {
          assert y in names - {x};
          var m :| m in rest && m.name == y;
          assert m in v;
        }
      }
    }
  }

  lemma {:induction false} ViewFor(tags: map<Name, State>, gone: map<Name, State>) returns (v: View)
    requires "" !in tags && "" !in gone
    ensures Exact(tags, gone, v)
  {
    v := MembersFor(tags.Keys + gone.Keys, tags, gone);
  }

  lemma {:induction false} NamesAreReal(base: Config, o: Origin, w: World)
    requires OnCourse(base, o, w) && "" !in o.failed
    ensures "" !in w.nodes && "" !in w.gone
  {
    hide TokenOk, RoundOk, RecordOk, JoinOk, OnPath, Between, IsNext, RoundIsDue;
    forall x | x in w.nodes ensures x != "" {
      assert MachineOk(base, o, w, x, w.nodes[x]);
    }
    assert "" !in w.gone.Keys;
  }

  // --- One more move ---

  lemma {:induction false} OneMore(base: Config, o: Origin, w: World, moves: seq<Move>, move: Move)
    requires CanGo(base, o, w, moves) && Goes(base, o, Course(base, w, moves), move)
    ensures CanGo(base, o, w, moves + [move])
    ensures Course(base, w, moves + [move]) == After(base, Course(base, w, moves), move)
  {
    hide Goes, After;
    assert (moves + [move])[..|moves|] == moves;
  }

  /** The order the cluster waits for can arrive. */
  lemma {:induction false} OrderCanArrive(base: Config, o: Origin, w: World) returns (i: nat, env: Env)
    requires HasNextOrder(o, w)
    ensures i < |w.orders| && IsNext(o, w, w.orders[i]) && GoodEnv(env) && Goes(base, o, w, Arrives(i, env))
  {
    hide IsNext;
    var order :| order in w.orders && IsNext(o, w, order);
    i :| 0 <= i < |w.orders| && w.orders[i] == order;
    env := Env(1, [], true, {});
  }

  /** A machine that holds the turn can end its operation. */
  lemma {:induction false} OperationCanEnd(base: Config, o: Origin, w: World, x: Name) returns (env: Env)
    requires OnCourse(base, o, w) && "" !in o.failed && x in Holders(w)
    ensures x in w.nodes && env.sendOk && Goes(base, o, w, Turns(x, OperationEnded(0, true), env))
  {
    HoldersArePending(base, o, w, x);
    NamesAreReal(base, o, w);
    hide OnCourse, Exact, Step, OnPath;
    var e := OperationEnded(0, true);
    var removable := set y | y in w.nodes[x].rescale.evicting;
    var now := o.now + 1;
    var gone := w.gone - Removed(w.nodes[x], e, Env(now, [], true, removable));
    var v := ViewFor(TagsOf(w)[x := StableServer], gone);
    env := Env(now, v, true, removable);
    assert Removed(w.nodes[x], e, env) == Removed(w.nodes[x], e, Env(now, [], true, removable));
  }

  /** Its end brings rescaling closer, or at least leaves one machine less at work. */
  lemma {:induction false} OperationBrings(base: Config, o: Origin, w: World, x: Name, env: Env)
    requires base.rescaleEnabled && base.localIP != "" && WellFormed(o) && OnCourse(base, o, w) && x in Holders(w)
    requires env.sendOk && Goes(base, o, w, Turns(x, OperationEnded(0, true), env))
    ensures var d := After(base, w, Turns(x, OperationEnded(0, true), env));
            || Remaining(o, d) < Remaining(o, w)
            || (Remaining(o, d) == Remaining(o, w) && |Holders(d)| < |Holders(w)|)
  {
    hide OnCourse, Exact, Step, Remaining, ServersOf, Goes, WellFormed;
    ExactViewsAreWellNamed(base, o, w, x, OperationEnded(0, true), env);
    ResultsAreNow(base, o, w, x, env);
    if w.nodes[x].state != RescaleCoordinating {
      ConversionGoesOn(base, o, w, x, env);
    } else if w.nodes[x].rescale.order.target == "" {
      EvictionMove(base, o, w, x, env);
    } else {
      OrderRoundGoesOn(base, o, w, x, env);
    }
  }

  lemma {:induction false} ResultsAreNow(base: Config, o: Origin, w: World, x: Name, env: Env)
    requires Goes(base, o, w, Turns(x, OperationEnded(0, true), env))
    ensures env.now > NO_TIME
  {}

  lemma {:induction false} EvaluationsGo(base: Config, o: Origin, w: World, c: Name, env: Env)
    requires c in w.nodes && w.nodes[c].rescale.evicting == []
    requires env.now >= o.now && env.now > NO_TIME && Exact(TagsOf(w), w.gone, env.view)
    ensures Goes(base, o, w, Turns(c, RescaleCheck, env))
  {
    hide Exact, After, TagsOf;
  }

  /** The coordinator can evaluate the cluster at any later instant. */
  lemma {:induction false} CanEvaluate(base: Config, o: Origin, w: World, c: Name, now: Time) returns (env: Env)
    requires OnCourse(base, o, w) && "" !in o.failed && c in w.nodes
    requires now >= o.now && now > NO_TIME && w.nodes[c].rescale.evicting == []
    ensures Goes(base, o, w, Turns(c, RescaleCheck, env)) && env.now == now && Exact(TagsOf(w), w.gone, env.view)
  {
    hide OnCourse, Exact, Goes;
    NamesAreReal(base, o, w);
    TagKeys(w);
    hide TagsOf;
    var v := ViewFor(TagsOf(w), w.gone);
    env := Env(now, v, true, {});
    EvaluationsGo(base, o, w, c, env);
  }

  /** At rest, the elected coordinator evicts nobody. */
  lemma {:induction false} RestedCoordinator(base: Config, o: Origin, w: World) returns (c: Name)
    requires OnCourse(base, o, w) && WellFormed(o) && Holders(w) == {}
    ensures c in w.nodes && c in ServersOf(w) && forall y :: y in ServersOf(w) && y != c ==> Less(c, y)
    ensures w.nodes[c].rescale.evicting == []
  {
    hide OnCourse, ServersOf, Sound, MachineOk, IsNext;
    c := Coordinator(base, o, w);
    MachineFacts(base, o, w, c);
    RestIsQuiet(base, o, w);
    assert TagsOf(w)[c] == w.nodes[c].state;
    UpMachines(ConfigOf(base, c), w.nodes[c]);
  }

  /** From rest, with work left, one or two evaluations bring rescaling closer to its end. */
  lemma {:induction false} RestCanEnd(base: Config, o: Origin, w: World, moves: seq<Move>) returns (more: seq<Move>)
    requires base.rescaleEnabled && base.localIP != "" && WellFormed(o) && "" !in o.failed
    requires Begins(base, o, w) && CanGo(base, o, w, moves)
    requires var d := Course(base, w, moves); Holders(d) == {} && !HasNextOrder(o, d) && !AtTarget(o, d)
    ensures moves <= more && CanGo(base, o, w, more)
    ensures Remaining(o, Course(base, w, more)) < Remaining(o, Course(base, w, moves))
  {
    hide OnCourse, Begins, CanGo, Course, Goes, After, AtTarget, HasNextOrder, Remaining, Holders, Exact, ServersOf,
         WellFormed,
         MaybeRescale, TagsOf, Step;
    var d := Course(base, w, moves);
    RunsGoOn(base, o, w, moves);
    var c := RestedCoordinator(base, o, d);
    var t1 := o.now + d.nodes[c].rescale.imbalanceSince + d.nodes[c].rescale.retryNotBefore + 1;
    var first := CanEvaluate(base, o, d, c, t1);
    OneMore(base, o, w, moves, Turns(c, RescaleCheck, first));
    EvaluationMove(base, o, d, c, RescaleCheck, first);
    var k := WithEvaluated(base, d, c, first.view, t1);
    more := moves + [Turns(c, RescaleCheck, first)];
    if Remaining(o, k) >= Remaining(o, d) {
      EvaluationGoesOn(base, o, d, c, first.view, t1);
      EvaluationKeepsRest(base, o, d, c, first.view, t1);
      var second := CanEvaluate(base, o, k, c, t1 + base.settle);
      OneMore(base, o, w, more, Turns(c, RescaleCheck, second));
      EvaluationMove(base, o, k, c, RescaleCheck, second);
      TwoEvaluationsSuffice(base, o, d, c, first.view, t1, second.view, t1 + base.settle);
      more := more + [Turns(c, RescaleCheck, second)];
    }
  }

  /** An evaluation that brings nothing leaves its machine without anybody to evict. */
  lemma {:induction false} EvaluationKeepsRest(base: Config, o: Origin, w: World, c: Name, v: View, now: Time)
    requires base.rescaleEnabled && base.localIP != "" && OnCourse(base, o, w) && WellFormed(o) && c in w.nodes
               && o.now <= now
    requires Exact(TagsOf(w), w.gone, v) && !HasNextOrder(o, w) && w.nodes[c].rescale.evicting == []
    requires Remaining(o, WithEvaluated(base, w, c, v, now)) >= Remaining(o, w)
    ensures WithEvaluated(base, w, c, v, now).nodes[c].rescale.evicting == []
  {
    hide OnCourse, Exact, MaybeRescale, Remaining, TagsOf, WellFormed, RoundIsDue, Holders, HasNextOrder,
         IsLowestServer;
    EvaluationGoesOn(base, o, w, c, v, now);
    EvaluationIsExpected(base, o, w, c, v, now);
  }

  /** One step closer: an order, an operation, or evaluations. */
  lemma {:induction false} CanComeCloser(base: Config, o: Origin, w: World, moves: seq<Move>) returns (more: seq<Move>)
    requires base.rescaleEnabled && base.localIP != "" && WellFormed(o) && "" !in o.failed
    requires Begins(base, o, w) && CanGo(base, o, w, moves) && !Arrived(o, Course(base, w, moves))
    ensures moves <= more && CanGo(base, o, w, more)
    ensures var d, k := Course(base, w, moves), Course(base, w, more);
            || Remaining(o, k) < Remaining(o, d)
            || (Remaining(o, k) == Remaining(o, d) && |Holders(k)| < |Holders(d)|)
  {
    hide OnCourse, Begins, CanGo, Course, Goes, After, HasNextOrder, AtTarget, Remaining, ServersOf, WellFormed;
    var d := Course(base, w, moves);
    RunsGoOn(base, o, w, moves);
    if x :| x in Holders(d) {
      var env := OperationCanEnd(base, o, d, x);
      OperationBrings(base, o, d, x, env);
      OneMore(base, o, w, moves, Turns(x, OperationEnded(0, true), env));
      more := moves + [Turns(x, OperationEnded(0, true), env)];
    } else if HasNextOrder(o, d) {
      var i, env := OrderCanArrive(base, o, d);
      NobodyHolding(o, d);
      ArrivalGoesOn(base, o, d, i, env);
      OneMore(base, o, w, moves, Arrives(i, env));
      more := moves + [Arrives(i, env)];
    } else {
      more := RestCanEnd(base, o, w, moves);
    }
  }

  /** Wherever a run has come to, it can be continued to the end. */
  lemma {:induction false} EveryRunCanArrive(base: Config, o: Origin, w: World, moves: seq<Move>)
    returns (all: seq<Move>)
    requires base.rescaleEnabled && base.localIP != "" && WellFormed(o) && "" !in o.failed
    requires Begins(base, o, w) && CanGo(base, o, w, moves)
    ensures moves <= all && CanGo(base, o, w, all) && Arrived(o, Course(base, w, all))
    decreases Remaining(o, Course(base, w, moves)), |Holders(Course(base, w, moves))|
  {
    hide OnCourse, Begins, CanGo, Course, Arrived, Remaining, ServersOf, WellFormed;
    all := moves;
    if !Arrived(o, Course(base, w, moves)) {
      var more := CanComeCloser(base, o, w, moves);
      RunsGoOn(base, o, w, more);
      NothingLeft(base, o, Course(base, w, more));
      RunsGoOn(base, o, w, moves);
      NothingLeft(base, o, Course(base, w, moves));
      all := EveryRunCanArrive(base, o, w, more);
    }
  }
}

/**
 * The settle delay of a machine that is demoted and promoted again: its imbalance clock runs on, so it
 * can start a conversion without having waited since it became a server.
 */
module Promotions {
  import opened Names
  import opened Lifecycle
  import opened ClusterView
  import opened NodeStep
  import opened NodeRuns
  import opened Clocks
  import opened Deadlines
  import ViewLaws

  // --- The clock through a change of role ---

  predicate IsChangingRole(s: State) {
    s == RescaleDemoting || s == StableAgent || s == RescalePromoting
  }

  /** Until the last turn, the machine is being demoted, an agent, or being promoted. */
  ghost predicate AwayFromServing(cfg: Config, n: Node, turns: seq<Turn>) {
    turns != [] ==>
      var before := turns[..|turns| - 1];
      AwayFromServing(cfg, n, before) && IsChangingRole(Run(cfg, n, before).state)
  }

  /** Observations that explain a clock. */
  function BeatsFor(since: Time): (beats: seq<Beat>)
    ensures Clock(beats) == since && Real(beats)
  {
    if since == NO_TIME then []
    else
      assert [Hit(since)][..0] == [];
      [Hit(since)]
  }

  lemma {:induction false} ChangingRoleIsUnmarked(cfg: Config, n: Node, e: Event, env: Env)
    requires IsChangingRole(n.state)
    ensures Marks(cfg, n, e, env) == []
  {
    NoMarksUnlessStable(cfg, n, env.view, env.now);
    hide EvaluationMarks;
  }

  lemma {:induction false} AwayIsUnmarked(cfg: Config, n: Node, turns: seq<Turn>)
    requires AwayFromServing(cfg, n, turns)
    ensures MarksOf(cfg, n, turns) == []
  {
    hide Marks, Step;
    if turns != [] {
      var before, last := turns[..|turns| - 1], turns[|turns| - 1];
      AwayIsUnmarked(cfg, n, before);
      ChangingRoleIsUnmarked(cfg, Run(cfg, n, before), last.event, last.env);
    }
  }

  /** What the clock showed when the demotion was accepted, it shows when the machine is a server again. */
  lemma {:induction false} ClockSurvivesRoleChange(cfg: Config, n: Node, order: Order, env: Env, turns: seq<Turn>)
    requires var a := Step(cfg, n, UserEventReceived(RescaleConvert(Some(order))), env);
             Legal(cfg, a, turns) && AwayFromServing(cfg, a, turns)
    ensures var a := Step(cfg, n, UserEventReceived(RescaleConvert(Some(order))), env);
            Run(cfg, a, turns).rescale.imbalanceSince == n.rescale.imbalanceSince
  {
    var a := Step(cfg, n, UserEventReceived(RescaleConvert(Some(order))), env);
    assert a.rescale.imbalanceSince == n.rescale.imbalanceSince;
    hide Step, Run, Clock, Legal, AwayFromServing;
    var beats := BeatsFor(a.rescale.imbalanceSince);
    AwayIsUnmarked(cfg, a, turns);
    ClockGoesOn(cfg, a, turns, beats);
    assert beats + [] == beats;
  }

  // --- The clock after that ---

  predicate NotBefore(beats: seq<Beat>, from: Time) {
    forall i :: 0 <= i < |beats| ==> beats[i].Hit? ==> beats[i].now >= from
  }

  lemma {:induction false} ClockRunsOn(since: Time, beats: seq<Beat>)
    requires since != NO_TIME && Miss !in beats
    ensures Clock(BeatsFor(since) + beats) == since
  {
    var all := BeatsFor(since) + beats;
    if beats == [] {
      assert all == BeatsFor(since);
    } else {
      var rest := beats[..|beats| - 1];
      assert all[..|all| - 1] == BeatsFor(since) + rest;
      assert beats[|beats| - 1] in beats;
      ClockRunsOn(since, rest);
    }
  }

  lemma {:induction false} ClockStartsAnew(since: Time, beats: seq<Beat>, from: Time)
    requires NotBefore(beats, from) && (since == NO_TIME || Miss in beats)
    ensures var clock := Clock(BeatsFor(since) + beats); clock == NO_TIME || clock >= from
  {
    var all := BeatsFor(since) + beats;
    if beats == [] {
      assert all == [];
    } else {
      var rest, last := beats[..|beats| - 1], beats[|beats| - 1];
      assert all[..|all| - 1] == BeatsFor(since) + rest;
      assert beats == rest + [last];
      if last.Hit? {
        ClockStartsAnew(since, rest, from);
      }
    }
  }

  lemma {:induction false} MarksAreNow(cfg: Config, n: Node, e: Event, env: Env)
    ensures NotBefore(Marks(cfg, n, e, env), env.now)
  {
    hide Compares, LosesTurn, MaybeRescale, K3sServerCount, DesiredServers, AfterRound;
  }

  lemma {:induction false} MarksAreInTime(cfg: Config, n: Node, turns: seq<Turn>, from: Time)
    requires forall i :: 0 <= i < |turns| ==> turns[i].env.now >= from
    ensures NotBefore(MarksOf(cfg, n, turns), from)
  {
    hide Marks, Step;
    if turns != [] {
      var before, last := turns[..|turns| - 1], turns[|turns| - 1];
      MarksAreInTime(cfg, n, before, from);
      MarksAreNow(cfg, Run(cfg, n, before), last.event, last.env);
    }
  }

  // --- When a fresh server converts without waiting ---

  /** The turn evaluates the cluster, finds it off target, and finds a machine to convert. */
  predicate FindsImbalance(cfg: Config, n: Node, e: Event, env: Env) {
    && (e.MembershipChange? || e.RescaleCheck? || EndsRound(n, e))
    && Compares(cfg, Evaluated(n, e, env), env.view, env.now)
    && K3sServerCount(env.view) != DesiredServers(env.view) && ChooseConversionTarget(cfg, env.view).Some?
  }

  lemma {:induction false} ConvertsExactly(cfg: Config, n: Node, v: View, now: Time)
    requires ValidConfig(cfg) && WellNamed(v) && now > NO_TIME && Compares(cfg, n, v, now)
    ensures StartsConversion(n, MaybeRescale(cfg, n, v, now)) <==>
              && K3sServerCount(v) != DesiredServers(v) && ChooseConversionTarget(cfg, v).Some?
              && n.rescale.imbalanceSince != NO_TIME && n.rescale.imbalanceSince + cfg.settle <= now
  {
    assert n.state == StableServer;
    ComparingMeansResizing(cfg, n, v, now);
    if ChooseConversionTarget(cfg, v).Some? {
      assert IsCoordinator(v, cfg.name);
      RefusalsAreExact(cfg, v);
      var (x, role) := ChooseConversionTarget(cfg, v).value;
      var t :| t in v && t.name == x;
      assert x != "";
    }
    hide MaybeRescale, Compares, K3sServerCount, DesiredServers, ChooseConversionTarget, NextEviction;
  }

  lemma {:induction false} EvaluationTurns(cfg: Config, n: Node, e: Event, env: Env)
    requires Sound(cfg, n) && (e.MembershipChange? || e.RescaleCheck? || EndsRound(n, e))
    requires Compares(cfg, Evaluated(n, e, env), env.view, env.now)
    ensures Step(cfg, n, e, env) == MaybeRescale(cfg, Evaluated(n, e, env), env.view, env.now)
    ensures Evaluated(n, e, env).rescale.imbalanceSince == n.rescale.imbalanceSince
    ensures var m := Step(cfg, n, e, env); StartsConversion(n, m) <==> StartsConversion(Evaluated(n, e, env), m)
  {
    if EndsRound(n, e) {
      EndOfRoundIsEvaluation(cfg, n, e, env);
      var a := AfterRound(Retire(n, e.which), env);
      assert |a.published| > |n.published|;
      MaybeRescaleEffect(cfg, a, env.view, env.now);
      hide MaybeRescale, AfterRound, Step;
    } else if e.MembershipChange? {
      InClusterOnlyRescales(cfg, n, env.view, env.now);
    }
  }

  /**
   * A server that was demoted and promoted again starts a conversion before the settle delay has passed
   * since its promotion if and only if the evaluation finds an imbalance it can act on, the imbalance
   * clock was already running when the demotion was accepted, long enough ago, and since the promotion
   * no evaluation cleared it (by losing the turn or at the target size), no round was abandoned, and no
   * other conversion was started.
   */
  lemma {:induction false} PromotedServersSkipTheDelay(
    cfg: Config, n: Node, order: Order, env: Env, away: seq<Turn>, back: seq<Turn>, last: Turn)
    requires ValidConfig(cfg) && Sound(cfg, n) && n.state == StableServer && AcceptsOrder(cfg, n, order) && GoodEnv(env)
    requires var a := Step(cfg, n, UserEventReceived(RescaleConvert(Some(order))), env);
             var p := Run(cfg, a, away);
             && Legal(cfg, a, away) && Timely(cfg, a, away) && AwayFromServing(cfg, a, away)
             && away != [] && p.state == StableServer
             && Legal(cfg, p, back) && Timely(cfg, p, back)
    requires var t := away[|away| - 1].env.now;
             && (forall i :: 0 <= i < |back| ==> back[i].env.now >= t) && t <= last.env.now < t + cfg.settle
    requires GoodEnv(last.env)
    ensures var a := Step(cfg, n, UserEventReceived(RescaleConvert(Some(order))), env);
            var p := Run(cfg, a, away);
            var mid := Run(cfg, p, back);
            StartsConversion(mid, Step(cfg, mid, last.event, last.env)) <==>
              && FindsImbalance(cfg, mid, last.event, last.env)
              && n.rescale.imbalanceSince != NO_TIME && n.rescale.imbalanceSince + cfg.settle <= last.env.now
              && Miss !in MarksOf(cfg, p, back)
  {
    var accept := UserEventReceived(RescaleConvert(Some(order)));
    var a := Step(cfg, n, accept, env);
    TurnIsSound(cfg, n, accept, env);
    hide Step, Run, Legal, Timely, Clock, Compares, Sound, MarksOf, BeatsFor, AcceptsOrder, FindsImbalance,
         StartsConversion;
    TimelyRunsAreSound(cfg, a, away);
    var p := Run(cfg, a, away);
    TimelyRunsAreSound(cfg, p, back);
    ClockSurvivesRoleChange(cfg, n, order, env, away);
    FreshServerConverts(cfg, p, back, last, away[|away| - 1].env.now);
  }

  /** The same, from the promotion on. */
  lemma {:induction false} FreshServerConverts(cfg: Config, p: Node, back: seq<Turn>, last: Turn, t: Time)
    requires ValidConfig(cfg) && Legal(cfg, p, back) && Sound(cfg, Run(cfg, p, back)) && GoodEnv(last.env)
    requires (forall i :: 0 <= i < |back| ==> back[i].env.now >= t) && t <= last.env.now < t + cfg.settle
    ensures var mid := Run(cfg, p, back);
            StartsConversion(mid, Step(cfg, mid, last.event, last.env)) <==>
              && FindsImbalance(cfg, mid, last.event, last.env)
              && p.rescale.imbalanceSince != NO_TIME && p.rescale.imbalanceSince + cfg.settle <= last.env.now
              && Miss !in MarksOf(cfg, p, back)
  {
    var mid, since, marks := Run(cfg, p, back), p.rescale.imbalanceSince, MarksOf(cfg, p, back);
    ClockGoesOn(cfg, p, back, BeatsFor(since));
    MarksAreInTime(cfg, p, back, t);
    if since != NO_TIME && Miss !in marks {
      ClockRunsOn(since, marks);
    } else {
      ClockStartsAnew(since, marks, t);
    }
    hide Step, Run, Legal, Clock, Sound, MarksOf, BeatsFor, Compares;
    TurnConverts(cfg, mid, last.event, last.env);
  }

  /** One turn starts a conversion exactly when it finds an imbalance and the clock has run long enough. */
  lemma {:induction false} TurnConverts(cfg: Config, n: Node, e: Event, env: Env)
    requires ValidConfig(cfg) && Sound(cfg, n) && GoodEnv(env)
    ensures StartsConversion(n, Step(cfg, n, e, env)) <==>
              && FindsImbalance(cfg, n, e, env)
              && n.rescale.imbalanceSince != NO_TIME && n.rescale.imbalanceSince + cfg.settle <= env.now
  {
    hide Step, Sound, Compares, MaybeRescale, StartsConversion, Evaluated, K3sServerCount, DesiredServers,
         ChooseConversionTarget;
    if StartsConversion(n, Step(cfg, n, e, env)) {
      ConversionsComeFromEvaluations(cfg, n, e, env);
      OnlyEvaluationsConvert(cfg, n, e, env);
    }
    if (e.MembershipChange? || e.RescaleCheck? || EndsRound(n, e))
      && Compares(cfg, Evaluated(n, e, env), env.view, env.now) {
      EvaluationTurns(cfg, n, e, env);
      ConvertsExactly(cfg, Evaluated(n, e, env), env.view, env.now);
    }
  }

  lemma {:induction false} OnlyEvaluationsConvert(cfg: Config, n: Node, e: Event, env: Env)
    requires StartsConversion(n, Step(cfg, n, e, env))
    ensures e.MembershipChange? || e.RescaleCheck? || EndsRound(n, e)
  {
    if !(e.MembershipChange? || e.RescaleCheck? || EndsRound(n, e)) {
      OtherTurnsStartNoConversion(cfg, n, e, env);
    }
  }

  // --- It does happen ---

  /** Seen by a server that is alone with two agents. */
  function AloneWithTwo(self: Name, x: Name, y: Name): (v: View) {
    [Member(self, "", Alive, StableServer), Member(x, "", Alive, StableAgent), Member(y, "", Alive, StableAgent)]
  }

  lemma {:induction false} AloneCounts(self: Name, x: Name, y: Name)
    ensures var v := AloneWithTwo(self, x, y);
            K3sServerCount(v) == 1 && Population(v) == 3 && FailedNames(v) == []
  {
    var v := AloneWithTwo(self, x, y);
    assert v[..2] == [v[0], v[1]] && v[..2][..1] == [v[0]] && v[..2][..1][..0] == [];
    assert Count(v[..2][..1], IsPopulation) == 1 && Count(v[..2], IsPopulation) == 2;
    assert Count(v[..2][..1], HoldsServerSlot) == 1 && Count(v[..2], HoldsServerSlot) == 1;
    assert NamesOf(v[..2][..1][..0], IsFailed) == [] && NamesOf(v[..2][..1], IsFailed) == [];
    assert NamesOf(v[..2], IsFailed) == [] && NamesOf(v, IsFailed) == [];
  }

  lemma {:induction false} AloneIsOffTarget(cfg: Config, x: Name, y: Name)
    requires cfg.name != "" && x != "" && y != "" && x != y && cfg.name != x && cfg.name != y
    ensures var v := AloneWithTwo(cfg.name, x, y);
            && WellNamed(v) && IsCoordinator(v, cfg.name) && !EtcdIsChanging(v) && FailedNames(v) == []
            && K3sServerCount(v) == 1 && DesiredServers(v) == 3 && ChooseConversionTarget(cfg, v).Some?
  {
    var v := AloneWithTwo(cfg.name, x, y);
    AloneCounts(cfg.name, x, y);
    AloneIsElected(cfg, x, y);
    assert v[1] in v && Matches(v[1], StableAgent);
    hide Lowest, Highest, K3sServerCount, Population, FailedNames, StableServerCount;
    RefusalsAreExact(cfg, v);
  }

  lemma {:induction false} AloneIsElected(cfg: Config, x: Name, y: Name)
    requires cfg.name != "" && x != "" && y != "" && x != y && cfg.name != x && cfg.name != y
    ensures var v := AloneWithTwo(cfg.name, x, y); WellNamed(v) && IsCoordinator(v, cfg.name)
  {
    var v := AloneWithTwo(cfg.name, x, y);
    assert v[..2] == [v[0], v[1]] && v[..2][..1] == [v[0]] && v[..2][..1][..0] == [];
    assert Lowest(v[..2][..1][..0], StableServer) == NO_MEMBER;
    assert Lowest(v[..2][..1], StableServer) == v[0];
    assert Lowest(v[..2], StableServer) == v[0];
    assert Lowest(v, StableServer) == v[0];
  }

  function OrderTo(cfg: Config, role: Role): (e: Event) {
    UserEventReceived(RescaleConvert(Some(Order(cfg.name, role, "s"))))
  }

  /** A rejoining server sees an imbalance at 1, is demoted, and is promoted again a settle delay later. */
  function ThereAndBack(cfg: Config, x: Name, y: Name): (turns: seq<Turn>) {
    var env := Env(1, AloneWithTwo(cfg.name, x, y), true, {});
    [Turn(OperationEnded(0, true), env)] + [Turn(RescaleCheck, env)]
    + [Turn(OrderTo(cfg, Agent), env)] + [Turn(OperationEnded(0, true), env)]
    + [Turn(OrderTo(cfg, Server), env)] + [Turn(OperationEnded(0, true), env.(now := 1 + cfg.settle))]
  }

  function RejoiningServer(cfg: Config): (n: Node) {
    ChooseInitialState(cfg, Fresh(), Loaded(Persisted(cfg.name, Server, 1, 1, NO_TIME)))
  }

  /** An idle machine of one role, with this imbalance clock and nothing to wait for. */
  predicate Idle(n: Node, role: Role, since: Time) {
    && n.state == StableState(role) && n.pending == [] && n.persisted.Some?
    && n.rescale.imbalanceSince == since && n.rescale.retryNotBefore == NO_TIME && n.rescale.failedSince == map[]
    && n.rescale.order == NO_ORDER && n.rescale.evicting == [] && n.rescale.cleaning == ""
  }

  lemma {:induction false} ServerRejoins(cfg: Config, env: Env)
    ensures Idle(Step(cfg, RejoiningServer(cfg), OperationEnded(0, true), env), Server, NO_TIME)
  {}

  lemma {:induction false} ComparesAlone(cfg: Config, n: Node, since: Time, x: Name, y: Name, now: Time)
    requires cfg.name != "" && x != "" && y != "" && x != y && cfg.name != x && cfg.name != y
    requires cfg.rescaleEnabled && Idle(n, Server, since)
    ensures Compares(cfg, n, AloneWithTwo(cfg.name, x, y), now)
  {
    var v := AloneWithTwo(cfg.name, x, y);
    AloneIsOffTarget(cfg, x, y);
    assert Tracked(n, v, now).rescale.failedSince == map[];
    hide IsCoordinator, EtcdIsChanging, FailedNames;
  }

  lemma {:induction false} ImbalanceIsSeen(cfg: Config, n: Node, x: Name, y: Name)
    requires cfg.name != "" && x != "" && y != "" && x != y && cfg.name != x && cfg.name != y
    requires ValidConfig(cfg) && cfg.rescaleEnabled && Idle(n, Server, NO_TIME)
    ensures Idle(MaybeRescale(cfg, n, AloneWithTwo(cfg.name, x, y), 1), Server, 1)
  {
    var v := AloneWithTwo(cfg.name, x, y);
    AloneIsOffTarget(cfg, x, y);
    ComparesAlone(cfg, n, NO_TIME, x, y, 1);
    ComparingMeansResizing(cfg, n, v, 1);
    assert Tracked(n, v, 1).rescale.failedSince == map[];
    hide Compares, MaybeRescale, K3sServerCount, DesiredServers, IsCoordinator, EtcdIsChanging, AloneWithTwo,
         FailedNames;
  }

  lemma {:induction false} RoleIsChanged(cfg: Config, n: Node, from: Role, since: Time, env: Env, done: Env)
    requires IsKnown(from) && Idle(n, from, since)
    ensures var to := Other(from);
            var a := Step(cfg, n, OrderTo(cfg, to), env);
            && a.state == (if to == Server then RescalePromoting else RescaleDemoting)
            && a.pending == [ConvertTo(Order(cfg.name, to, "s"))]
            && Idle(Step(cfg, a, OperationEnded(0, true), done), to, since)
  {
    hide MaybeRescale;
  }

  /**
   * A conversion that did not wait: the server of a small cluster sees an imbalance, is demoted, is
   * promoted a settle delay later, and at the very instant of its promotion starts a conversion.
   */
  lemma {:induction false} PromotionSkipsTheDelay(cfg: Config, x: Name, y: Name)
    requires ValidConfig(cfg) && cfg.rescaleEnabled
    requires x != "" && y != "" && x != y && cfg.name != x && cfg.name != y
    ensures var turns := ThereAndBack(cfg, x, y);
            var p := Run(cfg, RejoiningServer(cfg), turns);
            var env := turns[|turns| - 1].env;
            && Run(cfg, RejoiningServer(cfg), turns[..|turns| - 1]).state == RescalePromoting
            && p.state == StableServer && StartsConversion(p, Step(cfg, p, RescaleCheck, env))
  {
    var v := AloneWithTwo(cfg.name, x, y);
    AloneIsOffTarget(cfg, x, y);
    hide Step, MaybeRescale, Run, Idle, RejoiningServer, AloneWithTwo, StartsConversion, Compares, IsCoordinator,
         EtcdIsChanging, K3sServerCount, DesiredServers, FailedNames, ChooseConversionTarget;
    var e1 := Env(1, v, true, {});
    var e2 := e1.(now := 1 + cfg.settle);
    var n0 := RejoiningServer(cfg);
    var n1 := Step(cfg, n0, OperationEnded(0, true), e1);
    ServerRejoins(cfg, e1);
    ImbalanceIsSeen(cfg, n1, x, y);
    var n2 := Step(cfg, n1, RescaleCheck, e1);
    CheckEvaluates(cfg, n1, e1);
    RoleIsChanged(cfg, n2, Server, 1, e1, e1);
    var n3 := Step(cfg, n2, OrderTo(cfg, Agent), e1);
    var n4 := Step(cfg, n3, OperationEnded(0, true), e1);
    RoleIsChanged(cfg, n4, Agent, 1, e1, e2);
    var n5 := Step(cfg, n4, OrderTo(cfg, Server), e1);
    var n6 := Step(cfg, n5, OperationEnded(0, true), e2);
    ComparesAlone(cfg, n6, 1, x, y, 1 + cfg.settle);
    IdleServer(n6, 1);
    ConvertsExactly(cfg, n6, v, 1 + cfg.settle);
    CheckEvaluates(cfg, n6, e2);
    RunsThereAndBack(cfg, x, y);
  }

  lemma {:induction false} CheckEvaluates(cfg: Config, n: Node, env: Env)
    ensures Step(cfg, n, RescaleCheck, env) == MaybeRescale(cfg, n, env.view, env.now)
  {
    hide MaybeRescale;
  }

  lemma {:induction false} IdleServer(n: Node, since: Time)
    requires Idle(n, Server, since)
    ensures n.state == StableServer && n.rescale.imbalanceSince == since
  {}

  lemma {:induction false} RunsThereAndBack(cfg: Config, x: Name, y: Name)
    ensures var turns, n0 := ThereAndBack(cfg, x, y), RejoiningServer(cfg);
            var e1, e2 := turns[0].env, turns[5].env;
            var n1 := Step(cfg, n0, OperationEnded(0, true), e1);
            var n2 := Step(cfg, n1, RescaleCheck, e1);
            var n3 := Step(cfg, n2, OrderTo(cfg, Agent), e1);
            var n4 := Step(cfg, n3, OperationEnded(0, true), e1);
            var n5 := Step(cfg, n4, OrderTo(cfg, Server), e1);
            && Run(cfg, n0, turns[..5]) == n5 && Run(cfg, n0, turns) == Step(cfg, n5, OperationEnded(0, true), e2)
            && e1 == Env(1, AloneWithTwo(cfg.name, x, y), true, {}) && e2 == e1.(now := 1 + cfg.settle) && |turns| == 6
  {
    hide Step, RejoiningServer, AloneWithTwo;
    var turns, n0 := ThereAndBack(cfg, x, y), RejoiningServer(cfg);
    assert turns[..0] == [];
    RunOneMore(cfg, n0, turns, 0);
    RunOneMore(cfg, n0, turns, 1);
    RunOneMore(cfg, n0, turns, 2);
    RunOneMore(cfg, n0, turns, 3);
    RunOneMore(cfg, n0, turns, 4);
    RunOneMore(cfg, n0, turns, 5);
    assert turns[..6] == turns;
  }

  lemma {:induction false} RunOneMore(cfg: Config, n: Node, turns: seq<Turn>, i: nat)
    requires i < |turns|
    ensures Run(cfg, n, turns[..i + 1]) == Step(cfg, Run(cfg, n, turns[..i]), turns[i].event, turns[i].env)
  {
    hide Step;
    assert turns[..i + 1][..i] == turns[..i];
  }
}

/** Over whole runs: the timer of a coordinator that must wait after an abandoned round. */
module Wakeups {
  import opened Names
  import opened Lifecycle
  import opened ClusterView
  import opened NodeStep
  import opened NodeRuns
  import opened Clocks
  import opened Deadlines
  import LifecycleRuns
  import ViewLaws

  /** A stable server that may not start a round yet. */
  predicate IsHeldBack(n: Node, now: Time) {
    n.state == StableServer && now < n.rescale.retryNotBefore
  }

  predicate EndsCleaning(n: Node, e: Event) {
    EndsRound(n, e) && n.rescale.cleaning != ""
  }

  /** A cleaning round has ended since the last abandoned round. */
  function CleanedSince(cfg: Config, n: Node, turns: seq<Turn>): (cleaned: bool) {
    if turns == [] then false
    else
      var before, last := turns[..|turns| - 1], turns[|turns| - 1];
      var mid := Run(cfg, n, before);
      if Abandons(mid, last.event, last.env) then false
      else EndsCleaning(mid, last.event) || CleanedSince(cfg, n, before)
  }

  /**
   * What every turn keeps: rounds that resize start unblocked, and the retry is armed unless a cleaning
   * cancelled it.
   */
  predicate TimerOk(n: Node, cleaned: bool, now: Time) {
    || n.state == RescaleFailed
    || (if n.state == RescaleCoordinating then n.rescale.cleaning == "" ==> n.rescale.retryNotBefore <= now
        else now < n.rescale.retryNotBefore ==>
               n.rescale.timer == if cleaned then NO_TIME else n.rescale.retryNotBefore)
  }

  lemma {:induction false} RoundsKeepRetry(cfg: Config, n: Node, v: View, now: Time)
    requires n.state == StableServer && n.rescale.cleaning == ""
    ensures var m := Repair(cfg, n, v, now);
            && m.rescale.retryNotBefore == n.rescale.retryNotBefore && m.rescale.cleaning == ""
            && (m.state == StableServer || m.state == RescaleCoordinating)
  {
    hide Evictable, NextEviction, K3sServerCount, DesiredServers, ChooseConversionTarget;
  }

  lemma {:induction false} EvaluationKeepsTimer(cfg: Config, n: Node, v: View, now: Time, cleaned: bool)
    requires TimerOk(n, cleaned, now) && (n.state == StableServer ==> n.rescale.cleaning == "")
    ensures TimerOk(MaybeRescale(cfg, n, v, now), cleaned, now)
  {
    hide Repair, TrackFailures, IsCoordinator, EtcdIsChanging;
    if n.state == StableServer {
      RoundsKeepRetry(cfg, Tracked(n, v, now), v, now);
    }
  }

  lemma {:induction false} MembershipKeepsTimer(cfg: Config, n: Node, v: View, now: Time, cleaned: bool)
    requires Sound(cfg, n) && TimerOk(n, cleaned, now)
    ensures TimerOk(OnMembershipChange(cfg, n, v, now), cleaned, now)
  {
    hide MaybeRescale, FirstBootSteps, OnMembershipChange;
    MembershipIsQuietThenRescales(cfg, n, v, now);
    FirstBootStepsAreForFirstBoots(n, v);
    StatesArePartitioned(FirstBootSteps(n, v).state);
    EvaluationKeepsTimer(cfg, FirstBootSteps(n, v), v, now, cleaned);
  }

  lemma {:induction false} UserEventKeepsTimer(cfg: Config, n: Node, event: UserEvent, env: Env, cleaned: bool)
    requires TimerOk(n, cleaned, env.now)
    ensures TimerOk(OnUserEvent(cfg, n, event, env), cleaned, env.now)
  {
    hide Lowest, StableServerCount, ServerTarget, RankOf, AliveNames, ExistingClusterSeen, CanForget;
  }

  /** The end of an eviction or cleaning round. */
  lemma {:induction false} RoundEndKeepsTimer(cfg: Config, n: Node, e: Event, env: Env, cleaned: bool)
    requires Sound(cfg, n) && TimerOk(n, cleaned, env.now) && EndsRound(n, e)
    ensures TimerOk(Step(cfg, n, e, env), cleaned || EndsCleaning(n, e), env.now)
  {
    EndOfRoundIsEvaluation(cfg, n, e, env);
    var a := AfterRound(Retire(n, e.which), env);
    assert a.state == StableServer && a.rescale.cleaning == "";
    assert a.rescale.retryNotBefore == n.rescale.retryNotBefore && a.rescale.timer == n.rescale.timer == NO_TIME;
    hide Step, AfterRound, Sound;
    EvaluationKeepsTimer(cfg, a, env.view, env.now, cleaned || EndsCleaning(n, e));
  }

  lemma {:induction false} RoundResultKeepsTimer(cfg: Config, n: Node, r: Node, ok: bool, env: Env, cleaned: bool)
    requires TimerOk(n, cleaned, env.now) && n.state == RescaleCoordinating && r == n.(pending := r.pending)
    requires ok ==> n.rescale.cleaning == "" && n.rescale.order.target != ""
    ensures var m := if ok then OnSuccess(cfg, r, env) else OnFailure(cfg, r, env);
            TimerOk(m, if ok && env.sendOk then cleaned else false, env.now)
  {
    hide MaybeRescale, FinishEviction, FinishForgetting;
  }

  lemma {:induction false} OtherResultKeepsTimer(cfg: Config, n: Node, r: Node, ok: bool, env: Env, cleaned: bool)
    requires TimerOk(n, cleaned, env.now) && n.state != RescaleCoordinating && r == n.(pending := r.pending)
    ensures TimerOk(if ok then OnSuccess(cfg, r, env) else OnFailure(cfg, r, env), cleaned, env.now)
  {
    hide OnRescaleCoordinationDone, AbandonCoordination;
  }

  lemma {:induction false} ResultKeepsTimer(cfg: Config, n: Node, e: Event, env: Env, cleaned: bool)
    requires TimerOk(n, cleaned, env.now) && e.OperationEnded? && !EndsRound(n, e)
    ensures TimerOk(Step(cfg, n, e, env), if Abandons(n, e, env) then false else cleaned, env.now)
  {
    hide OnSuccess, OnFailure, TimerOk;
    if e.which < |n.pending| {
      var r := Retire(n, e.which);
      if n.state == RescaleCoordinating {
        RoundResultKeepsTimer(cfg, n, r, e.ok, env, cleaned);
      } else {
        OtherResultKeepsTimer(cfg, n, r, e.ok, env, cleaned);
      }
    }
  }

  lemma {:induction false} ProbeKeepsTimer(cfg: Config, n: Node, name: Name, found: bool, env: Env, cleaned: bool)
    requires TimerOk(n, cleaned, env.now) && WellNamed(env.view)
    ensures TimerOk(OnForgetProbed(cfg, n, name, found, env.view, env.sendOk), cleaned, env.now)
  {
    hide IsCoordinator, EtcdIsChanging, IsVirgin;
    if IsVirgin(env.view, name) {
      ViewLaws.VirginIsSeen(env.view, name);
    }
  }

  lemma {:induction false} WaitKeepsTimer(n: Node, v: View, now: Time, cleaned: bool)
    requires TimerOk(n, cleaned, now)
    ensures TimerOk(OnJoinWaitExpired(n, v), cleaned, now)
  {
    hide Lowest;
  }

  lemma {:induction false} TurnKeepsTimer(cfg: Config, n: Node, e: Event, env: Env, cleaned: bool)
    requires Sound(cfg, n) && GoodEnv(env) && TimerOk(n, cleaned, env.now)
    ensures TimerOk(Step(cfg, n, e, env), if Abandons(n, e, env) then false else EndsCleaning(n, e) || cleaned, env.now)
  {
    hide MaybeRescale, OnMembershipChange, OnUserEvent, OnOperationEnded, OnForgetProbed, OnJoinWaitExpired;
    match e {
      case MembershipChange => MembershipKeepsTimer(cfg, n, env.view, env.now, cleaned);
      case UserEventReceived(event) => UserEventKeepsTimer(cfg, n, event, env, cleaned);
      case RescaleCheck => EvaluationKeepsTimer(cfg, n, env.view, env.now, cleaned);
      case ForgetProbed(name, found) => ProbeKeepsTimer(cfg, n, name, found, env, cleaned);
      case JoinWaitExpired => WaitKeepsTimer(n, env.view, env.now, cleaned);
      case OperationEnded(which, ok) =>
        if EndsRound(n, e) {
          RoundEndKeepsTimer(cfg, n, e, env, cleaned);
        } else {
          ResultKeepsTimer(cfg, n, e, env, cleaned);
        }
      case _ =>
    }
  }

  lemma {:induction false} RunsKeepTimer(cfg: Config, file: LoadResult, turns: seq<Turn>, now: Time)
    requires cfg.name != "" && ValidFile(file)
    requires var n := ChooseInitialState(cfg, Fresh(), file); Legal(cfg, n, turns) && Timely(cfg, n, turns)
    requires InTime(turns) && (turns != [] ==> turns[|turns| - 1].env.now <= now)
    ensures var n := ChooseInitialState(cfg, Fresh(), file);
            TimerOk(Run(cfg, n, turns), CleanedSince(cfg, n, turns), now)
  {
    hide Step, Sound, Possible, Abandons, EndsCleaning, ValidFile;
    var n := ChooseInitialState(cfg, Fresh(), file);
    if turns != [] {
      var before, last := turns[..|turns| - 1], turns[|turns| - 1];
      RunsKeepTimer(cfg, file, before, last.env.now);
      BootIsSound(cfg, file);
      TimelyRunsAreSound(cfg, n, before);
      TurnKeepsTimer(cfg, Run(cfg, n, before), last.event, last.env, CleanedSince(cfg, n, before));
    }
  }

  /**
   * Over any run from a boot at non-decreasing instants: a stable server held back after an abandoned
   * round has the retry armed if and only if no cleaning round has ended since; else it has no timer.
   */
  lemma {:induction false} RetriesAreArmed(cfg: Config, file: LoadResult, turns: seq<Turn>, now: Time)
    requires cfg.name != "" && ValidFile(file)
    requires var n := ChooseInitialState(cfg, Fresh(), file); Legal(cfg, n, turns) && Timely(cfg, n, turns)
    requires InTime(turns) && (turns != [] ==> turns[|turns| - 1].env.now <= now)
    ensures var n := ChooseInitialState(cfg, Fresh(), file);
            var end := Run(cfg, n, turns);
            IsHeldBack(end, now) ==>
              && end.rescale.timer == (if CleanedSince(cfg, n, turns) then NO_TIME else end.rescale.retryNotBefore)
              && (end.rescale.timer == end.rescale.retryNotBefore <==> !CleanedSince(cfg, n, turns))
  {
    hide Run, CleanedSince, Legal, Timely;
    RunsKeepTimer(cfg, file, turns, now);
  }
}

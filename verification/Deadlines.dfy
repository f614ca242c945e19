/** When the coordinator acts and when it wakes up: the settle delay, the armed timer, the retry delay. */
module Deadlines {
  import opened Names
  import opened Lifecycle
  import opened ClusterView
  import opened NodeStep
  import opened NodeRuns
  import opened Clocks
  import ViewLaws

  // --- The settle delay ---

  function Tracked(n: Node, v: View, now: Time): (m: Node) {
    n.(rescale := n.rescale.(failedSince := TrackFailures(n.rescale.failedSince, FailedNames(v), now)))
  }

  /** An evaluation that gets as far as comparing the size of the control plane with its target. */
  predicate Compares(cfg: Config, n: Node, v: View, now: Time) {
    && cfg.rescaleEnabled && n.state == StableServer && IsCoordinator(v, cfg.name)
    && now >= n.rescale.retryNotBefore && !EtcdIsChanging(v)
    && Evictable(v, Tracked(n, v, now).rescale.failedSince, cfg.grace, now) == []
  }

  predicate LosesTurn(cfg: Config, n: Node, v: View) {
    cfg.rescaleEnabled && n.state == StableServer && !IsCoordinator(v, cfg.name)
  }

  /** What an evaluation means to the settle delay: an imbalance seen, or something that breaks the wait. */
  function EvaluationMarks(cfg: Config, n: Node, v: View, now: Time): (s: seq<Beat>) {
    if LosesTurn(cfg, n, v) then [Miss]
    else if !Compares(cfg, n, v, now) then []
    else if K3sServerCount(v) == DesiredServers(v) then [Miss]
    else if MaybeRescale(cfg, n, v, now).state == RescaleCoordinating then [Hit(now), Miss]
    else [Hit(now)]
  }

  /** The coordinator as it evaluates the cluster at the end of an eviction or cleaning round. */
  function AfterRound(n: Node, env: Env): (m: Node) {
    if n.rescale.cleaning != "" then
      ConfirmForgotten(Publish(n.(rescale := n.rescale.(cleaning := "")), StableServer), n.rescale.cleaning, env.sendOk)
    else
      Publish(n.(rescale := n.rescale.(failedSince := n.rescale.failedSince - RemovedBy(n, env), evicting := [])),
        StableServer)
  }

  /** A round that fails, or whose order cannot be broadcast, is abandoned. */
  predicate Abandons(n: Node, e: Event, env: Env) {
    && e.OperationEnded? && e.which < |n.pending| && n.state == RescaleCoordinating
    && (!e.ok || (!EndsRound(n, e) && !env.sendOk))
  }

  function Marks(cfg: Config, n: Node, e: Event, env: Env): (s: seq<Beat>) {
    if e.MembershipChange? || e.RescaleCheck? then EvaluationMarks(cfg, n, env.view, env.now)
    else if EndsRound(n, e) then EvaluationMarks(cfg, AfterRound(Retire(n, e.which), env), env.view, env.now)
    else if Abandons(n, e, env) then [Miss]
    else []
  }

  function MarksOf(cfg: Config, n: Node, turns: seq<Turn>): (s: seq<Beat>) {
    if turns == [] then []
    else
      var before, last := turns[..|turns| - 1], turns[|turns| - 1];
      MarksOf(cfg, n, before) + Marks(cfg, Run(cfg, n, before), last.event, last.env)
  }

  lemma {:induction false} ClockOfOneMore(beats: seq<Beat>, b: Beat)
    ensures Clock(beats + [b]) == if b.Miss? then NO_TIME else if Clock(beats) != NO_TIME then Clock(beats) else b.now
  {
    assert (beats + [b])[..|beats|] == beats;
  }

  lemma {:induction false} ResizeMarks(cfg: Config, n: Node, v: View, now: Time, next: Time, beats: seq<Beat>)
    requires n.state == StableServer && n.rescale.imbalanceSince == Clock(beats) && Real(beats) && now > NO_TIME
    ensures var m := Resize(cfg, n, v, now, next);
            if K3sServerCount(v) == DesiredServers(v) then m.rescale.imbalanceSince == NO_TIME
              && m.state == StableServer
            else if m.state == RescaleCoordinating then
              m.rescale.imbalanceSince == NO_TIME && Clock(beats + [Hit(now)]) + cfg.settle <= now
            else m.rescale.imbalanceSince == Clock(beats + [Hit(now)])
  {
    hide ChooseConversionTarget, K3sServerCount, DesiredServers;
    ClockOfOneMore(beats, Hit(now));
  }

  lemma {:induction false} ComparingMeansResizing(cfg: Config, n: Node, v: View, now: Time)
    requires Compares(cfg, n, v, now)
    ensures MaybeRescale(cfg, n, v, now) ==
            Resize(cfg, Tracked(n, v, now), v, now,
              NextEviction(v, Tracked(n, v, now).rescale.failedSince, cfg.grace, now))
  {
    hide Resize, Evictable, TrackFailures, NextEviction, IsCoordinator, EtcdIsChanging;
  }

  lemma {:induction false} NotComparing(cfg: Config, n: Node, v: View, now: Time)
    requires !Compares(cfg, n, v, now)
    ensures MaybeRescale(cfg, n, v, now).rescale.imbalanceSince == if LosesTurn(cfg, n, v) then NO_TIME
              else n.rescale.imbalanceSince
  {
    hide Resize, Evictable, TrackFailures, NextEviction, IsCoordinator, EtcdIsChanging;
  }

  /** An evaluation moves the imbalance clock as its marks do, and converts only after the settle delay. */
  lemma {:induction false} EvaluationIsMarked(cfg: Config, n: Node, v: View, now: Time, beats: seq<Beat>)
    requires n.rescale.imbalanceSince == Clock(beats) && Real(beats) && now > NO_TIME
    ensures var m := MaybeRescale(cfg, n, v, now);
            && m.rescale.imbalanceSince == Clock(beats + EvaluationMarks(cfg, n, v, now))
            && Real(beats + EvaluationMarks(cfg, n, v, now))
            && (Compares(cfg, n, v, now) && m.state == RescaleCoordinating ==>
                  K3sServerCount(v) != DesiredServers(v) && Clock(beats + [Hit(now)]) + cfg.settle <= now)
  {
    hide MaybeRescale, Resize, K3sServerCount, DesiredServers, NextEviction, Clock;
    var marks := EvaluationMarks(cfg, n, v, now);
    if marks == [] {
      assert beats + marks == beats;
    }
    ClockOfOneMore(beats, Miss);
    if Compares(cfg, n, v, now) {
      var t := Tracked(n, v, now);
      ComparingMeansResizing(cfg, n, v, now);
      ResizeMarks(cfg, t, v, now, NextEviction(v, t.rescale.failedSince, cfg.grace, now), beats);
      ClockOfOneMore(beats + [Hit(now)], Miss);
      assert beats + [Hit(now), Miss] == (beats + [Hit(now)]) + [Miss];
    } else {
      NotComparing(cfg, n, v, now);
    }
  }

  lemma {:induction false} MembershipIsEvaluation(cfg: Config, n: Node, v: View, now: Time)
    ensures var m := OnMembershipChange(cfg, n, v, now);
            if n.state == StableServer then m == MaybeRescale(cfg, n, v, now)
            else m.rescale.imbalanceSince == n.rescale.imbalanceSince && !StartsConversion(n, m)
  {
    hide MaybeRescale, FirstBootSteps, OnMembershipChange;
    if n.state == StableServer {
      InClusterOnlyRescales(cfg, n, v, now);
    } else {
      MembershipIsQuietThenRescales(cfg, n, v, now);
      FirstBootStepsAreForFirstBoots(n, v);
      OnlyStableServersAct(cfg, FirstBootSteps(n, v), v, now);
    }
  }

  lemma {:induction false} EndOfRoundIsEvaluation(cfg: Config, n: Node, e: Event, env: Env)
    requires EndsRound(n, e)
    ensures Step(cfg, n, e, env) == MaybeRescale(cfg, AfterRound(Retire(n, e.which), env), env.view, env.now)
    ensures AfterRound(Retire(n, e.which), env).rescale.imbalanceSince == n.rescale.imbalanceSince
  {
    hide MaybeRescale;
  }

  lemma {:induction false} OtherTurnsKeepTheClock(cfg: Config, n: Node, e: Event, env: Env)
    requires !e.MembershipChange? && !e.RescaleCheck? && !EndsRound(n, e)
    ensures Step(cfg, n, e, env).rescale.imbalanceSince == if Abandons(n, e, env) then NO_TIME
              else n.rescale.imbalanceSince
  {
    hide MaybeRescale, OnUserEvent, OnForgetProbed, OnJoinWaitExpired, FinishEviction, FinishForgetting;
    if !e.OperationEnded? {
      OtherTurnsAreQuiet(cfg, n, e, env);
    }
  }

  lemma {:induction false} TurnIsMarked(cfg: Config, n: Node, e: Event, env: Env, beats: seq<Beat>)
    requires n.rescale.imbalanceSince == Clock(beats) && Real(beats) && env.now > NO_TIME
    ensures Step(cfg, n, e, env).rescale.imbalanceSince == Clock(beats + Marks(cfg, n, e, env))
    ensures Real(beats + Marks(cfg, n, e, env))
  {
    hide OnMembershipChange, MaybeRescale, EvaluationMarks, Abandons;
    if e.MembershipChange? || e.RescaleCheck? {
      EvaluationIsMarked(cfg, n, env.view, env.now, beats);
      if e.MembershipChange? {
        MembershipIsEvaluation(cfg, n, env.view, env.now);
        if n.state != StableServer {
          NoMarksUnlessStable(cfg, n, env.view, env.now);
          assert beats + [] == beats;
        }
      }
    } else if EndsRound(n, e) {
      EndOfRoundIsEvaluation(cfg, n, e, env);
      EvaluationIsMarked(cfg, AfterRound(Retire(n, e.which), env), env.view, env.now, beats);
    } else {
      OtherTurnsKeepTheClock(cfg, n, e, env);
      ClockOfOneMore(beats, Miss);
      assert beats + [] == beats;
    }
  }

  lemma {:induction false} NoMarksUnlessStable(cfg: Config, n: Node, v: View, now: Time)
    requires n.state != StableServer
    ensures EvaluationMarks(cfg, n, v, now) == []
  {}

  /** Over any run, the imbalance clock goes on as the marks of that run describe. */
  lemma {:induction false} ClockGoesOn(cfg: Config, n: Node, turns: seq<Turn>, beats: seq<Beat>)
    requires Legal(cfg, n, turns) && n.rescale.imbalanceSince == Clock(beats) && Real(beats)
    ensures Run(cfg, n, turns).rescale.imbalanceSince == Clock(beats + MarksOf(cfg, n, turns))
    ensures Real(beats + MarksOf(cfg, n, turns))
  {
    hide Step, Marks, Clock;
    if turns == [] {
      assert beats + [] == beats;
    } else {
      var before, last := turns[..|turns| - 1], turns[|turns| - 1];
      ClockGoesOn(cfg, n, before, beats);
      TurnIsMarked(cfg, Run(cfg, n, before), last.event, last.env, beats + MarksOf(cfg, n, before));
      assert beats + MarksOf(cfg, n, turns) ==
             (beats + MarksOf(cfg, n, before)) + Marks(cfg, Run(cfg, n, before), last.event, last.env);
    }
  }

  /** From a boot, it is the one the marks of the run describe. */
  lemma {:induction false} ImbalanceClockIsMarked(cfg: Config, file: LoadResult, turns: seq<Turn>)
    requires Legal(cfg, ChooseInitialState(cfg, Fresh(), file), turns)
    ensures var n := ChooseInitialState(cfg, Fresh(), file);
            && Run(cfg, n, turns).rescale.imbalanceSince == Clock(MarksOf(cfg, n, turns))
            && Real(MarksOf(cfg, n, turns))
  {
    var n := ChooseInitialState(cfg, Fresh(), file);
    ClockGoesOn(cfg, n, turns, []);
    assert [] + MarksOf(cfg, n, turns) == MarksOf(cfg, n, turns);
  }

  /** This turn started a round that prepares a conversion. */
  predicate StartsConversion(n: Node, m: Node) {
    m.state == RescaleCoordinating && m.rescale.order.target != "" && m.published != n.published
  }

  /** The node an evaluation of this turn starts from. */
  function Evaluated(n: Node, e: Event, env: Env): (m: Node) {
    if EndsRound(n, e) then AfterRound(Retire(n, e.which), env) else n
  }

  lemma {:induction false} ConvertingEvaluation(cfg: Config, n: Node, v: View, now: Time)
    requires StartsConversion(n, MaybeRescale(cfg, n, v, now))
    ensures Compares(cfg, n, v, now)
  {
    hide Resize, Evictable, TrackFailures, NextEviction, EtcdIsChanging, IsCoordinator;
  }

  lemma {:induction false} OtherTurnsStartNoConversion(cfg: Config, n: Node, e: Event, env: Env)
    requires !e.MembershipChange? && !e.RescaleCheck? && !EndsRound(n, e)
    ensures !StartsConversion(n, Step(cfg, n, e, env))
  {
    hide MaybeRescale, OnUserEvent, OnForgetProbed, OnJoinWaitExpired, FinishEviction, FinishForgetting;
    if !e.OperationEnded? {
      OtherTurnsAreQuiet(cfg, n, e, env);
    }
  }

  lemma {:induction false} ConversionsComeFromEvaluations(cfg: Config, n: Node, e: Event, env: Env)
    requires Sound(cfg, n) && StartsConversion(n, Step(cfg, n, e, env))
    ensures Step(cfg, n, e, env) == MaybeRescale(cfg, Evaluated(n, e, env), env.view, env.now)
    ensures Compares(cfg, Evaluated(n, e, env), env.view, env.now)
  {
    hide MaybeRescale, OnMembershipChange, OnOperationEnded, Compares;
    if e.MembershipChange? {
      MembershipIsEvaluation(cfg, n, env.view, env.now);
    } else if EndsRound(n, e) {
      EndOfRoundIsEvaluation(cfg, n, e, env);
      MaybeRescaleEffect(cfg, AfterRound(Retire(n, e.which), env), env.view, env.now);
    } else if !e.RescaleCheck? {
      OtherTurnsStartNoConversion(cfg, n, e, env);
    }
    ConvertingEvaluation(cfg, Evaluated(n, e, env), env.view, env.now);
  }

  /**
   * A conversion starts only at the end of an unbroken run of evaluations that all saw an imbalance,
   * lasting at least the settle delay, with no loss of the turn, no abandoned round and no conversion
   * started by this machine inside. A change of this machine's own role does not break it: see
   * Promotions.
   */
  lemma {:induction false} ConversionsAreDebounced(cfg: Config, file: LoadResult, turns: seq<Turn>, last: Turn)
    requires cfg.name != "" && ValidFile(file) && last.env.now > NO_TIME
    requires var n := ChooseInitialState(cfg, Fresh(), file); Legal(cfg, n, turns) && Timely(cfg, n, turns)
    requires var mid := Run(cfg, ChooseInitialState(cfg, Fresh(), file), turns);
             StartsConversion(mid, Step(cfg, mid, last.event, last.env))
    ensures var beats := MarksOf(cfg, ChooseInitialState(cfg, Fresh(), file), turns) + [Hit(last.env.now)];
            exists i :: 0 <= i < |beats| && Unbroken(beats, i) && beats[i].now + cfg.settle <= last.env.now
  {
    var n := ChooseInitialState(cfg, Fresh(), file);
    hide Step, Run, MaybeRescale, Legal, Timely, Compares, ChooseInitialState, Sound, EvaluationMarks, MarksOf, Clock;
    var mid, marks := Run(cfg, n, turns), MarksOf(cfg, n, turns);
    BootIsSound(cfg, file);
    TimelyRunsAreSound(cfg, n, turns);
    ImbalanceClockIsMarked(cfg, file, turns);
    ConversionsComeFromEvaluations(cfg, mid, last.event, last.env);
    EvaluationIsMarked(cfg, Evaluated(mid, last.event, last.env), last.env.view, last.env.now, marks);
    ClockShowsTheRun(marks + [Hit(last.env.now)]);
  }

  // --- Whom the coordinator converts ---

  /**
   * A coordinator that sees no etcd change refuses to convert exactly when the control plane has its
   * target size, or there is nobody to promote, or it is the last server itself; and whoever it
   * designates is another machine, the lowest-named agent or the highest-named server.
   */
  lemma {:induction false} RefusalsAreExact(cfg: Config, v: View)
    requires WellNamed(v) && IsCoordinator(v, cfg.name)
    ensures ChooseConversionTarget(cfg, v).None? <==>
              || K3sServerCount(v) == DesiredServers(v)
              || (K3sServerCount(v) < DesiredServers(v) && forall m :: m in v ==> !Matches(m, StableAgent))
              || (K3sServerCount(v) > DesiredServers(v) && StableServerCount(v) == 1)
    ensures ChooseConversionTarget(cfg, v).Some? ==>
              var (x, role) := ChooseConversionTarget(cfg, v).value;
              var from := if role == Server then StableAgent else StableServer;
              && x != cfg.name && (role == Server <==> K3sServerCount(v) < DesiredServers(v))
                   && (role == Server || role == Agent)
              && exists t :: t in v && t.name == x && Matches(t, from)
                   && forall m :: m in v && Matches(m, from) && m != t ==>
                        if role == Server then Less(x, m.name) else Less(m.name, x)
  {
    ViewLaws.CoordinatorIsLastToGo(v, cfg.name);
    hide K3sServerCount, DesiredServers, Lowest, Highest, StableServerCount;
    ViewLaws.LowestIsLeast(v, StableAgent);
    ViewLaws.LowestIsLeast(v, StableServer);
    ViewLaws.HighestIsGreatest(v, StableServer);
  }

  // --- The armed timer ---

  /** What the coordinator is waiting for: a failure to age, or an imbalance to settle. */
  predicate HasWork(v: View) {
    FailedNames(v) != [] || K3sServerCount(v) != DesiredServers(v)
  }

  /** The pending deadlines after an evaluation that started no round. */
  ghost predicate IsPending(cfg: Config, m: Node, v: View, now: Time, deadline: Time) {
    || (exists x :: x in FailedNames(v) && deadline == EvictionDeadline(m.rescale.failedSince, cfg.grace, now, x))
    || (K3sServerCount(v) != DesiredServers(v) &&
        deadline == if m.rescale.imbalanceSince + cfg.settle > now then m.rescale.imbalanceSince + cfg.settle
          else now + cfg.settle)
  }

  lemma {:induction false} ResizeArms(cfg: Config, n: Node, v: View, now: Time, next: Time)
    requires ValidConfig(cfg) && now > NO_TIME && n.state == StableServer && (next == NO_TIME || next > now)
    ensures var m := Resize(cfg, n, v, now, next);
            m.state == StableServer ==>
              if K3sServerCount(v) == DesiredServers(v) then m.rescale.timer == next
              else
                var wait := if m.rescale.imbalanceSince + cfg.settle > now then m.rescale.imbalanceSince + cfg.settle
                    else now + cfg.settle;
                m.rescale.timer == Earliest(next, wait) && m.rescale.imbalanceSince != NO_TIME
  {
    hide K3sServerCount, DesiredServers, ChooseConversionTarget;
  }

  /**
   * No lost wake-up and no spinning: an unblocked coordinator that starts no round leaves a timer armed
   * exactly when something is pending, at the earliest pending deadline, strictly in the future.
   */
  lemma {:induction false} TimerIsTheEarliestDeadline(cfg: Config, n: Node, v: View, now: Time)
    requires ValidConfig(cfg) && now > NO_TIME && WellNamed(v)
    requires Compares(cfg, n, v, now) && MaybeRescale(cfg, n, v, now).state == StableServer
    ensures var m := MaybeRescale(cfg, n, v, now);
            && (m.rescale.timer != NO_TIME <==> HasWork(v))
            && (HasWork(v) ==> m.rescale.timer > now && IsPending(cfg, m, v, now, m.rescale.timer))
            && (forall deadline :: IsPending(cfg, m, v, now, deadline) ==> m.rescale.timer <= deadline)
  {
    var t := Tracked(n, v, now);
    var since := t.rescale.failedSince;
    var next := NextEviction(v, since, cfg.grace, now);
    var m := MaybeRescale(cfg, n, v, now);
    assert m == Resize(cfg, t, v, now, next);
    hide MaybeRescale, Resize, Evictable, K3sServerCount, DesiredServers, TrackFailures, IsCoordinator, EtcdIsChanging;
    ViewLaws.NextExpiryIsEarliest(FailedNames(v), since, cfg.grace, now);
    ResizeArms(cfg, t, v, now, next);
    ResizeKeepsFailures(cfg, t, v, now, next);
    NoneIsDue(cfg, v, since, now);
  }

  /** When nobody is evictable, every failed machine's deadline is still ahead. */
  lemma {:induction false} NoneIsDue(cfg: Config, v: View, since: map<Name, Time>, now: Time)
    requires WellNamed(v) && Evictable(v, since, cfg.grace, now) == []
    ensures forall x :: x in FailedNames(v) ==> EvictionDeadline(since, cfg.grace, now, x) > now
    ensures FailedNames(v) != [] ==> NextEviction(v, since, cfg.grace, now) != NO_TIME
  {
    hide Evictable;
    ViewLaws.EvictableAreTheDurablyFailed(v, since, cfg.grace, now);
    ViewLaws.NamesAreListedOnce(v, IsFailed);
    ViewLaws.NextExpiryIsEarliest(FailedNames(v), since, cfg.grace, now);
    if FailedNames(v) != [] {
      assert FailedNames(v)[0] in FailedNames(v);
    }
  }

  /** With the view unchanged, the first evaluation at or after an eviction deadline starts the eviction. */
  lemma {:induction false} DueEvictionsStart(cfg: Config, n: Node, v: View, now: Time, later: Time, name: Name)
    requires ValidConfig(cfg) && NO_TIME < now <= later && WellNamed(v)
    requires Compares(cfg, n, v, now) && MaybeRescale(cfg, n, v, now).state == StableServer
    requires name in FailedNames(v)
    requires EvictionDeadline(MaybeRescale(cfg, n, v, now).rescale.failedSince, cfg.grace, now, name) <= later
    ensures var m := MaybeRescale(cfg, n, v, now);
            var k := MaybeRescale(cfg, m, v, later);
            k.state == RescaleCoordinating && name in k.rescale.evicting
              && k.pending == m.pending + [DeleteEvicted(k.rescale.evicting)]
  {
    var t := Tracked(n, v, now);
    var m := MaybeRescale(cfg, n, v, now);
    assert m == Resize(cfg, t, v, now, NextEviction(v, t.rescale.failedSince, cfg.grace, now));
    hide Resize, K3sServerCount, DesiredServers, IsCoordinator, EtcdIsChanging, Evictable;
    ResizeKeepsFailures(cfg, t, v, now, NextEviction(v, t.rescale.failedSince, cfg.grace, now));
    var again := TrackFailures(m.rescale.failedSince, FailedNames(v), later);
    assert again == m.rescale.failedSince;
    ViewLaws.EvictableAreTheDurablyFailed(v, again, cfg.grace, later);
    ViewLaws.NamesAreListedOnce(v, IsFailed);
  }

  lemma {:induction false} ResizeKeepsFailures(cfg: Config, n: Node, v: View, now: Time, next: Time)
    ensures var m := Resize(cfg, n, v, now, next);
            m.rescale.failedSince == n.rescale.failedSince && m.rescale.retryNotBefore == n.rescale.retryNotBefore
  {
    hide K3sServerCount, DesiredServers, ChooseConversionTarget;
  }

  // --- After an abandoned round ---

  /** No eviction or conversion is running, and none may start before that instant. */
  predicate HeldUntil(n: Node, until: Time) {
    && n.rescale.retryNotBefore >= until
    && forall i :: 0 <= i < |n.pending| ==> !n.pending[i].DeleteEvicted? && !n.pending[i].PrepareConversion?
  }

  /** This turn finds out that another machine holds the turn now. */
  predicate TurnIsLost(cfg: Config, n: Node, e: Event, env: Env) {
    (e.MembershipChange? || e.RescaleCheck? || EndsRound(n, e)) && LosesTurn(cfg, Evaluated(n, e, env), env.view)
  }

  ghost predicate KeepsTurn(cfg: Config, n: Node, turns: seq<Turn>) {
    turns != [] ==>
      var before, last := turns[..|turns| - 1], turns[|turns| - 1];
      KeepsTurn(cfg, n, before) && !TurnIsLost(cfg, Run(cfg, n, before), last.event, last.env)
  }

  lemma {:induction false} EvaluationIsHeld(cfg: Config, n: Node, v: View, now: Time, until: Time)
    requires HeldUntil(n, until) && now < until && !LosesTurn(cfg, n, v)
    ensures HeldUntil(MaybeRescale(cfg, n, v, now), until)
  {
    hide Repair, TrackFailures, IsCoordinator;
  }

  lemma {:induction false} QuietTurnsAreHeld(n: Node, m: Node, until: Time)
    requires HeldUntil(n, until) && QuietTurn(n, m)
    ensures HeldUntil(m, until)
  {
    assert forall i :: 0 <= i < |n.pending| && n.pending <= m.pending ==> m.pending[i] == n.pending[i];
  }

  lemma {:induction false} OnlyOperation(cfg: Config, n: Node, which: nat)
    requires Sound(cfg, n) && which < |n.pending|
    ensures Retire(n, which) == n.(pending := [])
  {}

  /** A result that ends no eviction or cleaning round starts nothing. */
  lemma {:induction false} ResultStartsNothing(cfg: Config, n: Node, which: nat, ok: bool, env: Env)
    requires which < |n.pending| && !EndsRound(n, OperationEnded(which, ok))
    ensures var m := OnOperationEnded(cfg, n, which, ok, env);
            && m.pending == Retire(n, which).pending
            && (m.rescale.retryNotBefore == n.rescale.retryNotBefore
                 || m.rescale.retryNotBefore == env.now + cfg.settle)
  {
    hide MaybeRescale, FinishEviction, FinishForgetting;
  }

  lemma {:induction false} ResultIsHeld(cfg: Config, n: Node, e: Event, env: Env, until: Time)
    requires Sound(cfg, n) && HeldUntil(n, until) && env.now < until <= env.now + cfg.settle
    requires e.OperationEnded? && !EndsRound(n, e)
    ensures HeldUntil(Step(cfg, n, e, env), until)
  {
    hide OnSuccess, OnFailure, Sound, EndsRound;
    if e.which < |n.pending| {
      OnlyOperation(cfg, n, e.which);
      ResultStartsNothing(cfg, n, e.which, e.ok, env);
    }
  }

  lemma {:induction false} TurnIsHeld(cfg: Config, n: Node, e: Event, env: Env, until: Time)
    requires Sound(cfg, n) && HeldUntil(n, until) && env.now < until <= env.now + cfg.settle
    requires !TurnIsLost(cfg, n, e, env)
    ensures HeldUntil(Step(cfg, n, e, env), until)
  {
    hide MaybeRescale, OnOperationEnded, OnMembershipChange, OnUserEvent, OnForgetProbed, OnJoinWaitExpired,
         FirstBootSteps, QuietTurn;
    if e.MembershipChange? {
      MembershipIsEvaluation(cfg, n, env.view, env.now);
      if n.state == StableServer {
        EvaluationIsHeld(cfg, n, env.view, env.now, until);
      } else {
        MembershipIsQuietThenRescales(cfg, n, env.view, env.now);
        FirstBootStepsAreForFirstBoots(n, env.view);
        OnlyStableServersAct(cfg, FirstBootSteps(n, env.view), env.view, env.now);
        QuietTurnsAreHeld(n, FirstBootSteps(n, env.view), until);
      }
    } else if e.RescaleCheck? {
      EvaluationIsHeld(cfg, n, env.view, env.now, until);
    } else if EndsRound(n, e) {
      EndOfRoundIsEvaluation(cfg, n, e, env);
      assert Retire(n, e.which).pending == [];
      EvaluationIsHeld(cfg, Evaluated(n, e, env), env.view, env.now, until);
    } else if e.OperationEnded? {
      ResultIsHeld(cfg, n, e, env, until);
    } else {
      OtherTurnsAreQuiet(cfg, n, e, env);
      QuietTurnsAreHeld(n, Step(cfg, n, e, env), until);
    }
  }

  lemma {:induction false} RunIsHeld(cfg: Config, n: Node, turns: seq<Turn>, until: Time)
    requires Sound(cfg, n) && HeldUntil(n, until)
    requires Legal(cfg, n, turns) && Timely(cfg, n, turns) && KeepsTurn(cfg, n, turns)
    requires forall i :: 0 <= i < |turns| ==> turns[i].env.now < until <= turns[i].env.now + cfg.settle
    ensures HeldUntil(Run(cfg, n, turns), until)
  {
    hide Step, TurnIsLost;
    if turns != [] {
      var before, last := turns[..|turns| - 1], turns[|turns| - 1];
      RunIsHeld(cfg, n, before, until);
      TimelyRunsAreSound(cfg, n, before);
      TurnIsHeld(cfg, Run(cfg, n, before), last.event, last.env, until);
    }
  }

  /**
   * After an abandoned round, whether its operation failed or its order could not be broadcast, no
   * eviction and no conversion is under way at any point of any run that stays within the retry delay,
   * unless the turn was lost meanwhile.
   */
  lemma {:induction false} AbandonedRoundsWait(cfg: Config, n: Node, e: Event, env: Env, turns: seq<Turn>)
    requires Sound(cfg, n) && GoodEnv(env) && Abandons(n, e, env)
    requires var m := Step(cfg, n, e, env);
             Legal(cfg, m, turns) && Timely(cfg, m, turns) && KeepsTurn(cfg, m, turns)
    requires forall i :: 0 <= i < |turns| ==> env.now <= turns[i].env.now < env.now + cfg.settle
    ensures var end := Run(cfg, Step(cfg, n, e, env), turns);
            forall i :: 0 <= i < |end.pending| ==> !end.pending[i].DeleteEvicted? && !end.pending[i].PrepareConversion?
  {
    TurnIsSound(cfg, n, e, env);
    var m := Step(cfg, n, e, env);
    OnlyOperation(cfg, n, e.which);
    assert m.rescale.retryNotBefore == env.now + cfg.settle && m.pending == [];
    hide Step, Sound, Run, Legal, Timely, KeepsTurn;
    RunIsHeld(cfg, m, turns, env.now + cfg.settle);
  }

  // --- A wake-up that can be lost ---

  /**
   * A cleaning round cancels the pending timer. When it ends before the retry delay of an earlier,
   * abandoned round, the evaluation that follows stops at that delay and arms nothing: with work
   * pending, no timer is left exactly in that case.
   */
  lemma {:induction false} WakeUpAfterForgetting(cfg: Config, n: Node, env: Env)
    requires ValidConfig(cfg) && cfg.rescaleEnabled && GoodEnv(env)
    requires Sound(cfg, n) && n.state == RescaleCoordinating && n.rescale.cleaning != ""
    requires IsCoordinator(env.view, cfg.name) && !EtcdIsChanging(env.view) && HasWork(env.view)
    ensures var m := Step(cfg, n, OperationEnded(0, true), env);
            m.state == StableServer && m.rescale.timer == NO_TIME <==> env.now < n.rescale.retryNotBefore
  {
    var r := Retire(n, 0);
    var a := ConfirmForgotten(Publish(r.(rescale := r.rescale.(cleaning := "")), StableServer), r.rescale.cleaning,
        env.sendOk);
    assert a.state == StableServer && a.rescale == r.rescale.(cleaning := "");
    if env.now >= n.rescale.retryNotBefore && Compares(cfg, a, env.view, env.now)
       && MaybeRescale(cfg, a, env.view, env.now).state == StableServer {
      TimerIsTheEarliestDeadline(cfg, a, env.view, env.now);
    }
    hide Resize, Evictable, HasWork, TrackFailures, IsCoordinator, EtcdIsChanging;
  }

  lemma {:induction false} RoundIsAbandoned(cfg: Config, n: Node, env: Env)
    requires Sound(cfg, n) && n.state == RescaleCoordinating && GoodEnv(env)
    ensures var a := Step(cfg, n, OperationEnded(0, false), env);
            && Sound(cfg, a) && a.state == StableServer && a.pending == []
            && a.rescale.timer == env.now + cfg.settle == a.rescale.retryNotBefore
  {
    TurnIsSound(cfg, n, OperationEnded(0, false), env);
    hide MaybeRescale;
    assert Retire(n, 0).pending == [];
  }

  lemma {:induction false} CleaningStarts(cfg: Config, n: Node, env: Env, name: Name)
    requires Sound(cfg, n) && n.state == StableServer && GoodEnv(env) && name != ""
    requires IsCoordinator(env.view, cfg.name) && IsVirgin(env.view, name) && !EtcdIsChanging(env.view)
    ensures var b := Step(cfg, n, ForgetProbed(name, true), env);
            && Sound(cfg, b) && b.state == RescaleCoordinating && b.rescale.cleaning == name
            && b.rescale.retryNotBefore == n.rescale.retryNotBefore
  {
    TurnIsSound(cfg, n, ForgetProbed(name, true), env);
    hide MaybeRescale, IsCoordinator, EtcdIsChanging, IsVirgin;
  }

  /** It does happen: a round abandoned, a leftover erased, and the coordinator is left with no timer. */
  lemma {:induction false} ForgettingLosesTheRetry(cfg: Config, n: Node, e0: Env, e1: Env, e2: Env, name: Name)
    requires ValidConfig(cfg) && cfg.rescaleEnabled && Sound(cfg, n) && n.state == RescaleCoordinating
    requires IsCoordinator(e1.view, cfg.name) && IsVirgin(e1.view, name) && !EtcdIsChanging(e1.view) && name != ""
    requires GoodEnv(e0) && GoodEnv(e1) && GoodEnv(e2) && e0.now <= e2.now < e0.now + cfg.settle
    requires IsCoordinator(e2.view, cfg.name) && !EtcdIsChanging(e2.view) && HasWork(e2.view)
    ensures var a := Step(cfg, n, OperationEnded(0, false), e0);
            var b := Step(cfg, a, ForgetProbed(name, true), e1);
            var c := Step(cfg, b, OperationEnded(0, true), e2);
            && a.state == StableServer && a.rescale.timer == e0.now + cfg.settle
            && b.state == RescaleCoordinating
            && c.state == StableServer && c.rescale.timer == NO_TIME
  {
    hide Step, HasWork, IsCoordinator, EtcdIsChanging, IsVirgin, Sound;
    RoundIsAbandoned(cfg, n, e0);
    var a := Step(cfg, n, OperationEnded(0, false), e0);
    CleaningStarts(cfg, a, e1, name);
    WakeUpAfterForgetting(cfg, Step(cfg, a, ForgetProbed(name, true), e1), e2);
  }
}

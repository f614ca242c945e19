/** The clocks a machine keeps: how long each failure lasts, how long an imbalance lasts, when to wake up. */
module Clocks {
  import opened Names
  import opened Lifecycle
  import opened ClusterView
  import opened NodeStep
  import opened NodeRuns
  import ViewLaws

  // --- Unbroken runs of observations ---

  /** One observation of a condition: met at an instant, or not met. */
  datatype Beat = Hit(now: Time) | Miss

  /** From position i on, the condition was met every time. */
  predicate Unbroken(beats: seq<Beat>, i: nat) {
    i < |beats| && forall j :: i <= j < |beats| ==> beats[j].Hit?
  }

  predicate Real(beats: seq<Beat>) {
    forall i :: 0 <= i < |beats| ==> beats[i].Hit? ==> beats[i].now > NO_TIME
  }

  predicate InOrder(beats: seq<Beat>) {
    forall i, j :: 0 <= i < j < |beats| ==> beats[i].Hit? && beats[j].Hit? ==> beats[i].now <= beats[j].now
  }

  /** What a clock shows that is started by a first hit, kept by the next ones and cleared by a miss. */
  function Clock(beats: seq<Beat>): (t: Time) {
    if beats == [] then NO_TIME
    else
      var last, before := beats[|beats| - 1], Clock(beats[..|beats| - 1]);
      if last.Miss? then NO_TIME else if before != NO_TIME then before else last.now
  }

  /** It shows the instant at which the last unbroken run of hits began. */
  lemma {:induction false} ClockShowsTheRun(beats: seq<Beat>)
    requires Real(beats)
    ensures Clock(beats) == NO_TIME <==> beats == [] || beats[|beats| - 1].Miss?
    ensures Clock(beats) != NO_TIME ==>
              exists i :: 0 <= i < |beats| && Unbroken(beats, i) && beats[i].now == Clock(beats)
                && (i == 0 || beats[i - 1].Miss?)
  {
    if beats != [] {
      var last := |beats| - 1;
      var rest := beats[..last];
      ClockShowsTheRun(rest);
      if beats[last].Hit? {
        if Clock(rest) == NO_TIME {
          assert Unbroken(beats, last);
        } else {
          var i :| 0 <= i < last && Unbroken(rest, i) && rest[i].now == Clock(rest) && (i == 0 || rest[i - 1].Miss?);
          assert Unbroken(beats, i);
        }
      }
    }
  }

  /** So a delay is over exactly when some unbroken run of hits has lasted at least that long. */
  lemma {:induction false} ClockMeasuresTheRun(beats: seq<Beat>, delay: nat, now: Time)
    requires Real(beats) && InOrder(beats)
    ensures Clock(beats) != NO_TIME && Clock(beats) + delay <= now <==>
              exists i :: 0 <= i < |beats| && Unbroken(beats, i) && beats[i].now + delay <= now
  {
    ClockShowsTheRun(beats);
    if Clock(beats) != NO_TIME {
      var i :| 0 <= i < |beats| && Unbroken(beats, i) && beats[i].now == Clock(beats) && (i == 0 || beats[i - 1].Miss?);
      assert forall j :: 0 <= j < i ==> !Unbroken(beats, j);
    }
  }

  // --- The failure clock ---

  /** What touches the failure clock: an observation of the failed members, or their erasure. */
  datatype Sighting = Observed(now: Time, failed: seq<Name>) | Erased(names: set<Name>)

  function Apply(failedSince: map<Name, Time>, s: Sighting): (r: map<Name, Time>) {
    match s
    case Observed(now, failed) => TrackFailures(failedSince, failed, now)
    case Erased(names) => failedSince - names
  }

  function Evaluation(cfg: Config, env: Env): (s: seq<Sighting>) {
    if cfg.rescaleEnabled then [Observed(env.now, FailedNames(env.view))] else []
  }

  /** The round that ends with this turn, if it is not a conversion, is followed by an evaluation. */
  predicate EndsRound(n: Node, e: Event) {
    && e.OperationEnded? && e.ok && e.which < |n.pending| && n.state == RescaleCoordinating
    && (n.rescale.cleaning != "" || n.rescale.order.target == "")
  }

  function RemovedBy(n: Node, env: Env): (s: set<Name>) {
    if n.rescale.cleaning != "" then {} else set name | name in n.rescale.evicting && name in env.removable
  }

  function Sightings(cfg: Config, n: Node, e: Event, env: Env): (s: seq<Sighting>) {
    if e.MembershipChange? || e.RescaleCheck? then Evaluation(cfg, env)
    else if EndsRound(n, e) then [Erased(RemovedBy(n, env))] + Evaluation(cfg, env)
    else []
  }

  function History(cfg: Config, n: Node, turns: seq<Turn>): (s: seq<Sighting>) {
    if turns == [] then []
    else
      var before, last := turns[..|turns| - 1], turns[|turns| - 1];
      History(cfg, n, before) + Sightings(cfg, Run(cfg, n, before), last.event, last.env)
  }

  /** One machine's share of the history: was it failed, each time anybody looked or erased it? */
  function BeatsOf(history: seq<Sighting>, name: Name): (s: seq<Beat>) {
    if history == [] then []
    else
      var rest := BeatsOf(history[..|history| - 1], name);
      match history[|history| - 1]
      case Observed(now, failed) => rest + [if name in failed then Hit(now) else Miss]
      case Erased(names) => if name in names then rest + [Miss] else rest
  }

  ghost predicate Tracks(failedSince: map<Name, Time>, history: seq<Sighting>) {
    forall name :: (if name in failedSince then failedSince[name] else NO_TIME) == Clock(BeatsOf(history, name))
  }

  /** No entry of the map is the zero time, so being listed and having a clock running are the same. */
  ghost predicate RealTimes(failedSince: map<Name, Time>) {
    forall name :: name in failedSince ==> failedSince[name] > NO_TIME
  }

  lemma {:induction false} SightingIsTracked(failedSince: map<Name, Time>, history: seq<Sighting>, s: Sighting)
    requires Tracks(failedSince, history) && RealTimes(failedSince)
    requires s.Observed? ==> s.now > NO_TIME
    ensures Tracks(Apply(failedSince, s), history + [s]) && RealTimes(Apply(failedSince, s))
  {
    forall name
      ensures (if name in Apply(failedSince, s) then Apply(failedSince, s)[name] else NO_TIME) ==
                Clock(BeatsOf(history + [s], name))
    {
      assert (history + [s])[..|history|] == history;
      var rest := BeatsOf(history, name);
      assert forall b: Beat :: (rest + [b])[..|rest|] == rest;
    }
  }

  lemma {:induction false} RescaleTracks(cfg: Config, n: Node, v: View, now: Time)
    ensures MaybeRescale(cfg, n, v, now).rescale.failedSince ==
            if cfg.rescaleEnabled then TrackFailures(n.rescale.failedSince, FailedNames(v), now)
              else n.rescale.failedSince
  {
    hide TrackFailures, Evictable, NextEviction, ChooseConversionTarget;
  }

  function ApplyAll(failedSince: map<Name, Time>, s: seq<Sighting>): (r: map<Name, Time>) {
    if s == [] then failedSince else Apply(ApplyAll(failedSince, s[..|s| - 1]), s[|s| - 1])
  }

  lemma {:induction false} EndOfRoundTracks(cfg: Config, n: Node, env: Env)
    requires n.rescale.cleaning != "" || n.rescale.order.target == ""
    ensures OnRescaleCoordinationDone(cfg, n, env).rescale.failedSince ==
            var erased := n.rescale.failedSince - RemovedBy(n, env);
            if cfg.rescaleEnabled then TrackFailures(erased, FailedNames(env.view), env.now) else erased
  {
    hide MaybeRescale, TrackFailures;
    if n.rescale.cleaning != "" {
      assert n.rescale.failedSince - {} == n.rescale.failedSince;
      var done := Publish(n.(rescale := n.rescale.(cleaning := "")), StableServer);
      RescaleTracks(cfg, ConfirmForgotten(done, n.rescale.cleaning, env.sendOk), env.view, env.now);
    } else {
      var done := n.(rescale := n.rescale.(failedSince := n.rescale.failedSince - RemovedBy(n, env), evicting := []));
      RescaleTracks(cfg, Publish(done, StableServer), env.view, env.now);
    }
  }

  lemma {:induction false} ResultTracks(cfg: Config, n: Node, which: nat, ok: bool, env: Env)
    requires !EndsRound(n, OperationEnded(which, ok))
    ensures OnOperationEnded(cfg, n, which, ok, env).rescale.failedSince == n.rescale.failedSince
  {
    hide MaybeRescale, FinishEviction, FinishForgetting;
  }

  lemma {:induction false} ApplyEach(failedSince: map<Name, Time>, s: Sighting, more: seq<Sighting>)
    requires |more| <= 1
    ensures ApplyAll(failedSince, [s] + more) == if more == [] then Apply(failedSince, s)
              else Apply(Apply(failedSince, s), more[0])
  {
    assert ApplyAll(failedSince, []) == failedSince;
    assert ApplyAll(failedSince, [s]) == Apply(failedSince, s);
    if more == [] {
      assert [s] + more == [s];
    } else {
      assert ([s] + more)[..1] == [s];
    }
  }

  lemma {:induction false} TurnTracks(cfg: Config, n: Node, e: Event, env: Env)
    ensures Step(cfg, n, e, env).rescale.failedSince == ApplyAll(n.rescale.failedSince, Sightings(cfg, n, e, env))
  {
    hide MaybeRescale, TrackFailures, OnRescaleCoordinationDone, OnMembershipChange, OnUserEvent, OnForgetProbed,
         OnJoinWaitExpired, FirstBootSteps;
    assert forall s: Sighting :: [s][..0] == [];
    assert forall s: Sighting, t: Sighting :: ([s] + [t])[..1] == [s];
    if e.MembershipChange? {
      MembershipIsQuietThenRescales(cfg, n, env.view, env.now);
      RescaleTracks(cfg, FirstBootSteps(n, env.view), env.view, env.now);
    } else if e.RescaleCheck? {
      RescaleTracks(cfg, n, env.view, env.now);
    } else if e.OperationEnded? {
      if EndsRound(n, e) {
        EndOfRoundTracks(cfg, Retire(n, e.which), env);
        assert RemovedBy(Retire(n, e.which), env) == RemovedBy(n, env);
        ApplyEach(n.rescale.failedSince, Erased(RemovedBy(n, env)), Evaluation(cfg, env));
      } else {
        ResultTracks(cfg, n, e.which, e.ok, env);
      }
    } else {
      OtherTurnsAreQuiet(cfg, n, e, env);
    }
  }

  lemma {:induction false} SightingsAreTracked(failedSince: map<Name, Time>, history: seq<Sighting>, s: seq<Sighting>)
    requires Tracks(failedSince, history) && RealTimes(failedSince)
    requires forall i :: 0 <= i < |s| ==> s[i].Observed? ==> s[i].now > NO_TIME
    ensures Tracks(ApplyAll(failedSince, s), history + s) && RealTimes(ApplyAll(failedSince, s))
  {
    if s == [] {
      assert history + s == history;
    } else {
      var last := |s| - 1;
      SightingsAreTracked(failedSince, history, s[..last]);
      SightingIsTracked(ApplyAll(failedSince, s[..last]), history + s[..last], s[last]);
      assert (history + s[..last]) + [s[last]] == history + s;
    }
  }

  /**
   * Over any run from a boot, the failure clock lists exactly the machines that were failed the last
   * time they were looked at, each with the start of its last unbroken run of failed observations.
   */
  lemma {:induction false} FailureClockIsTheLastOutage(cfg: Config, file: LoadResult, turns: seq<Turn>)
    requires Legal(cfg, ChooseInitialState(cfg, Fresh(), file), turns)
    ensures var n := ChooseInitialState(cfg, Fresh(), file);
            && Tracks(Run(cfg, n, turns).rescale.failedSince, History(cfg, n, turns))
            && RealTimes(Run(cfg, n, turns).rescale.failedSince)
  {
    hide Step;
    var n := ChooseInitialState(cfg, Fresh(), file);
    assert n.rescale.failedSince == map[];
    if turns != [] {
      var before, last := turns[..|turns| - 1], turns[|turns| - 1];
      var mid := Run(cfg, n, before);
      FailureClockIsTheLastOutage(cfg, file, before);
      TurnTracks(cfg, mid, last.event, last.env);
      SightingsAreTracked(mid.rescale.failedSince, History(cfg, n, before), Sightings(cfg, mid, last.event, last.env));
    }
  }

  // --- Eviction follows one outage ---

  /** The clock never runs backwards. */
  predicate InTime(turns: seq<Turn>) {
    forall i, j :: 0 <= i < j < |turns| ==> turns[i].env.now <= turns[j].env.now
  }

  /** Hits at real instants, in order, none after now. */
  predicate Steady(beats: seq<Beat>, now: Time) {
    && Real(beats) && InOrder(beats)
    && forall i :: 0 <= i < |beats| ==> beats[i].Hit? ==> beats[i].now <= now
  }

  lemma {:induction false} OneMoreBeat(beats: seq<Beat>, b: Beat, now: Time)
    requires Steady(beats, now) && now > NO_TIME && (b.Hit? ==> b.now == now)
    ensures Steady(beats + [b], now)
  {}

  lemma {:induction false} BeatsOfMore(history: seq<Sighting>, s: seq<Sighting>, name: Name, now: Time)
    requires Steady(BeatsOf(history, name), now) && now > NO_TIME
    requires forall i :: 0 <= i < |s| ==> s[i].Observed? ==> s[i].now == now
    ensures Steady(BeatsOf(history + s, name), now)
  {
    hide Steady;
    if s == [] {
      assert history + s == history;
    } else {
      var last := |s| - 1;
      BeatsOfMore(history, s[..last], name, now);
      assert (history + s)[..|history + s| - 1] == history + s[..last];
      var rest := BeatsOf(history + s[..last], name);
      OneMoreBeat(rest, Miss, now);
      OneMoreBeat(rest, Hit(now), now);
    }
  }

  lemma {:induction false} SightingsAreNow(cfg: Config, n: Node, e: Event, env: Env)
    ensures forall i :: 0 <= i < |Sightings(cfg, n, e, env)| ==>
              Sightings(cfg, n, e, env)[i].Observed? ==> Sightings(cfg, n, e, env)[i].now == env.now
  {}

  lemma {:induction false} BeatsAreInOrder(cfg: Config, n: Node, turns: seq<Turn>, name: Name, now: Time)
    requires Legal(cfg, n, turns) && InTime(turns)
    requires turns != [] ==> turns[|turns| - 1].env.now <= now
    ensures Steady(BeatsOf(History(cfg, n, turns), name), now)
  {
    hide Step, Possible, Sightings, Run;
    if turns != [] {
      var before, last := turns[..|turns| - 1], turns[|turns| - 1];
      SightingsAreNow(cfg, Run(cfg, n, before), last.event, last.env);
      BeatsAreInOrder(cfg, n, before, name, last.env.now);
      BeatsOfMore(History(cfg, n, before), Sightings(cfg, Run(cfg, n, before), last.event, last.env), name,
        last.env.now);
    }
  }

  /**
   * At any point of a run, a machine that has just been looked at is evictable exactly when its
   * current outage, counted from its first unbroken observation, has lasted the grace period:
   * two separate outages never add up.
   */
  lemma {:induction false} EvictableAfterOneOutage(cfg: Config, file: LoadResult, turns: seq<Turn>, v: View, now: Time,
      name: Name)
    requires var n := ChooseInitialState(cfg, Fresh(), file); Legal(cfg, n, turns) && InTime(turns)
    requires turns != [] && turns[|turns| - 1].env.now <= now && WellNamed(v)
    requires var h := History(cfg, ChooseInitialState(cfg, Fresh(), file), turns);
             h != [] && h[|h| - 1].Observed? && h[|h| - 1].failed == FailedNames(v)
    ensures var n := ChooseInitialState(cfg, Fresh(), file);
            var beats := BeatsOf(History(cfg, n, turns), name);
            name in Evictable(v, Run(cfg, n, turns).rescale.failedSince, cfg.grace, now) <==>
              exists i :: 0 <= i < |beats| && Unbroken(beats, i) && beats[i].now + cfg.grace <= now
  {
    hide Run, Legal, Evictable;
    var n := ChooseInitialState(cfg, Fresh(), file);
    var since, h := Run(cfg, n, turns).rescale.failedSince, History(cfg, n, turns);
    var beats := BeatsOf(h, name);
    FailureClockIsTheLastOutage(cfg, file, turns);
    BeatsAreInOrder(cfg, n, turns, name, now);
    ClockMeasuresTheRun(beats, cfg.grace, now);
    ClockShowsTheRun(beats);
    ViewLaws.EvictableAreTheDurablyFailed(v, since, cfg.grace, now);
    ViewLaws.NamesAreListedOnce(v, IsFailed);
    assert name in since <==> Clock(beats) != NO_TIME;
  }
}

/**
 * The rules of a machine in the cluster, one turn at a time, in terms of what it sees: whom it lets be
 * forgotten, when it evicts or resizes, and what every result leaves. No rule names a function of the daemon.
 */
module ClusterRules {
  import opened Names
  import opened Lifecycle
  import opened ClusterView
  import opened NodeStep
  import opened NodeRuns
  import opened Sights
  import ViewLaws

  // --- Forget-me ---

  /** An idle server that leads answers for a machine it sees alive on its first boot, and for no other. */
  ghost predicate Answers(cfg: Config, n: Node, v: View, x: Name) {
    n.state == StableServer && Leads(v, cfg.name) && SeesNewcomer(v, x)
  }

  lemma {:induction false} AnswersAreAllowed(cfg: Config, n: Node, v: View, x: Name)
    requires WellNamed(v)
    ensures CanForget(cfg, n, v, x) <==> Answers(cfg, n, v, x)
  {
    LeaderIsElected(v, cfg.name);
    NewcomersAreSeen(v, x);
    hide IsCoordinator, IsVirgin, Leads, SeesNewcomer, WellNamed;
  }

  /** A request is looked up exactly when it names a machine this one answers for. */
  lemma {:induction false} LookupRule(cfg: Config, n: Node, name: Option<Name>, env: Env)
    requires WellNamed(env.view)
    ensures Step(cfg, n, UserEventReceived(ForgetMe(name)), env) ==
            if name.Some? && Answers(cfg, n, env.view, name.value) then n.(lookups := n.lookups + [name.value]) else n
  {
    if name.Some? {
      AnswersAreAllowed(cfg, n, env.view, name.value);
    }
    hide CanForget, Answers, WellNamed;
  }

  /**
   * The answer to a lookup is acted on exactly when the machine it names still is one: a free name is
   * confirmed, and a leftover is erased by a round, once nobody alive changes the etcd membership.
   */
  lemma {:induction false} ProbeRule(cfg: Config, n: Node, x: Name, found: bool, env: Env)
    requires WellNamed(env.view)
    ensures Step(cfg, n, ForgetProbed(x, found), env) ==
            if !Answers(cfg, n, env.view, x) then n
            else if !found then n.(sent := n.sent + if env.sendOk then [Forgotten(Some(x))] else [])
            else if SeesEtcdChange(env.view) then n
            else n.(state := RescaleCoordinating, published := n.published + [RescaleCoordinating],
                    pending := n.pending + [EraseLeftover(x)],
                    rescale := n.rescale.(timer := NO_TIME, order := NO_ORDER, evicting := [], cleaning := x))
  {
    AnswersAreAllowed(cfg, n, env.view, x);
    EtcdChangeIsSeen(env.view);
    hide CanForget, Answers, WellNamed, EtcdIsChanging, SeesEtcdChange;
  }

  /** What a turn that is neither a request nor an answer to a lookup cannot do. */
  ghost predicate AnswersNothing(n: Node, m: Node) {
    && m.lookups == n.lookups
    && (m.rescale.cleaning == n.rescale.cleaning || m.rescale.cleaning == "")
    && forall i :: |n.pending| <= i < |m.pending| ==> !m.pending[i].EraseLeftover?
  }

  lemma {:induction false} EvaluationsAnswerNothing(cfg: Config, n: Node, v: View, now: Time)
    ensures AnswersNothing(n, MaybeRescale(cfg, n, v, now))
  {
    hide Evictable, NextEviction, K3sServerCount, DesiredServers, IsCoordinator, EtcdIsChanging, Lowest, Highest,
         TrackFailures;
  }

  lemma {:induction false} ChangesAnswerNothing(cfg: Config, n: Node, env: Env)
    ensures AnswersNothing(n, Step(cfg, n, MembershipChange, env))
  {
    MembershipIsQuietThenRescales(cfg, n, env.view, env.now);
    EvaluationsAnswerNothing(cfg, FirstBootSteps(n, env.view), env.view, env.now);
    MaybeRescaleEffect(cfg, FirstBootSteps(n, env.view), env.view, env.now);
    FirstBootsAnswerNothing(n, env.view);
    hide MaybeRescale, OnMembershipChange, FirstBootSteps, QuietTurn;
  }

  lemma {:induction false} FirstBootsAnswerNothing(n: Node, v: View)
    ensures var m := FirstBootSteps(n, v); AnswersNothing(n, m) && |n.pending| <= |m.pending|
  {
    hide Lowest, StableServerCount, ServerTarget;
  }

  lemma {:induction false} RoundEndsAnswerNothing(cfg: Config, n: Node, which: nat, env: Env)
    requires which < |n.pending| && n.state == RescaleCoordinating
    ensures AnswersNothing(n, OnRescaleCoordinationDone(cfg, Retire(n, which), env))
  {
    var r := Retire(n, which);
    hide MaybeRescale;
    if r.rescale.cleaning != "" {
      var done := Publish(r.(rescale := r.rescale.(cleaning := "")), StableServer);
      EvaluationsAnswerNothing(cfg, ConfirmForgotten(done, r.rescale.cleaning, env.sendOk), env.view, env.now);
    } else if r.rescale.order.target == "" {
      var removed := set name | name in r.rescale.evicting && name in env.removable;
      var done := r.(rescale := r.rescale.(failedSince := r.rescale.failedSince - removed, evicting := []));
      EvaluationsAnswerNothing(cfg, Publish(done, StableServer), env.view, env.now);
    }
  }

  lemma {:induction false} ResultsAnswerNothing(cfg: Config, n: Node, which: nat, ok: bool, env: Env)
    ensures AnswersNothing(n, Step(cfg, n, OperationEnded(which, ok), env))
  {
    if which < |n.pending| && ok && n.state == RescaleCoordinating {
      RoundEndsAnswerNothing(cfg, n, which, env);
    }
    hide OnRescaleCoordinationDone;
  }

  lemma {:induction false} StartsAnswerNothing(cfg: Config, n: Node, v: View)
    ensures AnswersNothing(n, OnBootstrapStart(cfg, n, v))
  {
    hide Lowest, StableServerCount, ServerTarget, RankOf, AliveNames, ExistingClusterSeen;
  }

  lemma {:induction false} MessagesAnswerNothing(cfg: Config, n: Node, event: UserEvent, env: Env)
    requires !event.ForgetMe?
    ensures AnswersNothing(n, Step(cfg, n, UserEventReceived(event), env))
  {
    hide OnBootstrapStart, Lowest;
    if event == BootstrapStart {
      StartsAnswerNothing(cfg, n, env.view);
    }
  }

  lemma {:induction false} ButtonsAnswerNothing(cfg: Config, n: Node, e: Event, env: Env)
    requires e.RequestBootstrap? || e.ConfirmBootstrap? || e.CancelBootstrap? || e.BootstrapWaitExpired?
               || e.ForgetRetry? || e.JoinWaitExpired?
    ensures AnswersNothing(n, Step(cfg, n, e, env))
  {
    hide ExistingClusterSeen, Lowest;
  }

  lemma {:induction false} OthersAnswerNothing(cfg: Config, n: Node, e: Event, env: Env)
    requires !e.ForgetProbed? && !(e.UserEventReceived? && e.event.ForgetMe?)
    ensures AnswersNothing(n, Step(cfg, n, e, env))
  {
    match e {
      case MembershipChange => ChangesAnswerNothing(cfg, n, env);
      case OperationEnded(which, ok) => ResultsAnswerNothing(cfg, n, which, ok, env);
      case RescaleCheck =>
        EvaluationsAnswerNothing(cfg, n, env.view, env.now);
        hide MaybeRescale;
      case UserEventReceived(event) =>
        hide Step, AnswersNothing;
        MessagesAnswerNothing(cfg, n, event, env);
      case _ =>
        hide Step, AnswersNothing;
        ButtonsAnswerNothing(cfg, n, e, env);
    }
  }

  /**
   * A machine in the cluster cannot be erased from K3s by this protocol: whatever happens, a name is looked
   * up, or cleaned, only if the one machine that sees itself lead sees that name alive on its first boot.
   */
  lemma {:induction false} OnlyNewcomersAreForgotten(cfg: Config, n: Node, e: Event, env: Env)
    requires WellNamed(env.view)
    ensures var m := Step(cfg, n, e, env);
            && (m.lookups != n.lookups ==>
                  exists x :: m.lookups == n.lookups + [x] && Answers(cfg, n, env.view, x))
            && (m.rescale.cleaning != n.rescale.cleaning && m.rescale.cleaning != "" ==>
                  Answers(cfg, n, env.view, m.rescale.cleaning) && !SeesEtcdChange(env.view))
            && (forall i :: |n.pending| <= i < |m.pending| && m.pending[i].EraseLeftover? ==>
                  Answers(cfg, n, env.view, m.pending[i].name) && !SeesEtcdChange(env.view))
  {
    hide Step, WellNamed, Answers, SeesEtcdChange;
    match e {
      case ForgetProbed(x, found) => ProbeRule(cfg, n, x, found, env);
      case UserEventReceived(event) =>
        if event.ForgetMe? {
          LookupRule(cfg, n, event.name, env);
        } else {
          OthersAnswerNothing(cfg, n, e, env);
        }
      case _ => OthersAnswerNothing(cfg, n, e, env);
    }
  }

  // --- Evaluations ---

  /** A deadline expiring, or, in the cluster, any membership change. */
  ghost predicate Evaluates(n: Node, e: Event) {
    e == RescaleCheck || (e == MembershipChange && n.state in CLUSTER_STATES)
  }

  lemma {:induction false} BothEvaluate(cfg: Config, n: Node, e: Event, env: Env)
    requires Evaluates(n, e)
    ensures Step(cfg, n, e, env) == MaybeRescale(cfg, n, env.view, env.now)
  {
    if e == MembershipChange {
      StatesAreListed(n.state);
      InClusterOnlyRescales(cfg, n, env.view, env.now);
    }
    hide MaybeRescale, OnMembershipChange;
  }

  /** The failure clock an evaluation works with: the machines that are failed now, and nobody else. */
  ghost function ClockAt(n: Node, v: View, now: Time): (gone: map<Name, Time>) {
    GoneSince(v, n.rescale.failedSince, now)
  }

  /** The machines whose grace period is over. */
  ghost function Due(cfg: Config, n: Node, v: View, now: Time): (s: set<Name>) {
    set x | x in ClockAt(n, v, now) && ClockAt(n, v, now)[x] + cfg.grace <= now
  }

  /** When the grace periods of the failed machines end. */
  ghost function Evictions(cfg: Config, n: Node, v: View, now: Time): (s: set<Time>) {
    set x | x in ClockAt(n, v, now) :: ClockAt(n, v, now)[x] + cfg.grace
  }

  ghost predicate KeepsClock(n: Node, m: Node, v: View, now: Time) {
    m.rescale.failedSince == ClockAt(n, v, now)
  }

  /** A turn that may act: of a stable server that leads, is not held back, and sees nobody alive change etcd. */
  ghost predicate MayAct(cfg: Config, n: Node, v: View, now: Time) {
    && cfg.rescaleEnabled && n.state == StableServer && Leads(v, cfg.name) && n.rescale.retryNotBefore <= now
    && !SeesEtcdChange(v)
  }

  lemma {:induction false} ClockIsKept(n: Node, v: View, now: Time)
    requires WellNamed(v)
    ensures KeepsClock(n,
              n.(rescale := n.rescale.(failedSince := TrackFailures(n.rescale.failedSince, FailedNames(v), now))), v,
                now)
  {
    ListsAreSets(v);
    hide FailedNames, WellNamed, FailedOnes;
  }

  lemma {:induction false} BlockedEvaluation(cfg: Config, n: Node, v: View, now: Time)
    requires WellNamed(v) && cfg.rescaleEnabled && !MayAct(cfg, n, v, now)
    ensures var m := MaybeRescale(cfg, n, v, now);
            && KeepsClock(n, m, v, now)
            && m == n.(rescale := if n.state == StableServer && !Leads(v, cfg.name) then
                                    Rescale(m.rescale.failedSince, NO_TIME, NO_TIME, NO_TIME, NO_ORDER, [], "")
                                  else if n.state == StableServer && n.rescale.retryNotBefore <= now then
                                    n.rescale.(failedSince := m.rescale.failedSince, timer := NO_TIME)
                                  else n.rescale.(failedSince := m.rescale.failedSince))
  {
    LeaderIsElected(v, cfg.name);
    EtcdChangeIsSeen(v);
    ClockIsKept(n, v, now);
    hide IsCoordinator, Leads, EtcdIsChanging, SeesEtcdChange, WellNamed, Repair, TrackFailures, FailedNames,
         FailedOnes,
         GoneSince;
  }

  /**
   * An evaluation that may not act starts nothing. It keeps the failure clock, which every machine does; a
   * server that does not lead drops all it had decided, and one that sees somebody alive join, leave or come
   * back to etcd waits for the next change.
   */
  lemma {:induction false} BlockedRule(cfg: Config, n: Node, e: Event, env: Env)
    requires WellNamed(env.view) && Evaluates(n, e)
    ensures var m := Step(cfg, n, e, env); var v := env.view;
            && (!cfg.rescaleEnabled ==> m == n)
            && (cfg.rescaleEnabled && !MayAct(cfg, n, v, env.now) ==>
                  && KeepsClock(n, m, v, env.now)
                  && m == n.(rescale := if n.state == StableServer && !Leads(v, cfg.name) then
                                       Rescale(m.rescale.failedSince, NO_TIME, NO_TIME, NO_TIME, NO_ORDER, [], "")
                                     else if n.state == StableServer && n.rescale.retryNotBefore <= env.now then
                                       n.rescale.(failedSince := m.rescale.failedSince, timer := NO_TIME)
                                     else n.rescale.(failedSince := m.rescale.failedSince)))
  {
    BothEvaluate(cfg, n, e, env);
    if cfg.rescaleEnabled && !MayAct(cfg, n, env.view, env.now) {
      BlockedEvaluation(cfg, n, env.view, env.now);
    }
    if !cfg.rescaleEnabled {
      DisabledEvaluation(cfg, n, env.view, env.now);
    }
    hide Step, MaybeRescale, WellNamed, KeepsClock, MayAct, Leads;
  }

  lemma {:induction false} DisabledEvaluation(cfg: Config, n: Node, v: View, now: Time)
    requires !cfg.rescaleEnabled
    ensures MaybeRescale(cfg, n, v, now) == n
  {}

  // --- Acting: evictions first ---

  /** The machine as the evaluation works on it: its failure clock is up to date. */
  ghost function Updated(n: Node, v: View, now: Time): (m: Node) {
    n.(rescale := n.rescale.(failedSince := TrackFailures(n.rescale.failedSince, FailedNames(v), now)))
  }

  lemma {:induction false} ActingRepairs(cfg: Config, n: Node, v: View, now: Time)
    requires WellNamed(v) && MayAct(cfg, n, v, now)
    ensures MaybeRescale(cfg, n, v, now) == Repair(cfg, Updated(n, v, now), v, now)
  {
    LeaderIsElected(v, cfg.name);
    EtcdChangeIsSeen(v);
    hide IsCoordinator, Leads, EtcdIsChanging, SeesEtcdChange, WellNamed, Repair, TrackFailures, FailedNames;
  }

  lemma {:induction false} EvictableAreDue(cfg: Config, n: Node, v: View, now: Time)
    requires WellNamed(v)
    ensures var names := Evictable(v, Updated(n, v, now).rescale.failedSince, cfg.grace, now);
            && IsSorted(names) && Distinct(names)
            && (forall x :: x in names <==> x in Due(cfg, n, v, now))
            && (names == [] <==> Due(cfg, n, v, now) == {})
  {
    var gone := ClockAt(n, v, now);
    ClockIsKept(n, v, now);
    ClockIsSettled(n, v, now);
    ViewLaws.EvictableAreTheDurablyFailed(v, gone, cfg.grace, now);
    DurableFailuresAreFound(v, gone, cfg.grace, now);
    hide NextEviction, Evictable, WellNamed, TrackFailures, FailedNames, GoneSince, ClockAt, IsEarliest, IsSorted,
         ViewLaws.Those;
    var names := Evictable(v, gone, cfg.grace, now);
    forall x ensures x in names <==> x in Due(cfg, n, v, now) {}
    hide Due;
    if names != [] {
      assert names[0] in Due(cfg, n, v, now);
    }
    if Due(cfg, n, v, now) != {} {
      var x :| x in Due(cfg, n, v, now);
      assert x in names;
    }
  }

  lemma {:induction false} ClockIsSettled(n: Node, v: View, now: Time)
    ensures GoneSince(v, ClockAt(n, v, now), now) == ClockAt(n, v, now)
  {}

  lemma {:induction false} NextEvictionWakes(cfg: Config, n: Node, v: View, now: Time)
    requires WellNamed(v) && Due(cfg, n, v, now) == {}
    ensures IsEarliest(NextEviction(v, Updated(n, v, now).rescale.failedSince, cfg.grace, now),
              Evictions(cfg, n, v, now))
    ensures forall d :: d in Evictions(cfg, n, v, now) ==> d > now
  {
    var gone := ClockAt(n, v, now);
    ClockIsKept(n, v, now);
    ClockIsSettled(n, v, now);
    DurableFailuresAreFound(v, gone, cfg.grace, now);
    hide NextEviction, Evictable, WellNamed, TrackFailures, FailedNames, GoneSince, ClockAt, IsEarliest;
    forall x | x in gone ensures gone[x] + cfg.grace > now {
      assert x !in Due(cfg, n, v, now);
    }
    assert Evictions(cfg, n, v, now) == set x | x in gone && gone[x] + cfg.grace > now :: gone[x] + cfg.grace;
  }

  /** Due evictions come before everything else: all the machines whose grace period is over, in one round. */
  lemma {:induction false} EvictionRule(cfg: Config, n: Node, e: Event, env: Env)
    requires WellNamed(env.view) && Evaluates(n, e) && MayAct(cfg, n, env.view, env.now)
    requires Due(cfg, n, env.view, env.now) != {}
    ensures var m := Step(cfg, n, e, env); var names := m.rescale.evicting;
            && KeepsClock(n, m, env.view, env.now)
            && IsSorted(names) && Distinct(names) && (forall x :: x in names <==> x in Due(cfg, n, env.view, env.now))
            && m == n.(state := RescaleCoordinating, published := n.published + [RescaleCoordinating],
                       pending := n.pending + [DeleteEvicted(names)],
                       rescale := n.rescale.(failedSince := m.rescale.failedSince, timer := NO_TIME, order := NO_ORDER,
                                             evicting := names, cleaning := ""))
  {
    BothEvaluate(cfg, n, e, env);
    ActingRepairs(cfg, n, env.view, env.now);
    EvictableAreDue(cfg, n, env.view, env.now);
    ClockIsKept(n, env.view, env.now);
    hide Step, MaybeRescale, WellNamed, MayAct, Due, Evictable, IsSorted, TrackFailures, FailedNames, FailedOnes,
         GoneSince;
  }

  // --- Acting: the number of servers ---

  /** The size the cluster should have, and since when it has another one. */
  ghost predicate Balanced(v: View) { |Slots(v)| == ServerTarget(|Everyone(v)|) }

  ghost function OffSince(n: Node, now: Time): (t: Time) {
    if n.rescale.imbalanceSince == NO_TIME then now else n.rescale.imbalanceSince
  }

  /** The turn starts nothing: it notes the imbalance, and sets the timer. */
  ghost predicate Waits(n: Node, m: Node, since: Time, deadlines: set<Time>) {
    && m == n.(rescale := n.rescale.(failedSince := m.rescale.failedSince, imbalanceSince := since,
                                     timer := m.rescale.timer))
    && IsEarliest(m.rescale.timer, deadlines)
  }

  /** The turn starts a round to convert one machine, which is to join this one afterwards. */
  ghost predicate Designates(cfg: Config, n: Node, m: Node, target: Name, role: Role) {
    m == n.(state := RescaleCoordinating, published := n.published + [RescaleCoordinating],
            pending := n.pending + [PrepareConversion(target)],
            rescale := n.rescale.(failedSince := m.rescale.failedSince, imbalanceSince := NO_TIME, timer := NO_TIME,
                                  order := Order(target, role, cfg.localIP), evicting := [], cleaning := ""))
  }

  ghost predicate SeesNone(v: View, tag: State) {
    forall m :: m in v ==> !(m.status == Alive && m.tag == tag)
  }

  lemma {:induction false} EarliestWakes(t: Time, deadlines: set<Time>, d: Time)
    requires IsEarliest(t, deadlines) && d != NO_TIME && forall x :: x in deadlines ==> x != NO_TIME
    ensures IsEarliest(Earliest(t, d), deadlines + {d})
  {}

  lemma {:induction false} EarliestWaits(n: Node, m: Node, next: Time, deadlines: set<Time>, since: Time, d: Time)
    requires IsEarliest(next, deadlines) && d != NO_TIME && forall x :: x in deadlines ==> x != NO_TIME
    requires m == n.(rescale := n.rescale.(imbalanceSince := since, timer := Earliest(next, d)))
    ensures Waits(n, m, since, deadlines + {d})
  {
    EarliestWakes(next, deadlines, d);
    hide IsEarliest, Earliest;
  }

  lemma {:induction false} NotDueResizes(cfg: Config, n: Node, v: View, now: Time)
    requires WellNamed(v) && MayAct(cfg, n, v, now) && Due(cfg, n, v, now) == {}
    ensures var k := Updated(n, v, now);
            MaybeRescale(cfg, n, v, now) ==
              Resize(cfg, k, v, now, NextEviction(v, k.rescale.failedSince, cfg.grace, now))
  {
    ActingRepairs(cfg, n, v, now);
    EvictableAreDue(cfg, n, v, now);
    hide MaybeRescale, MayAct, Due, Evictable, NextEviction, Resize, TrackFailures, FailedNames, WellNamed;
  }

  lemma {:induction false} BalancedResize(cfg: Config, n: Node, v: View, now: Time, next: Time)
    requires WellNamed(v) && Balanced(v)
    ensures var m := Resize(cfg, n, v, now, next);
            m == n.(rescale := n.rescale.(imbalanceSince := NO_TIME, timer := next))
  {
    SizesAreCounted(v);
    hide Slots, Everyone, ServerTarget, WellNamed, K3sServerCount, Population, ChooseConversionTarget;
  }

  lemma {:induction false} PatientResize(cfg: Config, n: Node, v: View, now: Time, next: Time)
    requires WellNamed(v) && now > NO_TIME && !Balanced(v) && OffSince(n, now) + cfg.settle > now
    ensures var m := Resize(cfg, n, v, now, next); var off := OffSince(n, now);
            m == n.(rescale := n.rescale.(imbalanceSince := off, timer := Earliest(next, off + cfg.settle)))
  {
    SizesAreCounted(v);
    hide Slots, Everyone, ServerTarget, WellNamed, K3sServerCount, Population, ChooseConversionTarget, Earliest;
  }

  lemma {:induction false} UpdatedWaits(n: Node, v: View, now: Time, m: Node, since: Time, deadlines: set<Time>)
    requires WellNamed(v) && Waits(Updated(n, v, now), m, since, deadlines)
    requires m.rescale.failedSince == Updated(n, v, now).rescale.failedSince
    ensures Waits(n, m, since, deadlines) && KeepsClock(n, m, v, now)
  {
    ClockIsKept(n, v, now);
    hide IsEarliest, TrackFailures, FailedNames, FailedOnes, GoneSince, WellNamed;
  }

  lemma {:induction false} UpdatedDesignates(cfg: Config, n: Node, v: View, now: Time, m: Node, target: Name,
      role: Role)
    requires WellNamed(v) && Designates(cfg, Updated(n, v, now), m, target, role)
    requires m.rescale.failedSince == Updated(n, v, now).rescale.failedSince
    ensures Designates(cfg, n, m, target, role) && KeepsClock(n, m, v, now)
  {
    ClockIsKept(n, v, now);
    hide TrackFailures, FailedNames, FailedOnes, GoneSince, WellNamed;
  }

  lemma {:induction false} ResizeLeavesTheClock(cfg: Config, n: Node, v: View, now: Time, next: Time)
    ensures Resize(cfg, n, v, now, next).rescale.failedSince == n.rescale.failedSince
  {
    hide K3sServerCount, DesiredServers, ChooseConversionTarget;
  }

  lemma {:induction false} BalancedEvaluation(cfg: Config, n: Node, v: View, now: Time)
    requires WellNamed(v) && MayAct(cfg, n, v, now) && Due(cfg, n, v, now) == {} && Balanced(v)
    ensures var m := MaybeRescale(cfg, n, v, now);
            KeepsClock(n, m, v, now) && Waits(n, m, NO_TIME, Evictions(cfg, n, v, now))
  {
    var k := Updated(n, v, now);
    var next := NextEviction(v, k.rescale.failedSince, cfg.grace, now);
    NotDueResizes(cfg, n, v, now);
    NextEvictionWakes(cfg, n, v, now);
    BalancedResize(cfg, k, v, now, next);
    hide MaybeRescale, Due, MayAct, NextEviction, Resize, WellNamed, Evictions, IsEarliest, Updated, KeepsClock,
         Balanced;
    UpdatedWaits(n, v, now, MaybeRescale(cfg, n, v, now), NO_TIME, Evictions(cfg, n, v, now));
  }

  lemma {:induction false} PatientEvaluation(cfg: Config, n: Node, v: View, now: Time, deadline: Time)
    requires WellNamed(v) && now > NO_TIME && MayAct(cfg, n, v, now) && Due(cfg, n, v, now) == {}
    requires !Balanced(v) && deadline == OffSince(n, now) + cfg.settle > now
    ensures var m := MaybeRescale(cfg, n, v, now);
            KeepsClock(n, m, v, now) && Waits(n, m, OffSince(n, now), Evictions(cfg, n, v, now) + {deadline})
  {
    var k := Updated(n, v, now);
    var next := NextEviction(v, k.rescale.failedSince, cfg.grace, now);
    assert OffSince(k, now) == OffSince(n, now);
    hide OffSince;
    NotDueResizes(cfg, n, v, now);
    NextEvictionWakes(cfg, n, v, now);
    PatientResize(cfg, k, v, now, next);
    hide MaybeRescale, Due, MayAct, NextEviction, Resize, WellNamed, Evictions, IsEarliest, Updated, KeepsClock,
         Balanced,
         Earliest;
    EarliestWaits(k, MaybeRescale(cfg, n, v, now), next, Evictions(cfg, n, v, now), OffSince(n, now), deadline);
    hide Waits;
    UpdatedWaits(n, v, now, MaybeRescale(cfg, n, v, now), OffSince(n, now), Evictions(cfg, n, v, now) + {deadline});
  }

  /** Balanced: no imbalance is noted, and the machine wakes at the first eviction. */
  lemma {:induction false} BalanceRule(cfg: Config, n: Node, e: Event, env: Env)
    requires GoodEnv(env) && Evaluates(n, e) && MayAct(cfg, n, env.view, env.now)
    requires Due(cfg, n, env.view, env.now) == {} && Balanced(env.view)
    ensures var m := Step(cfg, n, e, env);
            && KeepsClock(n, m, env.view, env.now)
            && Waits(n, m, NO_TIME, Evictions(cfg, n, env.view, env.now))
  {
    BothEvaluate(cfg, n, e, env);
    hide Step, MaybeRescale, MayAct, Due, Evictions, Balanced, Waits, KeepsClock, Evaluates, WellNamed;
    BalancedEvaluation(cfg, n, env.view, env.now);
  }

  /** Off its size, but not for the settle delay: nothing is started before it is over. */
  lemma {:induction false} PatienceRule(cfg: Config, n: Node, e: Event, env: Env)
    requires GoodEnv(env) && Evaluates(n, e) && MayAct(cfg, n, env.view, env.now)
    requires Due(cfg, n, env.view, env.now) == {} && !Balanced(env.view)
    requires OffSince(n, env.now) + cfg.settle > env.now
    ensures var m := Step(cfg, n, e, env); var off := OffSince(n, env.now);
            && KeepsClock(n, m, env.view, env.now)
            && Waits(n, m, off, Evictions(cfg, n, env.view, env.now) + {off + cfg.settle})
  {
    hide Step, MaybeRescale, MayAct, Due, Evictions, Balanced, Waits, OffSince, KeepsClock, Evaluates, WellNamed, ClockAt;
    var off := OffSince(n, env.now);
    BothEvaluate(cfg, n, e, env);
    PatientEvaluation(cfg, n, env.view, env.now, off + cfg.settle);
  }

  // --- Growing and shrinking ---

  lemma {:induction false} NobodyIsNobody(v: View, tag: State)
    requires WellNamed(v)
    ensures SeesNone(v, tag) <==> Lowest(v, tag).name == ""
    ensures SeesNone(v, tag) <==> Highest(v, tag).name == ""
  {
    FirstIsFound(v, tag);
    LastIsFound(v, tag);
    hide Lowest, Highest;
  }

  /** Too few servers for long enough: the first stable agent is promoted, if there is one. */
  lemma {:induction false} GrowingResize(cfg: Config, n: Node, v: View, now: Time, next: Time)
    requires WellNamed(v) && now > NO_TIME
    requires |Slots(v)| < ServerTarget(|Everyone(v)|) && OffSince(n, now) + cfg.settle <= now
    ensures var m := Resize(cfg, n, v, now, next); var first := Lowest(v, StableAgent).name;
            if first != "" then Designates(cfg, n, m, first, Server)
            else m == n.(rescale := n.rescale.(imbalanceSince := OffSince(n, now),
                                               timer := Earliest(next, now + cfg.settle)))
  {
    SizesAreCounted(v);
    hide Slots, Everyone, ServerTarget, WellNamed, K3sServerCount, Population, Lowest, Earliest;
  }

  /** Too many for long enough: the last stable server is demoted, unless it is this machine. */
  lemma {:induction false} ShrinkingResize(cfg: Config, n: Node, v: View, now: Time, next: Time)
    requires WellNamed(v) && now > NO_TIME
    requires |Slots(v)| > ServerTarget(|Everyone(v)|) && OffSince(n, now) + cfg.settle <= now
    ensures var m := Resize(cfg, n, v, now, next); var last := Highest(v, StableServer).name;
            if last != "" && last != cfg.name then Designates(cfg, n, m, last, Agent)
            else m == n.(rescale := n.rescale.(imbalanceSince := OffSince(n, now),
                                               timer := Earliest(next, now + cfg.settle)))
  {
    SizesAreCounted(v);
    hide Slots, Everyone, ServerTarget, WellNamed, K3sServerCount, Population, Highest, Earliest;
  }

  /** The conversion an imbalance calls for, and what happens when nobody can be converted. */
  ghost predicate Resizes(cfg: Config, n: Node, m: Node, v: View, now: Time) {
    var again := Evictions(cfg, n, v, now) + {now + cfg.settle};
    && (|Slots(v)| < ServerTarget(|Everyone(v)|) ==>
          && (forall a :: IsFirst(v, StableAgent, a) ==> Designates(cfg, n, m, a.name, Server))
          && (SeesNone(v, StableAgent) ==> Waits(n, m, OffSince(n, now), again)))
    && (|Slots(v)| > ServerTarget(|Everyone(v)|) ==>
          forall s :: IsLast(v, StableServer, s) ==>
            if s.name != cfg.name then Designates(cfg, n, m, s.name, Agent)
            else Waits(n, m, OffSince(n, now), again))
  }

  /**
   * Off its size for the settle delay, with no eviction due, a cluster changes by one machine: too small, its
   * first stable agent is to become a server; too large, its last stable server an agent, never the one that
   * leads. Failed machines keep their place in both sizes. With nobody to convert, the machine looks again.
   */
  lemma {:induction false} SizeRule(cfg: Config, n: Node, e: Event, env: Env)
    requires GoodEnv(env) && Evaluates(n, e) && MayAct(cfg, n, env.view, env.now)
    requires Due(cfg, n, env.view, env.now) == {}
    requires !Balanced(env.view) && OffSince(n, env.now) + cfg.settle <= env.now
    ensures var m := Step(cfg, n, e, env);
            KeepsClock(n, m, env.view, env.now) && Resizes(cfg, n, m, env.view, env.now)
  {
    var v, now := env.view, env.now;
    var k := Updated(n, v, now);
    var next := NextEviction(v, k.rescale.failedSince, cfg.grace, now);
    assert OffSince(k, now) == OffSince(n, now);
    hide Step, MaybeRescale, Due, NextEviction, Resize, WellNamed, Evictions, IsEarliest, Waits, Updated, OffSince,
         KeepsClock,
         Evaluates, Designates, Slots, Everyone, ServerTarget, IsFirst, IsLast, SeesNone, MayAct, Resizes;
    BothEvaluate(cfg, n, e, env);
    NotDueResizes(cfg, n, v, now);
    NextEvictionWakes(cfg, n, v, now);
    ResizeLeavesTheClock(cfg, k, v, now, next);
    ClockIsSeen(n, v, now, Step(cfg, n, e, env));
    if |Slots(v)| < ServerTarget(|Everyone(v)|) {
      Growth(cfg, n, v, now, next);
    } else {
      Shrinkage(cfg, n, v, now, next);
    }
  }

  lemma {:induction false} GrowthIsSeen(cfg: Config, n: Node, v: View, now: Time, next: Time, deadlines: set<Time>)
    requires WellNamed(v) && IsEarliest(next, deadlines) && (forall d :: d in deadlines ==> d > now) && now > NO_TIME
    requires |Slots(v)| < ServerTarget(|Everyone(v)|) && OffSince(n, now) + cfg.settle <= now
    ensures var m := Resize(cfg, Updated(n, v, now), v, now, next); var first := Lowest(v, StableAgent).name;
            if first != "" then Designates(cfg, n, m, first, Server)
            else Waits(n, m, OffSince(n, now), deadlines + {now + cfg.settle})
  {
    var k := Updated(n, v, now);
    var m := Resize(cfg, k, v, now, next);
    assert OffSince(k, now) == OffSince(n, now);
    hide Resize, WellNamed, IsEarliest, Waits, Updated, OffSince, Designates, Slots, Everyone, ServerTarget, Lowest;
    GrowingResize(cfg, k, v, now, next);
    ResizeLeavesTheClock(cfg, k, v, now, next);
    if Lowest(v, StableAgent).name != "" {
      UpdatedDesignates(cfg, n, v, now, m, Lowest(v, StableAgent).name, Server);
    } else {
      EarliestWaits(k, m, next, deadlines, OffSince(n, now), now + cfg.settle);
      UpdatedWaits(n, v, now, m, OffSince(n, now), deadlines + {now + cfg.settle});
    }
  }

  lemma {:induction false} Growth(cfg: Config, n: Node, v: View, now: Time, next: Time)
    requires WellNamed(v) && now > NO_TIME && IsEarliest(next, Evictions(cfg, n, v, now))
    requires forall d :: d in Evictions(cfg, n, v, now) ==> d > now
    requires |Slots(v)| < ServerTarget(|Everyone(v)|) && OffSince(n, now) + cfg.settle <= now
    ensures Resizes(cfg, n, Resize(cfg, Updated(n, v, now), v, now, next), v, now)
  {
    hide Resize, WellNamed, Evictions, IsEarliest, Waits, Updated, OffSince, Designates, Slots, Everyone, ServerTarget,
         IsFirst,
         IsLast, SeesNone, Lowest, Highest;
    GrowthIsSeen(cfg, n, v, now, next, Evictions(cfg, n, v, now));
    FirstIsFound(v, StableAgent);
    NobodyIsNobody(v, StableAgent);
  }

  lemma {:induction false} ShrinkageIsSeen(cfg: Config, n: Node, v: View, now: Time, next: Time, deadlines: set<Time>)
    requires WellNamed(v) && IsEarliest(next, deadlines) && (forall d :: d in deadlines ==> d > now) && now > NO_TIME
    requires |Slots(v)| > ServerTarget(|Everyone(v)|) && OffSince(n, now) + cfg.settle <= now
    ensures var m := Resize(cfg, Updated(n, v, now), v, now, next); var last := Highest(v, StableServer).name;
            if last != "" && last != cfg.name then Designates(cfg, n, m, last, Agent)
            else Waits(n, m, OffSince(n, now), deadlines + {now + cfg.settle})
  {
    var k := Updated(n, v, now);
    var m := Resize(cfg, k, v, now, next);
    var last := Highest(v, StableServer).name;
    assert OffSince(k, now) == OffSince(n, now);
    hide Resize, WellNamed, IsEarliest, Waits, Updated, OffSince, Designates, Slots, Everyone, ServerTarget, Highest;
    ShrinkingResize(cfg, k, v, now, next);
    ResizeLeavesTheClock(cfg, k, v, now, next);
    if last != "" && last != cfg.name {
      UpdatedDesignates(cfg, n, v, now, m, last, Agent);
    } else {
      EarliestWaits(k, m, next, deadlines, OffSince(n, now), now + cfg.settle);
      UpdatedWaits(n, v, now, m, OffSince(n, now), deadlines + {now + cfg.settle});
    }
  }

  lemma {:induction false} Shrinkage(cfg: Config, n: Node, v: View, now: Time, next: Time)
    requires WellNamed(v) && now > NO_TIME && IsEarliest(next, Evictions(cfg, n, v, now))
    requires forall d :: d in Evictions(cfg, n, v, now) ==> d > now
    requires |Slots(v)| > ServerTarget(|Everyone(v)|) && OffSince(n, now) + cfg.settle <= now
    ensures Resizes(cfg, n, Resize(cfg, Updated(n, v, now), v, now, next), v, now)
  {
    hide Resize, WellNamed, Evictions, IsEarliest, Waits, Updated, OffSince, Designates, Slots, Everyone, ServerTarget,
         IsFirst,
         IsLast, SeesNone, Lowest, Highest;
    ShrinkageIsSeen(cfg, n, v, now, next, Evictions(cfg, n, v, now));
    LastIsFound(v, StableServer);
  }

  lemma {:induction false} ClockIsSeen(n: Node, v: View, now: Time, m: Node)
    requires WellNamed(v) && m.rescale.failedSince == Updated(n, v, now).rescale.failedSince
    ensures KeepsClock(n, m, v, now)
  {
    ClockIsKept(n, v, now);
    hide TrackFailures, FailedNames, FailedOnes, GoneSince, WellNamed;
  }

  // --- Outages ---

  /**
   * Machines that fail, in whatever state, leave a balanced cluster alone until they are due for eviction:
   * they still count, and keep their slots, so nobody is converted in the meantime.
   */
  lemma {:induction false} OutagesAreSatOut(cfg: Config, n: Node, e: Event, env: Env, v: View)
    requires GoodEnv(env) && Evaluates(n, e) && Due(cfg, n, env.view, env.now) == {}
    requires WellNamed(v) && Balanced(v) && Outage(v, env.view)
    ensures var m := Step(cfg, n, e, env);
            && m.state == n.state && m.published == n.published && m.pending == n.pending
            && m == n.(rescale := m.rescale)
  {
    OutagesKeepSizes(v, env.view);
    hide Step, Due, Outage, Evaluates, WellNamed, SeesEtcdChange, Leads, KeepsClock;
    assert Balanced(env.view);
    hide Balanced;
    if MayAct(cfg, n, env.view, env.now) {
      BalanceRule(cfg, n, e, env);
    } else {
      BlockedRule(cfg, n, e, env);
    }
  }

  /** Every turn is an evaluation during an outage of this view, with nobody due yet. */
  ghost predicate SitsOut(cfg: Config, n: Node, turns: seq<Turn>, v: View) {
    turns != [] ==>
      var before, last := turns[..|turns| - 1], turns[|turns| - 1];
      && SitsOut(cfg, n, before, v)
      && GoodEnv(last.env) && Evaluates(Run(cfg, n, before), last.event)
      && Outage(v, last.env.view) && Due(cfg, Run(cfg, n, before), last.env.view, last.env.now) == {}
  }

  /** The same over any number of evaluations, with more or fewer machines down at each. */
  lemma {:induction false} LongOutagesAreSatOut(cfg: Config, n: Node, turns: seq<Turn>, v: View)
    requires WellNamed(v) && Balanced(v) && SitsOut(cfg, n, turns, v)
    ensures var m := Run(cfg, n, turns); m == n.(rescale := m.rescale)
  {
    hide Step, Due, Outage, Evaluates, WellNamed, Balanced, GoodEnv;
    if turns != [] {
      var before, last := turns[..|turns| - 1], turns[|turns| - 1];
      LongOutagesAreSatOut(cfg, n, before, v);
      OutagesAreSatOut(cfg, Run(cfg, n, before), last.event, last.env, v);
    }
  }

  // --- Only a leader that sees nobody change etcd starts a round ---

  ghost predicate StartsRound(n: Node, m: Node) {
    exists i :: |n.published| <= i < |m.published| && m.published[i] == RescaleCoordinating
  }

  ghost predicate MayLead(cfg: Config, v: View) { Leads(v, cfg.name) && !SeesEtcdChange(v) }

  lemma {:induction false} EvaluationsLead(cfg: Config, n: Node, v: View, now: Time)
    requires WellNamed(v)
    ensures var m := MaybeRescale(cfg, n, v, now);
            && (MayLead(cfg, v) || m.published == n.published)
            && (m.published == n.published || m.published == n.published + [RescaleCoordinating])
  {
    MaybeRescaleEffect(cfg, n, v, now);
    hide MaybeRescale, WellNamed, Leads, SeesEtcdChange, KeepsClock;
    if !cfg.rescaleEnabled {
      DisabledEvaluation(cfg, n, v, now);
    } else if !MayAct(cfg, n, v, now) {
      BlockedEvaluation(cfg, n, v, now);
    }
  }

  lemma {:induction false} RoundEndsLead(cfg: Config, n: Node, which: nat, env: Env)
    requires WellNamed(env.view) && which < |n.pending| && n.state == RescaleCoordinating
    ensures StartsRound(n, OnRescaleCoordinationDone(cfg, Retire(n, which), env)) ==> MayLead(cfg, env.view)
  {
    var r := Retire(n, which);
    hide MaybeRescale, MayLead, WellNamed;
    if r.rescale.cleaning != "" {
      var done := Publish(r.(rescale := r.rescale.(cleaning := "")), StableServer);
      EvaluationsLead(cfg, ConfirmForgotten(done, r.rescale.cleaning, env.sendOk), env.view, env.now);
    } else if r.rescale.order.target == "" {
      var removed := set name | name in r.rescale.evicting && name in env.removable;
      var done := r.(rescale := r.rescale.(failedSince := r.rescale.failedSince - removed, evicting := []));
      EvaluationsLead(cfg, Publish(done, StableServer), env.view, env.now);
    }
  }

  lemma {:induction false} ResultsLead(cfg: Config, n: Node, which: nat, ok: bool, env: Env)
    requires WellNamed(env.view) && StartsRound(n, Step(cfg, n, OperationEnded(which, ok), env))
    ensures MayLead(cfg, env.view)
  {
    if which < |n.pending| && ok && n.state == RescaleCoordinating {
      RoundEndsLead(cfg, n, which, env);
    }
    hide OnRescaleCoordinationDone, MayLead, WellNamed;
  }

  lemma {:induction false} ChangesLead(cfg: Config, n: Node, env: Env)
    requires WellNamed(env.view) && StartsRound(n, Step(cfg, n, MembershipChange, env))
    ensures MayLead(cfg, env.view)
  {
    MembershipIsQuietThenRescales(cfg, n, env.view, env.now);
    EvaluationsLead(cfg, FirstBootSteps(n, env.view), env.view, env.now);
    FirstBootsStartNoRound(n, env.view);
    hide MaybeRescale, OnMembershipChange, FirstBootSteps, QuietTurn, MayLead, WellNamed;
  }

  lemma {:induction false} FirstBootsStartNoRound(n: Node, v: View)
    ensures var m := FirstBootSteps(n, v); |n.published| <= |m.published| && !StartsRound(n, m)
  {
    hide Lowest, StableServerCount, ServerTarget;
  }

  lemma {:induction false} ProbesLead(cfg: Config, n: Node, x: Name, found: bool, env: Env)
    requires WellNamed(env.view) && StartsRound(n, Step(cfg, n, ForgetProbed(x, found), env))
    ensures MayLead(cfg, env.view)
  {
    ProbeRule(cfg, n, x, found, env);
    hide Step, WellNamed, Leads, SeesNewcomer, SeesEtcdChange;
  }

  lemma {:induction false} StartsStartNoRound(cfg: Config, n: Node, v: View)
    ensures !StartsRound(n, OnBootstrapStart(cfg, n, v))
  {
    hide Lowest, StableServerCount, ServerTarget, RankOf, AliveNames, ExistingClusterSeen;
  }

  lemma {:induction false} MessagesStartNoRound(cfg: Config, n: Node, event: UserEvent, env: Env)
    ensures !StartsRound(n, Step(cfg, n, UserEventReceived(event), env))
  {
    hide OnBootstrapStart, Lowest, CanForget;
    if event == BootstrapStart {
      StartsStartNoRound(cfg, n, env.view);
    }
  }

  lemma {:induction false} ButtonsStartNoRound(cfg: Config, n: Node, e: Event, env: Env)
    requires e.RequestBootstrap? || e.ConfirmBootstrap? || e.CancelBootstrap? || e.BootstrapWaitExpired?
               || e.ForgetRetry? || e.JoinWaitExpired?
    ensures !StartsRound(n, Step(cfg, n, e, env))
  {
    hide ExistingClusterSeen, Lowest;
  }

  /**
   * Whatever happens, a round of any kind only starts on the machine that sees itself lead, and not while it
   * sees anybody alive in one of the six states that change the etcd membership.
   */
  lemma {:induction false} OnlyLeadersStartRounds(cfg: Config, n: Node, e: Event, env: Env)
    requires WellNamed(env.view) && StartsRound(n, Step(cfg, n, e, env))
    ensures Leads(env.view, cfg.name) && !SeesEtcdChange(env.view)
  {
    match e {
      case RescaleCheck =>
        EvaluationsLead(cfg, n, env.view, env.now);
        hide MaybeRescale, Leads, SeesEtcdChange, WellNamed;
      case _ =>
        hide Step, StartsRound, Leads, SeesEtcdChange, WellNamed;
        match e {
          case MembershipChange => ChangesLead(cfg, n, env);
          case OperationEnded(which, ok) => ResultsLead(cfg, n, which, ok, env);
          case ForgetProbed(x, found) => ProbesLead(cfg, n, x, found, env);
          case UserEventReceived(event) => MessagesStartNoRound(cfg, n, event, env);
          case _ => ButtonsStartNoRound(cfg, n, e, env);
        }
    }
  }

  // --- The results ---

  /** A round that was given up: nothing of it is left, and the next one waits for the settle delay. */
  ghost predicate GivesUp(cfg: Config, n: Node, m: Node, now: Time) {
    m == n.(state := StableServer, published := n.published + [StableServer], pending := [],
            rescale := n.rescale.(order := NO_ORDER, evicting := [], cleaning := "", imbalanceSince := NO_TIME,
                                  retryNotBefore := now + cfg.settle, timer := now + cfg.settle))
  }

  /** The machine as a finished round leaves it, before it looks at the cluster again. */
  ghost function Relieved(n: Node, sent: seq<UserEvent>, r: Rescale): (m: Node) {
    n.(state := StableServer, published := n.published + [StableServer], pending := [], sent := n.sent + sent,
       rescale := r)
  }

  lemma {:induction false} RoundFails(cfg: Config, n: Node, env: Env)
    requires n.state == RescaleCoordinating && |n.pending| == 1
    ensures GivesUp(cfg, n, Step(cfg, n, OperationEnded(0, false), env), env.now)
  {
    assert Retire(n, 0).pending == [];
  }

  lemma {:induction false} RoundSucceeds(cfg: Config, n: Node, env: Env)
    requires n.state == RescaleCoordinating && |n.pending| == 1
    ensures Step(cfg, n, OperationEnded(0, true), env) == OnRescaleCoordinationDone(cfg, n.(pending := []), env)
  {
    hide OnRescaleCoordinationDone;
    assert Retire(n, 0) == n.(pending := []);
  }

  lemma {:induction false} OrderIsSent(cfg: Config, n: Node, env: Env)
    requires n.state == RescaleCoordinating && |n.pending| == 1 && n.rescale.cleaning == ""
    requires n.rescale.order.target != ""
    ensures var m := Step(cfg, n, OperationEnded(0, true), env); var r := n.rescale;
            if !env.sendOk then GivesUp(cfg, n, m, env.now)
            else m == Relieved(n, [RescaleConvert(Some(r.order))], r.(order := NO_ORDER, timer := env.now + cfg.settle))
  {
    RoundSucceeds(cfg, n, env);
    hide Step, MaybeRescale;
  }

  lemma {:induction false} CleaningIsConfirmed(cfg: Config, n: Node, env: Env)
    requires n.state == RescaleCoordinating && |n.pending| == 1 && n.rescale.cleaning != ""
    ensures var confirmation := if env.sendOk then [Forgotten(Some(n.rescale.cleaning))] else [];
            Step(cfg, n, OperationEnded(0, true), env) ==
              Step(cfg, Relieved(n, confirmation, n.rescale.(cleaning := "")), RescaleCheck, env)
  {
    RoundSucceeds(cfg, n, env);
    var confirmation := if env.sendOk then [Forgotten(Some(n.rescale.cleaning))] else [];
    var done := Relieved(n, confirmation, n.rescale.(cleaning := ""));
    var k := n.(pending := []);
    assert ConfirmForgotten(Publish(k.(rescale := k.rescale.(cleaning := "")), StableServer), n.rescale.cleaning,
        env.sendOk) == done;
    hide OnOperationEnded, Relieved, ConfirmForgotten, Publish, MaybeRescale;
    assert Step(cfg, done, RescaleCheck, env) == MaybeRescale(cfg, done, env.view, env.now);
  }

  lemma {:induction false} EvictionIsNoted(cfg: Config, n: Node, env: Env)
    requires n.state == RescaleCoordinating && |n.pending| == 1 && n.rescale.cleaning == ""
    requires n.rescale.order.target == ""
    ensures var r := n.rescale;
            var left := map x | x in r.failedSince && !(x in r.evicting && x in env.removable) :: r.failedSince[x];
            Step(cfg, n, OperationEnded(0, true), env) ==
              Step(cfg, Relieved(n, [], r.(failedSince := left, evicting := [])), RescaleCheck, env)
  {
    RoundSucceeds(cfg, n, env);
    var r := n.rescale;
    var left := map x | x in r.failedSince && !(x in r.evicting && x in env.removable) :: r.failedSince[x];
    var removed := set x | x in r.evicting && x in env.removable;
    assert r.failedSince - removed == left;
    var done := Relieved(n, [], r.(failedSince := left, evicting := []));
    EvictionIsFinished(cfg, n.(pending := []), env, removed, done);
    hide OnOperationEnded, OnRescaleCoordinationDone, Relieved, MaybeRescale;
    assert Step(cfg, done, RescaleCheck, env) == MaybeRescale(cfg, done, env.view, env.now);
  }

  lemma {:induction false} EvictionIsFinished(cfg: Config, n: Node, env: Env, removed: set<Name>, done: Node)
    requires n.state == RescaleCoordinating && n.rescale.cleaning == "" && n.rescale.order.target == ""
    requires removed == set x | x in n.rescale.evicting && x in env.removable
    requires done == n.(state := StableServer, published := n.published + [StableServer],
                        rescale := n.rescale.(failedSince := n.rescale.failedSince - removed, evicting := []))
    ensures OnRescaleCoordinationDone(cfg, n, env) == MaybeRescale(cfg, done, env.view, env.now)
  {
    hide MaybeRescale;
  }

  /**
   * The end of a round. Given up, it is not tried again before the settle delay. A prepared conversion becomes
   * an order to the machine it is for, and the coordinator looks again after the settle delay, whatever comes
   * of it. An erased leftover is confirmed to the machine that asked; the clocks of the evicted machines that
   * Serf let go of are dropped, and no other; and after both the cluster is evaluated at once.
   */
  lemma {:induction false} RoundRule(cfg: Config, n: Node, ok: bool, env: Env)
    requires n.state == RescaleCoordinating && |n.pending| == 1
    ensures var m := Step(cfg, n, OperationEnded(0, ok), env); var r := n.rescale;
            && (!ok ==> GivesUp(cfg, n, m, env.now))
            && (ok && r.cleaning == "" && r.order.target != "" && !env.sendOk ==> GivesUp(cfg, n, m, env.now))
            && (ok && r.cleaning == "" && r.order.target != "" && env.sendOk ==>
                  m == Relieved(n, [RescaleConvert(Some(r.order))],
                                r.(order := NO_ORDER, timer := env.now + cfg.settle)))
            && (ok && r.cleaning != "" ==>
                  var confirmation := if env.sendOk then [Forgotten(Some(r.cleaning))] else [];
                  m == Step(cfg, Relieved(n, confirmation, r.(cleaning := "")), RescaleCheck, env))
            && (ok && r.cleaning == "" && r.order.target == "" ==>
                  var left := map x | x in r.failedSince && !(x in r.evicting && x in env.removable) ::
                    r.failedSince[x];
                  m == Step(cfg, Relieved(n, [], r.(failedSince := left, evicting := [])), RescaleCheck, env))
  {
    hide Step, GivesUp, Relieved;
    if !ok {
      RoundFails(cfg, n, env);
    } else if n.rescale.cleaning != "" {
      CleaningIsConfirmed(cfg, n, env);
    } else if n.rescale.order.target != "" {
      OrderIsSent(cfg, n, env);
    } else {
      EvictionIsNoted(cfg, n, env);
    }
  }

  /** An order is taken by the machine it names, in the other role, with a record and an address, and by no other. */
  lemma {:induction false} OrderRule(cfg: Config, n: Node, order: Option<Order>, env: Env)
    ensures Step(cfg, n, UserEventReceived(RescaleConvert(order)), env) ==
            if && order.Some? && order.value.target == cfg.name && order.value.joinIP != "" && n.persisted.Some?
               && n.state == (if order.value.role == Server then StableAgent else StableServer)
            then var to := if order.value.role == Server then RescalePromoting else RescaleDemoting;
                 n.(state := to, published := n.published + [to], pending := n.pending + [ConvertTo(order.value)],
                    rescale := n.rescale.(order := order.value))
            else n
  {}

  /** A conversion ends in the role that was ordered, recorded as such at this instant, or fails for good. */
  lemma {:induction false} ConversionRule(cfg: Config, n: Node, ok: bool, env: Env)
    requires (n.state == RescalePromoting || n.state == RescaleDemoting) && |n.pending| == 1 && n.persisted.Some?
    ensures var m := Step(cfg, n, OperationEnded(0, ok), env); var role := n.rescale.order.role;
            var to := if !ok then RescaleFailed else if role == Server then StableServer else StableAgent;
            m == n.(state := to, published := n.published + [to], pending := [],
                    persisted := if ok then Some(n.persisted.value.(role := role, roleChangedAt := env.now))
                                 else n.persisted,
                    rescale := if ok then n.rescale.(order := NO_ORDER)
                               else n.rescale.(timer := NO_TIME, order := NO_ORDER))
  {
    assert Retire(n, 0).pending == [];
    hide OnRescaleCoordinationDone;
  }

  /** A completed rejoin ends in the recorded role and counts one more boot; nothing else of the record changes. */
  lemma {:induction false} RejoinRule(cfg: Config, n: Node, ok: bool, env: Env)
    requires n.state == RejoinCluster && |n.pending| == 1 && n.persisted.Some?
    ensures var m := Step(cfg, n, OperationEnded(0, ok), env); var p := n.persisted.value;
            var to := if !ok then RejoinFailed else if p.role == Server then StableServer else StableAgent;
            m == n.(state := to, published := n.published + [to], pending := [],
                    persisted := Some(if ok then p.(bootCount := p.bootCount + 1) else p))
  {
    assert Retire(n, 0).pending == [];
    hide OnRescaleCoordinationDone;
  }

  /** An event nobody waits for changes nothing, and a result only takes its operation off the list. */
  lemma {:induction false} StrayEventsAreIgnored(cfg: Config, n: Node, which: nat, ok: bool, env: Env)
    ensures Step(cfg, n, UserEventReceived(UnknownUserEvent), env) == n
    ensures which >= |n.pending| ==> Step(cfg, n, OperationEnded(which, ok), env) == n
    ensures which < |n.pending| && n.state in {
                Starting, Discovering, BootstrapConfirm, BootstrapWaiting, BootstrapFailed, JoiningWaiting,
                  JoiningFailed,
                RejoinFailed, RescaleFailed, StableServer, StableAgent } ==>
              Step(cfg, n, OperationEnded(which, ok), env) ==
                n.(pending := n.pending[..which] + n.pending[which + 1..])
  {
    hide OnRescaleCoordinationDone;
  }

  /** A boot starts from nothing but the state file, and from there either a first boot or a rejoin. */
  lemma {:induction false} BootRule(cfg: Config, file: LoadResult)
    ensures var m := ChooseInitialState(cfg, Fresh(), file); var r := m.rescale;
            && m.bootstrap == Bootstrap(false, NO_ROLE, 0, 0, []) && m.joining == Joining(false, false, false, 0)
            && r == Rescale(map[], NO_TIME, NO_TIME, NO_TIME, Order("", NO_ROLE, ""), [], "")
            && m.sent == [] && m.lookups == [] && m.published == [Starting, m.state]
            && m.persisted == (if file.Loaded? then Some(file.persisted) else None)
            && (file == Missing ==> m.state == Discovering && m.pending == [])
            && (file == Unusable || (file.Loaded? && file.persisted.nodeName != cfg.name) ==>
                  m.state == RejoinFailed && m.pending == [])
            && (file.Loaded? && file.persisted.nodeName == cfg.name ==>
                  m.state == RejoinCluster && m.pending == [WaitRejoin(file.persisted.role)])
  {}
}

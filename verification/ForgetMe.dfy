/**
 * The forget-me protocol among any number of joiners and coordinators: whoever installs after being
 * confirmed is unknown to K3s. No assumption is made on what the machines see of each other, nor on
 * who asks for what; messages may be lost or repeated, rounds abandoned, machines restarted and reset.
 */
module ForgetMe {
  import opened Names
  import opened Lifecycle
  import opened ClusterView
  import opened NodeStep
  import opened NodeRuns
  import LifecycleRuns

  /** A lookup a coordinator started: the which-th of its process. */
  datatype Lookup = Lookup(coordinator: Name, which: nat, name: Name)

  /** What K3s answered to it, until the coordinator handles it. */
  datatype Answer = Answer(lookup: Lookup, found: bool)

  /**
   * The machines; the names K3s knows; the machines with K3s on their disk; the confirmations broadcast
   * and not lost, each of which may arrive any number of times; the lookups K3s has not answered yet and
   * the answers not handled yet; the coordinators whose deletion was carried out in the current round.
   */
  datatype World = World(
    nodes: map<Name, Node>, k3s: set<Name>, installed: set<Name>,
    confirmations: set<Name>, open: set<Lookup>, answers: set<Answer>, erased: set<Name>)

  datatype Move =
    | Turns(who: Name, event: Event, env: Env)
    | Answers(lookup: Lookup)
    | Handles(answer: Answer, env: Env)
    | Drops(answer: Answer)
    | Erases(who: Name)
    | Deletes(names: set<Name>)
    | Installs(who: Name)
    | Uninstalls(who: Name)
    | Registers(who: Name)
    | Loses(name: Name)
    | Restarts(who: Name, file: LoadResult)
    | Resets(who: Name)

  /** An operation that puts K3s on the disk of its machine. */
  predicate CanInstall(op: Operation) {
    op.InstallServerInit? || op.InstallServerJoin? || op.InstallAgent? || op.ConvertTo?
  }

  /** The names a turn confirmed. */
  function Confirmed(n: Node, m: Node): (s: set<Name>) {
    set i | |n.sent| <= i < |m.sent| && m.sent[i].Forgotten? && m.sent[i].name.Some? :: m.sent[i].name.value
  }

  /** The lookups a turn started. */
  function Started(x: Name, n: Node, m: Node): (s: set<Lookup>) {
    set i | |n.lookups| <= i < |m.lookups| :: Lookup(x, i, m.lookups[i])
  }

  function TurnOf(base: Config, w: World, x: Name, e: Event, env: Env): (d: World) {
    if x !in w.nodes then w
    else
      var m := Step(ConfigOf(base, x), w.nodes[x], e, env);
      w.(nodes := w.nodes[x := m],
         confirmations := w.confirmations + Confirmed(w.nodes[x], m),
         open := w.open + Started(x, w.nodes[x], m),
         erased := if e.OperationEnded? then w.erased - {x} else w.erased)
  }

  /** The coordinator is told what K3s answered. */
  function Told(answer: Answer): (e: Event) {
    ForgetProbed(answer.lookup.name, answer.found)
  }

  /** The machine starts over: its process forgets what it was waiting for. */
  function Rebooted(base: Config, w: World, x: Name, file: LoadResult): (d: World) {
    w.(nodes := w.nodes[x := ChooseInitialState(ConfigOf(base, x), Fresh(), file)],
       open := (set l | l in w.open && l.coordinator != x),
       answers := (set a | a in w.answers && a.lookup.coordinator != x),
       erased := w.erased - {x})
  }

  function After(base: Config, w: World, move: Move): (d: World) {
    match move
    case Turns(x, e, env) => TurnOf(base, w, x, e, env)
    case Answers(l) => w.(open := w.open - {l}, answers := w.answers + {Answer(l, l.name in w.k3s)})
    case Handles(a, env) =>
      TurnOf(base, w.(answers := w.answers - {a}), a.lookup.coordinator, Told(a), env)
    case Drops(a) => w.(answers := w.answers - {a})
    case Erases(x) =>
      if x in w.nodes then w.(k3s := w.k3s - {w.nodes[x].rescale.cleaning}, erased := w.erased + {x}) else w
    case Deletes(names) => w.(k3s := w.k3s - names)
    case Installs(x) => w.(installed := w.installed + {x})
    case Uninstalls(x) => w.(installed := w.installed - {x})
    case Registers(x) => w.(k3s := w.k3s + {x})
    case Loses(name) => w.(confirmations := w.confirmations - {name})
    case Restarts(x, file) => Rebooted(base, w, x, file)
    case Resets(x) => Rebooted(base, w, x, Missing).(installed := w.installed - {x})
  }

  /** A turn takes its input from the world: confirmations that were sent, work that was done. */
  ghost predicate CanTurn(base: Config, w: World, x: Name, e: Event, env: Env) {
    && x in w.nodes && GoodEnv(env) && Possible(w.nodes[x], e)
    && !EarlyConfirmation(ConfigOf(base, x), w.nodes[x], e)
    && (e == UserEventReceived(Forgotten(Some(x))) ==> x in w.confirmations)
    && (e.OperationEnded? && e.ok && w.nodes[x].state == JoiningCleanup ==> x !in w.installed)
    && (e.OperationEnded? && e.ok && w.nodes[x].state == RescaleCoordinating && w.nodes[x].rescale.cleaning != "" ==>
          x in w.erased)
  }

  ghost predicate CanMove(base: Config, w: World, move: Move) {
    match move
    case Turns(x, e, env) => !e.ForgetProbed? && CanTurn(base, w, x, e, env)
    case Answers(l) => l in w.open
    case Handles(a, env) => a in w.answers && CanTurn(base, w, a.lookup.coordinator, Told(a), env)
    case Erases(x) =>
      x in w.nodes && w.nodes[x].state == RescaleCoordinating && w.nodes[x].rescale.cleaning != ""
    case Installs(x) => x in w.nodes && exists op :: op in w.nodes[x].pending && CanInstall(op)
    case Uninstalls(x) => x in w.nodes && exists op :: op in w.nodes[x].pending && op.ConvertTo?
    case Registers(x) => x in w.installed
    case Restarts(x, file) => x != "" && ValidFile(file)
    case Resets(x) => x != ""
    case _ => true
  }

  // --- What every run keeps ---

  /** A joiner that checked its own disk, and has not started to install. */
  predicate FoundClean(n: Node) {
    (n.state == JoiningCleanup && n.pending == []) || (n.state == JoiningWaiting && n.joining.cleaned)
  }

  /** Where a machine is once it has coordinated, as long as its process lives. */
  predicate HasServed(s: State) {
    s == StableServer || s == StableAgent || s == RescaleCoordinating || s == RescalePromoting
    || s == RescaleDemoting || s == RescaleFailed
  }

  ghost predicate MachineOk(base: Config, w: World, x: Name)
    requires x in w.nodes
  {
    && Sound(ConfigOf(base, x), w.nodes[x]) && w.nodes[x].state != Starting
    && (FoundClean(w.nodes[x]) ==> x !in w.installed)
    && (x in w.erased ==> w.nodes[x].state == RescaleCoordinating && w.nodes[x].rescale.cleaning != "")
  }

  ghost predicate LookupOk(w: World, l: Lookup) {
    l.coordinator in w.nodes && HasServed(w.nodes[l.coordinator].state)
  }

  ghost predicate Orderly(base: Config, w: World) {
    && (forall x :: x in w.nodes ==> MachineOk(base, w, x))
    && (forall l :: l in w.open ==> LookupOk(w, l))
    && (forall a :: a in w.answers ==> LookupOk(w, a.lookup))
    && (forall x :: x in w.erased ==> x in w.nodes)
  }

  // --- What is concluded about a name ---

  /** A machine that will never be a stable server again in this life of its process. */
  predicate IsStuck(n: Node) {
    n.state == RescaleFailed || (n.state == RescaleDemoting && !IsKnown(n.rescale.order.role))
  }

  /** An unhandled answer says that K3s does not know this name, and its coordinator may still act on it. */
  ghost predicate Denies(w: World, a: Answer, name: Name) {
    a in w.answers && a.lookup.name == name && !a.found
    && a.lookup.coordinator in w.nodes && !IsStuck(w.nodes[a.lookup.coordinator])
  }

  /** A coordinator carried out the deletion of this name, and has not handled the end of its round. */
  ghost predicate HasErased(w: World, y: Name, name: Name) {
    y in w.erased && y in w.nodes && w.nodes[y].rescale.cleaning == name
  }

  /** Someone but the machine itself concluded that K3s does not know its name. */
  ghost predicate Concluded(w: World, x: Name) {
    || x in w.confirmations
    || (exists a :: Denies(w, a, x) && a.lookup.coordinator != x)
    || (exists y :: HasErased(w, y, x) && y != x)
  }

  /** All that can still lead, or has led, to a confirmation of this name. */
  ghost predicate Evidence(w: World, x: Name) {
    || x in w.confirmations
    || (exists a :: Denies(w, a, x))
    || (exists y :: HasErased(w, y, x))
    || (x in w.nodes && w.nodes[x].joining.cleaned)
  }

  /** For a machine on its first boot without K3s on its disk, the conclusion holds. */
  ghost predicate EvidenceHolds(w: World, x: Name) {
    x in w.nodes && IsFirstBoot(w.nodes[x].state) && x !in w.installed && Evidence(w, x) ==> x !in w.k3s
  }

  /** The machine starts a first boot on a disk without K3s: after a reset, or before it ever installed. */
  predicate IsBirth(w: World, move: Move, x: Name) {
    move == Resets(x) || (move == Restarts(x, Missing) && x !in w.installed)
  }

  /** What an earlier life of this machine left behind: a conclusion about it, while K3s knows its name. */
  ghost predicate Stale(w: World, x: Name) {
    x in w.k3s && Concluded(w, x)
  }

  /** Machines that just booted, nothing concluded yet; whatever K3s knows, whatever is installed. */
  ghost predicate Begins(base: Config, w: World) {
    && w.confirmations == {} && w.open == {} && w.answers == {} && w.erased == {}
    && forall x :: x in w.nodes ==>
         x != "" && exists file :: ValidFile(file) && w.nodes[x] == ChooseInitialState(ConfigOf(base, x), Fresh(), file)
  }

  lemma {:induction false} BootIsUnsettled(cfg: Config, file: LoadResult)
    ensures var n := ChooseInitialState(cfg, Fresh(), file);
            && !FoundClean(n) && !n.joining.cleaned && n.state != Starting
            && (IsFirstBoot(n.state) <==> file == Missing)
  {}

  lemma {:induction false} BeginningIsOrderly(base: Config, w: World)
    requires Begins(base, w)
    ensures Orderly(base, w) && forall x :: EvidenceHolds(w, x)
  {
    hide Sound, ChooseInitialState, FoundClean;
    forall x | x in w.nodes ensures MachineOk(base, w, x) && !w.nodes[x].joining.cleaned {
      var file :| ValidFile(file) && w.nodes[x] == ChooseInitialState(ConfigOf(base, x), Fresh(), file);
      BootIsSound(ConfigOf(base, x), file);
      BootIsUnsettled(ConfigOf(base, x), file);
    }
  }

  // --- What a turn concludes ---

  /** How a turn can add to what is concluded, and when a machine starts to install. */
  predicate Concludes(cfg: Config, n: Node, e: Event, m: Node) {
    && n.sent <= m.sent
    && (m.joining.cleaned ==>
         n.joining.cleaned || (n.state == JoiningCleanup && e == UserEventReceived(Forgotten(Some(cfg.name)))))
    && (forall i :: |n.sent| <= i < |m.sent| && m.sent[i].Forgotten? ==>
          || (e.ForgetProbed? && !e.found && n.state == StableServer && m.sent[i] == Forgotten(Some(e.name)))
          || (e.OperationEnded? && e.ok && n.state == RescaleCoordinating && n.rescale.cleaning != ""
              && m.sent[i] == Forgotten(Some(n.rescale.cleaning))))
    && (m.state == JoiningAgent && n.state != JoiningAgent ==>
          || (n.state == JoiningWaiting && n.joining.cleaned)
          || (n.state == JoiningCleanup && e == UserEventReceived(Forgotten(Some(cfg.name)))))
    && (FoundClean(m) ==>
          || FoundClean(n)
          || (n.state == JoiningCleanup
               && (e == UserEventReceived(Forgotten(Some(cfg.name))) || (e.OperationEnded? && e.ok))))
    && (n.state == RescaleCoordinating && !e.OperationEnded? ==>
          m.state == n.state && m.rescale.cleaning == n.rescale.cleaning)
    && n.lookups <= m.lookups && (|m.lookups| > |n.lookups| ==> n.state == StableServer)
  }

  /** Nothing sent, nothing looked up. */
  predicate SameLog(n: Node, m: Node) {
    m.sent == n.sent && m.lookups == n.lookups
  }

  lemma {:induction false} FirstBootLogsNothing(n: Node, v: View)
    ensures SameLog(n, MaybeStartJoiningPath(n, v)) && SameLog(n, MaybeJoinCluster(n, v))
    ensures SameLog(n, MaybeInstallServer(n, v)) && SameLog(n, MaybeInstallAgent(n, v))
  {
    hide Lowest, StableServerCount, ServerTarget;
  }

  lemma {:induction false} FirstStepsLogNothing(n: Node, v: View)
    ensures SameLog(n, FirstBootSteps(n, v))
  {
    hide MaybeStartJoiningPath, MaybeJoinCluster, MaybeInstallServer, MaybeInstallAgent;
    var a := MaybeStartJoiningPath(n, v);
    var b := MaybeJoinCluster(a, v);
    FirstBootLogsNothing(n, v);
    FirstBootLogsNothing(a, v);
    FirstBootLogsNothing(b, v);
    FirstBootLogsNothing(MaybeInstallServer(b, v), v);
  }

  lemma {:induction false} FirstStepsJoin(n: Node, v: View)
    requires JoinOk(n)
    ensures var m := FirstBootSteps(n, v);
            && m.joining.cleaned == n.joining.cleaned && (FoundClean(m) ==> FoundClean(n))
            && (m.state == JoiningAgent && n.state != JoiningAgent ==> n.state == JoiningWaiting && n.joining.cleaned)
  {
    hide Lowest, StableServerCount, ServerTarget;
  }

  lemma {:induction false} FirstStepsConclude(cfg: Config, n: Node, e: Event, v: View)
    requires Sound(cfg, n) && !e.OperationEnded?
    ensures var m := FirstBootSteps(n, v); Concludes(cfg, n, e, m) && m.sent == n.sent && m.lookups == n.lookups
  {
    assert JoinOk(n);
    hide FirstBootSteps, Sound, JoinOk, FoundClean;
    FirstStepsLogNothing(n, v);
    FirstStepsJoin(n, v);
    FirstBootStepsAreForFirstBoots(n, v);
  }

  lemma {:induction false} MembershipConcludes(cfg: Config, n: Node, v: View, now: Time)
    requires Sound(cfg, n)
    ensures Concludes(cfg, n, MembershipChange, OnMembershipChange(cfg, n, v, now))
  {
    hide MaybeRescale, Sound, FirstBootSteps, OnMembershipChange, EtcdIsChanging;
    MembershipIsQuietThenRescales(cfg, n, v, now);
    FirstBootStepsAreForFirstBoots(n, v);
    FirstStepsConclude(cfg, n, MembershipChange, v);
    EvaluationConcludes(cfg, FirstBootSteps(n, v), MembershipChange, v, now);
  }

  /** An evaluation of the cluster concludes nothing about joiners. */
  lemma {:induction false} EvaluationConcludes(cfg: Config, n: Node, e: Event, v: View, now: Time)
    ensures var m := MaybeRescale(cfg, n, v, now);
            && m.sent == n.sent && m.joining == n.joining && m.lookups == n.lookups
            && (m.state == n.state || (n.state == StableServer && m.state == RescaleCoordinating))
            && (m.state != StableServer && m.state == n.state ==>
                 m.pending == n.pending && m.rescale.cleaning == n.rescale.cleaning)
  {
    hide TrackFailures, Repair, IsCoordinator, EtcdIsChanging;
    if n.state == StableServer {
      var t := n.(rescale := n.rescale.(failedSince := TrackFailures(n.rescale.failedSince, FailedNames(v), now)));
      RepairEffect(cfg, t, v, now);
    }
  }

  lemma {:induction false} UserEventConcludes(cfg: Config, n: Node, event: UserEvent, env: Env)
    requires Sound(cfg, n)
    ensures Concludes(cfg, n, UserEventReceived(event), OnUserEvent(cfg, n, event, env))
  {
    hide Lowest, StableServerCount, ServerTarget, RankOf, AliveNames, ExistingClusterSeen, IsCoordinator,
         IsVirgin, RoundOk, RecordOk;
  }

  lemma {:induction false} RoundEndConcludes(cfg: Config, n: Node, r: Node, e: Event, env: Env)
    requires n.state == RescaleCoordinating && r == n.(pending := r.pending) && e.OperationEnded? && e.ok
    ensures Concludes(cfg, n, e, OnRescaleCoordinationDone(cfg, r, env))
  {
    hide MaybeRescale;
    if r.rescale.cleaning != "" {
      var a := ConfirmForgotten(Publish(r.(rescale := r.rescale.(cleaning := "")), StableServer), r.rescale.cleaning,
          env.sendOk);
      EvaluationConcludes(cfg, a, e, env.view, env.now);
    } else if r.rescale.order.target == "" {
      var removed := set name | name in r.rescale.evicting && name in env.removable;
      var a := Publish(r.(rescale := r.rescale.(failedSince := r.rescale.failedSince - removed, evicting := [])),
          StableServer);
      EvaluationConcludes(cfg, a, e, env.view, env.now);
    }
  }

  lemma {:induction false} ResultConcludes(cfg: Config, n: Node, which: nat, ok: bool, env: Env)
    requires Sound(cfg, n)
    ensures Concludes(cfg, n, OperationEnded(which, ok), OnOperationEnded(cfg, n, which, ok, env))
  {
    hide OnRescaleCoordinationDone, RoundOk, RecordOk;
    if which < |n.pending| && ok && n.state == RescaleCoordinating {
      hide Sound, Concludes;
      RoundEndConcludes(cfg, n, Retire(n, which), OperationEnded(which, ok), env);
    }
  }

  lemma {:induction false} TurnConcludes(cfg: Config, n: Node, e: Event, env: Env)
    requires Sound(cfg, n)
    ensures Concludes(cfg, n, e, Step(cfg, n, e, env))
  {
    hide MaybeRescale, OnMembershipChange, OnUserEvent, OnOperationEnded, MaybeJoinCluster, EtcdIsChanging,
         IsVirgin, IsCoordinator, ExistingClusterSeen, TokenOk, RoundOk, RecordOk;
    match e {
      case MembershipChange => MembershipConcludes(cfg, n, env.view, env.now);
      case UserEventReceived(event) => UserEventConcludes(cfg, n, event, env);
      case RescaleCheck => EvaluationConcludes(cfg, n, e, env.view, env.now);
      case OperationEnded(which, ok) => ResultConcludes(cfg, n, which, ok, env);
      case JoinWaitExpired => WaitConcludes(cfg, n, env.view);
      case _ =>
    }
  }

  lemma {:induction false} WaitConcludes(cfg: Config, n: Node, v: View)
    requires Sound(cfg, n)
    ensures Concludes(cfg, n, JoinWaitExpired, OnJoinWaitExpired(n, v))
  {
    hide Lowest, RoundOk, RecordOk;
  }

  // --- The life of one machine's process ---

  lemma {:induction false} WalkEnds(from: State, tags: seq<State>, to: State)
    requires LifecycleRuns.Walk(from, tags, to)
    ensures to == from || to in tags
    decreases |tags|
  {
    if tags != [] {
      WalkEnds(tags[0], tags[1..], to);
    }
  }

  lemma {:induction false} WalksOfServers(from: State, tags: seq<State>, to: State)
    requires LifecycleRuns.Walk(from, tags, to) && HasServed(from)
    ensures HasServed(to)
    decreases |tags|
  {
    if tags != [] {
      WalksOfServers(tags[0], tags[1..], to);
    }
  }

  /** A turn never takes a machine back to its first boot, nor a coordinator out of the cluster. */
  lemma {:induction false} TurnKeepsSide(cfg: Config, n: Node, e: Event, env: Env)
    requires Sound(cfg, n) && n.state != Starting
    ensures var m := Step(cfg, n, e, env);
            && m.state != Starting && (IsFirstBoot(m.state) ==> IsFirstBoot(n.state))
            && (HasServed(n.state) ==> HasServed(m.state))
  {
    LifecycleRuns.TurnWalks(cfg, n, e, env);
    hide Step;
    var m := Step(cfg, n, e, env);
    var tags := LifecycleRuns.Since(n, m);
    WalkEnds(n.state, tags, m.state);
    LifecycleRuns.WalksStayOnTheirSide(n.state, tags, m.state);
    StatesArePartitioned(n.state);
    StatesArePartitioned(m.state);
    if HasServed(n.state) {
      WalksOfServers(n.state, tags, m.state);
    }
  }

  lemma {:induction false} StuckStaysStuck(cfg: Config, n: Node, e: Event, env: Env)
    requires Sound(cfg, n) && Possible(n, e) && IsStuck(n)
    ensures IsStuck(Step(cfg, n, e, env))
  {
    hide Step, Sound;
    var order := if n.state == RescaleDemoting then n.rescale.order else NO_ORDER;
    LifecycleRuns.StuckTurn(cfg, n, order, e, env);
  }

  // --- One move ---

  lemma {:induction false} ConfirmedAre(cfg: Config, n: Node, e: Event, m: Node, name: Name)
    requires Concludes(cfg, n, e, m) && name in Confirmed(n, m)
    ensures || (e.ForgetProbed? && !e.found && e.name == name && n.state == StableServer)
            || (e.OperationEnded? && e.ok && n.state == RescaleCoordinating
                && n.rescale.cleaning != "" && n.rescale.cleaning == name)
  {}

  lemma {:induction false} TurnKeepsMachine(base: Config, w: World, x: Name, e: Event, env: Env)
    requires Orderly(base, w) && CanTurn(base, w, x, e, env)
    ensures MachineOk(base, TurnOf(base, w, x, e, env), x)
    ensures HasServed(w.nodes[x].state) ==> HasServed(TurnOf(base, w, x, e, env).nodes[x].state)
  {
    hide Step, Sound, Possible, HasServed;
    var cfg, n := ConfigOf(base, x), w.nodes[x];
    assert MachineOk(base, w, x);
    TurnConcludes(cfg, n, e, env);
    TurnIsSound(cfg, n, e, env);
    TurnKeepsSide(cfg, n, e, env);
    if n.state == JoiningCleanup && e == UserEventReceived(Forgotten(Some(x))) {
      assert FoundClean(n);
    }
  }

  lemma {:induction false} TurnIsOrderly(base: Config, w: World, x: Name, e: Event, env: Env)
    requires Orderly(base, w) && CanTurn(base, w, x, e, env)
    ensures Orderly(base, TurnOf(base, w, x, e, env))
  {
    hide Step, Sound, FoundClean, HasServed;
    var d := TurnOf(base, w, x, e, env);
    TurnKeepsMachine(base, w, x, e, env);
    forall y | y in d.nodes ensures MachineOk(base, d, y) {
      if y != x {
        assert MachineOk(base, w, y);
      }
    }
    forall l | l in d.open ensures LookupOk(d, l) {
      if l in w.open {
        assert LookupOk(w, l);
      } else {
        StartedByServers(base, w, x, e, env, l);
      }
    }
    forall a | a in d.answers ensures LookupOk(d, a.lookup) {
      assert LookupOk(w, a.lookup);
    }
  }

  lemma {:induction false} StartedByServers(base: Config, w: World, x: Name, e: Event, env: Env, l: Lookup)
    requires Orderly(base, w) && CanTurn(base, w, x, e, env)
    requires var d := TurnOf(base, w, x, e, env); l in Started(x, w.nodes[x], d.nodes[x])
    ensures l.coordinator == x && HasServed(w.nodes[x].state)
  {
    hide Step, Sound, FoundClean;
    assert MachineOk(base, w, x);
    TurnConcludes(ConfigOf(base, x), w.nodes[x], e, env);
  }

  /** An answer that a machine could act on after a turn, it could act on before. */
  lemma {:induction false} DenialWasThere(base: Config, w: World, x: Name, e: Event, env: Env, a: Answer, name: Name)
    requires Orderly(base, w) && CanTurn(base, w, x, e, env) && Denies(TurnOf(base, w, x, e, env), a, name)
    ensures Denies(w, a, name)
  {
    hide Step, Sound, FoundClean, IsStuck;
    if a.lookup.coordinator == x && IsStuck(w.nodes[x]) {
      assert MachineOk(base, w, x);
      StuckStaysStuck(ConfigOf(base, x), w.nodes[x], e, env);
    }
  }

  /** All a turn concludes was known before it: from the answer it brings, a deletion, or a confirmation. */
  lemma {:induction false} EvidenceWasThere(base: Config, w: World, x: Name, e: Event, env: Env, name: Name)
    requires Orderly(base, w) && CanTurn(base, w, x, e, env) && Evidence(TurnOf(base, w, x, e, env), name)
    ensures Evidence(w, name) || (e.ForgetProbed? && !e.found && e.name == name && w.nodes[x].state == StableServer)
  {
    hide Step, Sound, Possible, EarlyConfirmation, FoundClean, IsStuck;
    var cfg, n := ConfigOf(base, x), w.nodes[x];
    var d := TurnOf(base, w, x, e, env);
    assert MachineOk(base, w, x);
    TurnConcludes(cfg, n, e, env);
    if name in Confirmed(n, d.nodes[x]) {
      ConfirmedAre(cfg, n, e, d.nodes[x], name);
      if !e.ForgetProbed? {
        assert HasErased(w, x, name);
      }
    } else if a :| Denies(d, a, name) {
      DenialWasThere(base, w, x, e, env, a, name);
    } else if y :| HasErased(d, y, name) {
      assert HasErased(w, y, name);
    }
  }

  /** A turn keeps what is concluded of a name, if the answer it brings was true of that name. */
  lemma {:induction false} TurnKeepsEvidence(base: Config, w: World, x: Name, e: Event, env: Env, name: Name)
    requires Orderly(base, w) && CanTurn(base, w, x, e, env) && EvidenceHolds(w, name)
    requires e.ForgetProbed? && !e.found && e.name == name && w.nodes[x].state == StableServer ==>
               name in w.nodes && IsFirstBoot(w.nodes[name].state) && name !in w.installed ==> name !in w.k3s
    ensures EvidenceHolds(TurnOf(base, w, x, e, env), name)
  {
    hide Step, Sound, FoundClean, Evidence;
    var d := TurnOf(base, w, x, e, env);
    assert MachineOk(base, w, x);
    TurnKeepsSide(ConfigOf(base, x), w.nodes[x], e, env);
    if Evidence(d, name) {
      EvidenceWasThere(base, w, x, e, env, name);
    }
  }

  lemma {:induction false} LessIsOrderly(base: Config, w: World, d: World)
    requires Orderly(base, w) && d.nodes == w.nodes && d.installed <= w.installed && d.erased == w.erased
    requires d.open <= w.open && d.answers <= w.answers
    ensures Orderly(base, d)
  {
    hide Sound, FoundClean;
    forall y | y in d.nodes ensures MachineOk(base, d, y) {
      assert MachineOk(base, w, y);
    }
    forall l | l in d.open ensures LookupOk(d, l) {
      assert LookupOk(w, l);
    }
    forall a | a in d.answers ensures LookupOk(d, a.lookup) {
      assert LookupOk(w, a.lookup);
    }
  }

  /** Whatever is only lost or deleted leaves true what is concluded. */
  lemma {:induction false} LossKeepsEvidence(w: World, d: World, x: Name)
    requires EvidenceHolds(w, x) && d.nodes == w.nodes && d.installed == w.installed && d.erased == w.erased
    requires d.k3s <= w.k3s && d.confirmations <= w.confirmations && d.answers <= w.answers
    ensures EvidenceHolds(d, x)
  {
    if Evidence(d, x) {
      if a :| Denies(d, a, x) {
        assert Denies(w, a, x);
      } else if y :| HasErased(d, y, x) {
        assert HasErased(w, y, x);
      }
    }
  }

  lemma {:induction false} HandlingIsOrderly(base: Config, w: World, a: Answer, env: Env)
    requires Orderly(base, w) && CanMove(base, w, Handles(a, env))
    ensures Orderly(base, After(base, w, Handles(a, env)))
  {
    hide Orderly, Step, Possible, EarlyConfirmation;
    var v := w.(answers := w.answers - {a});
    LessIsOrderly(base, w, v);
    TurnIsOrderly(base, v, a.lookup.coordinator, Told(a), env);
  }

  /** Handling an answer concludes what the answer said. */
  lemma {:induction false} HandlingKeepsEvidence(base: Config, w: World, a: Answer, env: Env, x: Name)
    requires Orderly(base, w) && CanMove(base, w, Handles(a, env)) && EvidenceHolds(w, x)
    ensures EvidenceHolds(After(base, w, Handles(a, env)), x)
  {
    hide Orderly, Step, Possible, EarlyConfirmation, TurnOf;
    var v := w.(answers := w.answers - {a});
    LessIsOrderly(base, w, v);
    LossKeepsEvidence(w, v, x);
    var y := a.lookup.coordinator;
    if !a.found && a.lookup.name == x && w.nodes[y].state == StableServer {
      assert Denies(w, a, x);
    }
    TurnKeepsEvidence(base, v, y, Told(a), env, x);
  }

  /** Only a machine that runs an installation gets or loses K3s, and it is not one that waits to join. */
  lemma {:induction false} InstallersAreNotWaiting(cfg: Config, n: Node, op: Operation)
    requires Sound(cfg, n) && op in n.pending && CanInstall(op)
    ensures !FoundClean(n) && (op.ConvertTo? ==> !IsFirstBoot(n.state))
  {}

  lemma {:induction false} InstallIsOrderly(base: Config, w: World, x: Name)
    requires Orderly(base, w) && CanMove(base, w, Installs(x))
    ensures Orderly(base, After(base, w, Installs(x)))
  {
    hide Sound, FoundClean, CanInstall, HasServed;
    var d := After(base, w, Installs(x));
    forall y | y in d.nodes ensures MachineOk(base, d, y) {
      assert MachineOk(base, w, y);
      if y == x {
        var op :| op in w.nodes[x].pending && CanInstall(op);
        InstallersAreNotWaiting(ConfigOf(base, x), w.nodes[x], op);
      }
    }
    forall l | l in d.open ensures LookupOk(d, l) {
      assert LookupOk(w, l);
    }
    forall a | a in d.answers ensures LookupOk(d, a.lookup) {
      assert LookupOk(w, a.lookup);
    }
  }

  /** Once a machine has K3s, nothing need hold of what was concluded before; a conversion is no first boot. */
  lemma {:induction false} InstallsKeepEvidence(base: Config, w: World, move: Move, x: Name)
    requires Orderly(base, w) && CanMove(base, w, move) && EvidenceHolds(w, x)
    requires move.Installs? || move.Uninstalls? || move.Registers?
    ensures EvidenceHolds(After(base, w, move), x)
  {
    hide Sound, FoundClean;
    var d := After(base, w, move);
    if Evidence(d, x) {
      if a :| Denies(d, a, x) {
        assert Denies(w, a, x);
      } else if y :| HasErased(d, y, x) {
        assert HasErased(w, y, x);
      }
    }
    if move == Uninstalls(x) {
      assert MachineOk(base, w, x);
      var op :| op in w.nodes[x].pending && op.ConvertTo?;
      InstallersAreNotWaiting(ConfigOf(base, x), w.nodes[x], op);
    }
  }

  lemma {:induction false} BootIsOrderly(base: Config, w: World, x: Name, file: LoadResult)
    requires Orderly(base, w) && x != "" && ValidFile(file)
    ensures Orderly(base, Rebooted(base, w, x, file))
  {
    hide Sound, ChooseInitialState, FoundClean, HasServed;
    var d := Rebooted(base, w, x, file);
    forall y | y in d.nodes ensures MachineOk(base, d, y) {
      if y == x {
        BootIsSound(ConfigOf(base, x), file);
        BootIsUnsettled(ConfigOf(base, x), file);
      } else {
        assert MachineOk(base, w, y);
      }
    }
    forall l | l in d.open ensures LookupOk(d, l) {
      assert LookupOk(w, l);
    }
    forall a | a in d.answers ensures LookupOk(d, a.lookup) {
      assert LookupOk(w, a.lookup);
    }
  }

  /** A boot of x leaves of the conclusions about any machine those that do not depend on x's process. */
  lemma {:induction false} EvidenceAfterBoot(base: Config, w: World, x: Name, file: LoadResult, name: Name)
    ensures var d := Rebooted(base, w, x, file);
            && (Evidence(d, name) ==> Evidence(w, name))
            && (Evidence(d, x) <==> Concluded(w, x))
  {
    BootIsUnsettled(ConfigOf(base, x), file);
    hide ChooseInitialState, IsStuck;
    var d := Rebooted(base, w, x, file);
    forall a, z | Denies(d, a, z) ensures Denies(w, a, z) && a.lookup.coordinator != x {
    }
    forall y, z | HasErased(d, y, z) ensures HasErased(w, y, z) && y != x {
    }
    forall a | Denies(w, a, x) && a.lookup.coordinator != x ensures Denies(d, a, x) {
    }
    forall y | HasErased(w, y, x) && y != x ensures HasErased(d, y, x) {
    }
  }

  lemma {:induction false} SameEvidence(w: World, d: World, x: Name)
    requires d.nodes == w.nodes && d.confirmations == w.confirmations && d.answers == w.answers && d.erased == w.erased
    ensures Evidence(d, x) <==> Evidence(w, x)
  {
    assert forall a :: Denies(d, a, x) <==> Denies(w, a, x);
    assert forall y :: HasErased(d, y, x) <==> HasErased(w, y, x);
  }

  /** After a birth, what is concluded of the newborn holds if and only if nothing stale was left behind. */
  lemma {:induction false} BirthsAreClean(base: Config, w: World, move: Move, x: Name)
    requires IsBirth(w, move, x)
    ensures EvidenceHolds(After(base, w, move), x) <==> !Stale(w, x)
  {
    hide ChooseInitialState, Evidence, Concluded;
    EvidenceAfterBoot(base, w, x, Missing, x);
    BootIsUnsettled(ConfigOf(base, x), Missing);
    SameEvidence(Rebooted(base, w, x, Missing), After(base, w, move), x);
  }

  lemma {:induction false} BootsKeepEvidence(base: Config, w: World, move: Move, x: Name)
    requires EvidenceHolds(w, x) && (move.Restarts? || move.Resets?) && !IsBirth(w, move, x)
    ensures EvidenceHolds(After(base, w, move), x)
  {
    hide ChooseInitialState, Evidence;
    var file := if move.Restarts? then move.file else Missing;
    EvidenceAfterBoot(base, w, move.who, file, x);
    BootIsUnsettled(ConfigOf(base, move.who), file);
    SameEvidence(Rebooted(base, w, move.who, file), After(base, w, move), x);
  }

  /** An answer, or a deletion carried out, concludes what is true at that moment. */
  lemma {:induction false} FindingKeepsEvidence(base: Config, w: World, move: Move, x: Name)
    requires CanMove(base, w, move) && EvidenceHolds(w, x) && (move.Answers? || move.Erases?)
    ensures EvidenceHolds(After(base, w, move), x)
  {
    hide IsStuck;
    var d := After(base, w, move);
    if Evidence(d, x) && x in d.k3s {
      if a :| Denies(d, a, x) {
        assert Denies(w, a, x);
      } else if y :| HasErased(d, y, x) {
        assert HasErased(w, y, x);
      }
    }
  }

  lemma {:induction false} FindingIsOrderly(base: Config, w: World, move: Move)
    requires Orderly(base, w) && CanMove(base, w, move) && (move.Answers? || move.Erases?)
    ensures Orderly(base, After(base, w, move))
  {
    hide Sound, FoundClean, HasServed;
    var d := After(base, w, move);
    forall y | y in d.nodes ensures MachineOk(base, d, y) {
      assert MachineOk(base, w, y);
    }
    forall l | l in d.open ensures LookupOk(d, l) {
      assert LookupOk(w, l);
    }
    forall a | a in d.answers ensures LookupOk(d, a.lookup) {
      assert a in w.answers ==> LookupOk(w, a.lookup);
      assert a.lookup in w.open ==> LookupOk(w, a.lookup);
    }
  }

  lemma {:induction false} MovesAreOrderly(base: Config, w: World, move: Move)
    requires Orderly(base, w) && CanMove(base, w, move)
    ensures Orderly(base, After(base, w, move))
  {
    hide Orderly, CanTurn, Step, ChooseInitialState;
    match move {
      case Turns(x, e, env) => TurnIsOrderly(base, w, x, e, env);
      case Handles(a, env) => HandlingIsOrderly(base, w, a, env);
      case Answers(l) => FindingIsOrderly(base, w, move);
      case Erases(x) => FindingIsOrderly(base, w, move);
      case Installs(x) => InstallIsOrderly(base, w, x);
      case Restarts(x, file) => BootIsOrderly(base, w, x, file);
      case Resets(x) =>
        BootIsOrderly(base, w, x, Missing);
        LessIsOrderly(base, Rebooted(base, w, x, Missing), After(base, w, move));
      case _ => LessIsOrderly(base, w, After(base, w, move));
    }
  }

  /** Every move keeps what is concluded about a machine, births with a stale conclusion aside. */
  lemma {:induction false} MovesKeepEvidence(base: Config, w: World, move: Move, x: Name)
    requires Orderly(base, w) && CanMove(base, w, move) && EvidenceHolds(w, x)
    requires IsBirth(w, move, x) ==> !Stale(w, x)
    ensures EvidenceHolds(After(base, w, move), x)
  {
    hide Orderly, CanTurn, Step, ChooseInitialState, EvidenceHolds, Stale;
    match move {
      case Turns(y, e, env) => TurnKeepsEvidence(base, w, y, e, env, x);
      case Handles(a, env) => HandlingKeepsEvidence(base, w, a, env, x);
      case Answers(l) => FindingKeepsEvidence(base, w, move, x);
      case Erases(y) => FindingKeepsEvidence(base, w, move, x);
      case Installs(y) => InstallsKeepEvidence(base, w, move, x);
      case Uninstalls(y) => InstallsKeepEvidence(base, w, move, x);
      case Registers(y) => RegistrationKeepsEvidence(w, After(base, w, move), y, x);
      case Restarts(y, file) =>
        if IsBirth(w, move, x) {
          BirthsAreClean(base, w, move, x);
        } else {
          BootsKeepEvidence(base, w, move, x);
        }
      case Resets(y) =>
        if IsBirth(w, move, x) {
          BirthsAreClean(base, w, move, x);
        } else {
          BootsKeepEvidence(base, w, move, x);
        }
      case _ => LossKeepsEvidence(w, After(base, w, move), x);
    }
  }

  lemma {:induction false} RegistrationKeepsEvidence(w: World, d: World, y: Name, x: Name)
    requires EvidenceHolds(w, x) && y in w.installed && d == w.(k3s := w.k3s + {y})
    ensures EvidenceHolds(d, x)
  {
    hide Evidence;
    SameEvidence(w, d, x);
  }

  // --- Runs ---

  function Course(base: Config, w: World, moves: seq<Move>): (d: World) {
    if moves == [] then w else After(base, Course(base, w, moves[..|moves| - 1]), moves[|moves| - 1])
  }

  ghost predicate CanCourse(base: Config, w: World, moves: seq<Move>) {
    moves != [] ==>
      && CanCourse(base, w, moves[..|moves| - 1])
      && CanMove(base, Course(base, w, moves[..|moves| - 1]), moves[|moves| - 1])
  }

  /** Whenever this machine is born in the run, no stale conclusion about it is left. */
  ghost predicate BornClean(base: Config, w: World, moves: seq<Move>, x: Name) {
    moves != [] ==>
      var before, last := moves[..|moves| - 1], moves[|moves| - 1];
      && BornClean(base, w, before, x)
      && (IsBirth(Course(base, w, before), last, x) ==> !Stale(Course(base, w, before), x))
  }

  lemma {:induction false} CoursesAreOrderly(base: Config, w: World, moves: seq<Move>)
    requires Orderly(base, w) && CanCourse(base, w, moves)
    ensures Orderly(base, Course(base, w, moves))
  {
    hide After, Orderly, CanMove;
    if moves != [] {
      CoursesAreOrderly(base, w, moves[..|moves| - 1]);
      MovesAreOrderly(base, Course(base, w, moves[..|moves| - 1]), moves[|moves| - 1]);
    }
  }

  lemma {:induction false} CoursesKeepEvidence(base: Config, w: World, moves: seq<Move>, x: Name)
    requires Orderly(base, w) && CanCourse(base, w, moves) && EvidenceHolds(w, x) && BornClean(base, w, moves, x)
    ensures EvidenceHolds(Course(base, w, moves), x)
  {
    hide After, Orderly, CanMove, EvidenceHolds, Stale, IsBirth;
    if moves != [] {
      var before, last := moves[..|moves| - 1], moves[|moves| - 1];
      CoursesKeepEvidence(base, w, before, x);
      CoursesAreOrderly(base, w, before);
      MovesKeepEvidence(base, Course(base, w, before), last, x);
    }
  }

  /** This move makes x start its joining installation while K3s knows its name. */
  ghost predicate JoinsAsGhost(base: Config, w: World, move: Move, x: Name) {
    && move.Turns? && move.who == x && x in w.nodes && x in w.k3s && w.nodes[x].state != JoiningAgent
    && x in After(base, w, move).nodes && After(base, w, move).nodes[x].state == JoiningAgent
  }

  /** A machine that starts its installation was told it is unknown, and found its own disk clean. */
  lemma {:induction false} JoinersAreUnknown(base: Config, w: World, x: Name, e: Event, env: Env)
    requires Orderly(base, w) && CanTurn(base, w, x, e, env) && EvidenceHolds(w, x) && w.nodes[x].state != JoiningAgent
    requires TurnOf(base, w, x, e, env).nodes[x].state == JoiningAgent
    ensures x !in w.installed && x !in w.k3s
  {
    hide Step, Sound, Possible;
    assert MachineOk(base, w, x);
    TurnConcludes(ConfigOf(base, x), w.nodes[x], e, env);
    assert FoundClean(w.nodes[x]);
    assert Evidence(w, x);
  }

  /**
   * Whatever is lost, repeated, abandoned, restarted or reset, among any number of joiners and of
   * machines that believe themselves coordinator: a machine whose every first boot left no stale
   * conclusion behind never enters the joining installation while K3s knows its name.
   */
  lemma {:induction false} NobodyJoinsAsAGhost(base: Config, w: World, moves: seq<Move>, last: Move, x: Name)
    requires Begins(base, w) && CanCourse(base, w, moves) && CanMove(base, Course(base, w, moves), last)
    requires BornClean(base, w, moves, x)
    ensures !JoinsAsGhost(base, Course(base, w, moves), last, x)
  {
    hide After, Orderly, CanTurn, Begins, CanCourse, Course, EvidenceHolds, BornClean;
    BeginningIsOrderly(base, w);
    CoursesAreOrderly(base, w, moves);
    CoursesKeepEvidence(base, w, moves, x);
    NoGhostHere(base, Course(base, w, moves), last, x);
  }

  lemma {:induction false} NoGhostHere(base: Config, w: World, move: Move, x: Name)
    requires Orderly(base, w) && EvidenceHolds(w, x) && CanMove(base, w, move)
    ensures !JoinsAsGhost(base, w, move, x)
  {
    hide Orderly, CanTurn, EvidenceHolds, TurnOf;
    if JoinsAsGhost(base, w, move, x) {
      JoinersAreUnknown(base, w, x, move.event, move.env);
    }
  }
}

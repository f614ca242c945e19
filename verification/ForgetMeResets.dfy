/**
 * Factory resets and the forget-me protocol: exactly which resets let a machine join as a ghost, that
 * each kind of them does come up, and that a machine which joined, was reset and joins again is served.
 */
module ForgetMeResets {
  import opened Names
  import opened Lifecycle
  import opened ClusterView
  import opened NodeStep
  import opened NodeRuns
  import opened ForgetMe
  import LifecycleRuns

  /** This continuation ends with x starting its installation while K3s knows its name. */
  ghost predicate LeadsToGhost(base: Config, w: World, moves: seq<Move>, last: Move, x: Name) {
    && CanCourse(base, w, moves) && BornClean(base, w, moves, x)
    && CanMove(base, Course(base, w, moves), last) && JoinsAsGhost(base, Course(base, w, moves), last, x)
  }

  /** Some continuation, in which any later birth of x is clean, does so. */
  ghost predicate CanBecomeGhost(base: Config, w: World, x: Name) {
    exists moves, last :: LeadsToGhost(base, w, moves, last, x)
  }

  lemma {:induction false} CleanMachinesAreSafe(base: Config, w: World, x: Name)
    requires Orderly(base, w) && EvidenceHolds(w, x)
    ensures !CanBecomeGhost(base, w, x)
  {
    hide Orderly, EvidenceHolds, CanCourse, BornClean, CanMove, JoinsAsGhost, Course;
    if moves, last :| LeadsToGhost(base, w, moves, last, x) {
      CoursesAreOrderly(base, w, moves);
      CoursesKeepEvidence(base, w, moves, x);
      NoGhostHere(base, Course(base, w, moves), last, x);
    }
  }

  // --- Adding a move to a run ---

  lemma {:induction false} OneMore(base: Config, w: World, moves: seq<Move>, move: Move)
    requires CanCourse(base, w, moves) && CanMove(base, Course(base, w, moves), move)
    ensures CanCourse(base, w, moves + [move])
    ensures Course(base, w, moves + [move]) == After(base, Course(base, w, moves), move)
    ensures forall x :: BornClean(base, w, moves, x)
                        && (IsBirth(Course(base, w, moves), move, x) ==> !Stale(Course(base, w, moves), x))
                        ==> BornClean(base, w, moves + [move], x)
  {
    hide CanMove, After, Stale;
    assert (moves + [move])[..|moves|] == moves;
  }

  /** A turn that neither confirms, nor looks up, nor ends an operation that erased something. */
  lemma {:induction false} PlainTurn(base: Config, w: World, x: Name, e: Event, env: Env)
    requires x in w.nodes && (e.OperationEnded? ==> x !in w.erased)
    requires var n, m := w.nodes[x], Step(ConfigOf(base, x), w.nodes[x], e, env);
             m.lookups == n.lookups && (m.sent == n.sent || m.sent == n.sent + [ForgetMe(Some(x))])
    ensures TurnOf(base, w, x, e, env) == w.(nodes := w.nodes[x := Step(ConfigOf(base, x), w.nodes[x], e, env)])
  {
    hide Step;
    assert Started(x, w.nodes[x], Step(ConfigOf(base, x), w.nodes[x], e, env)) == {};
    assert Confirmed(w.nodes[x], Step(ConfigOf(base, x), w.nodes[x], e, env)) == {};
    assert e.OperationEnded? ==> w.erased - {x} == w.erased;
  }

  // --- The joiner's moves ---

  function Newborn(base: Config, x: Name): (m: Node) {
    ChooseInitialState(ConfigOf(base, x), Fresh(), Missing)
  }

  /** A joiner that found its disk clean and waits for its confirmation. */
  predicate IsWaiting(n: Node) {
    n.state == JoiningCleanup && n.pending == [] && n.joining.settled
  }

  function Joins(x: Name, env: Env): (s: seq<Move>) {
    [Turns(x, MembershipChange, env), Turns(x, JoinWaitExpired, env), Turns(x, OperationEnded(0, true), env)]
  }

  lemma {:induction false} Diverts(base: Config, w: World, x: Name, env: Env)
    requires x in w.nodes && w.nodes[x] == Newborn(base, x) && GoodEnv(env) && Lowest(env.view, StableServer).name != ""
    ensures var d := After(base, w, Turns(x, MembershipChange, env));
            && CanMove(base, w, Turns(x, MembershipChange, env)) && d == w.(nodes := w.nodes[x := d.nodes[x]])
            && x in d.nodes && d.nodes[x].state == JoiningWaiting && d.nodes[x].pending == []
                 && !d.nodes[x].joining.cleaned
  {
    var cfg := ConfigOf(base, x);
    NewcomerDiverts(cfg, env);
    MembershipLogsNothing(cfg, w.nodes[x], env.view, env.now);
    hide OnMembershipChange;
    assert Step(cfg, w.nodes[x], MembershipChange, env) == OnMembershipChange(cfg, w.nodes[x], env.view, env.now);
    hide Step, ChooseInitialState, Lowest;
    PlainTurn(base, w, x, MembershipChange, env);
  }

  lemma {:induction false} MembershipLogsNothing(cfg: Config, n: Node, v: View, now: Time)
    ensures SameLog(n, OnMembershipChange(cfg, n, v, now))
  {
    hide MaybeStartJoiningPath, MaybeJoinCluster, MaybeInstallServer, MaybeInstallAgent, MaybeRescale;
    var a := MaybeStartJoiningPath(n, v);
    var b := MaybeJoinCluster(a, v);
    var c := MaybeInstallServer(b, v);
    FirstBootLogsNothing(n, v);
    FirstBootLogsNothing(a, v);
    FirstBootLogsNothing(b, v);
    FirstBootLogsNothing(c, v);
    EvaluationConcludes(cfg, MaybeInstallAgent(c, v), MembershipChange, v, now);
  }

  lemma {:induction false} Settles(base: Config, w: World, x: Name, env: Env)
    requires x in w.nodes && GoodEnv(env) && Lowest(env.view, StableServer).name != ""
    requires w.nodes[x].state == JoiningWaiting && w.nodes[x].pending == [] && !w.nodes[x].joining.cleaned
    ensures var d := After(base, w, Turns(x, JoinWaitExpired, env));
            && CanMove(base, w, Turns(x, JoinWaitExpired, env)) && d == w.(nodes := w.nodes[x := d.nodes[x]])
            && x in d.nodes && d.nodes[x].state == JoiningCleanup && d.nodes[x].pending == [CheckNotInstalled]
            && d.nodes[x].joining.settled
  {
    var cfg := ConfigOf(base, x);
    JoinerSettles(cfg, w.nodes[x], env);
    var n := w.nodes[x];
    FirstBootLogsNothing(n.(joining := n.joining.(settled := true, timer := false)), env.view);
    assert SameLog(n, Step(cfg, n, JoinWaitExpired, env));
    hide Step, Lowest;
    PlainTurn(base, w, x, JoinWaitExpired, env);
  }

  lemma {:induction false} Checks(base: Config, w: World, x: Name, env: Env)
    requires x in w.nodes && GoodEnv(env) && x !in w.installed && x !in w.erased
    requires w.nodes[x].state == JoiningCleanup && w.nodes[x].pending == [CheckNotInstalled]
               && w.nodes[x].joining.settled
    ensures var d := After(base, w, Turns(x, OperationEnded(0, true), env));
            && CanMove(base, w, Turns(x, OperationEnded(0, true), env)) && d == w.(nodes := w.nodes[x := d.nodes[x]])
            && x in d.nodes && IsWaiting(d.nodes[x])
  {
    var m := Step(ConfigOf(base, x), w.nodes[x], OperationEnded(0, true), env);
    assert m.sent == w.nodes[x].sent || m.sent == w.nodes[x].sent + [ForgetMe(Some(x))];
    assert IsWaiting(m) && m.lookups == w.nodes[x].lookups;
    hide Step;
    PlainTurn(base, w, x, OperationEnded(0, true), env);
  }

  /** From its first boot to its request, nothing but the joiner itself changes. */
  lemma {:induction false} NewbornAsks(base: Config, w: World, moves: seq<Move>, x: Name, env: Env)
    returns (more: seq<Move>)
    requires CanCourse(base, w, moves) && GoodEnv(env) && Lowest(env.view, StableServer).name != ""
    requires var k := Course(base, w, moves);
             x in k.nodes && k.nodes[x] == Newborn(base, x) && x !in k.installed && x !in k.erased
    ensures moves <= more && CanCourse(base, w, more)
    ensures forall z :: BornClean(base, w, moves, z) ==> BornClean(base, w, more, z)
    ensures var k, d := Course(base, w, moves), Course(base, w, more);
            x in d.nodes && d == k.(nodes := k.nodes[x := d.nodes[x]]) && IsWaiting(d.nodes[x])
  {
    hide CanCourse, Course, CanMove, After, BornClean, Lowest, GoodEnv, Newborn, IsWaiting, Stale;
    var k := Course(base, w, moves);
    Diverts(base, k, x, env);
    OneMore(base, w, moves, Joins(x, env)[0]);
    var a := moves + [Joins(x, env)[0]];
    Settles(base, Course(base, w, a), x, env);
    OneMore(base, w, a, Joins(x, env)[1]);
    var b := a + [Joins(x, env)[1]];
    Checks(base, Course(base, w, b), x, env);
    OneMore(base, w, b, Joins(x, env)[2]);
    more := b + [Joins(x, env)[2]];
  }

  /** A confirmation that is on its way makes a waiting joiner start its installation. */
  lemma {:induction false} ConfirmationArrives(base: Config, w: World, x: Name, env: Env)
    requires x in w.nodes && IsWaiting(w.nodes[x]) && x in w.confirmations && GoodEnv(env)
    requires Lowest(env.view, StableServer).name != ""
    ensures var move := Turns(x, UserEventReceived(Forgotten(Some(x))), env);
            var d := After(base, w, move);
            && CanMove(base, w, move) && d == w.(nodes := w.nodes[x := d.nodes[x]]) && x in d.nodes
            && d.nodes[x].state == JoiningAgent && |d.nodes[x].pending| == 1 && d.nodes[x].pending[0].InstallAgent?
            && (x in w.k3s ==> JoinsAsGhost(base, w, move, x))
  {
    var e := UserEventReceived(Forgotten(Some(x)));
    var m := Step(ConfigOf(base, x), w.nodes[x], e, env);
    assert m.sent == w.nodes[x].sent && m.lookups == w.nodes[x].lookups;
    assert m.state == JoiningAgent && m.pending == [InstallAgent(Lowest(env.view, StableServer).ip)];
    hide Step;
    PlainTurn(base, w, x, e, env);
  }

  // --- A stale conclusion becomes a confirmation ---

  /** Seen by everyone: some stable server. */
  function SomeServer(): (env: Env) { Env(1, [Member("s", "", Alive, StableServer)], true, {}) }

  lemma {:induction false} SomeServerIsSeen()
    ensures GoodEnv(SomeServer()) && Lowest(SomeServer().view, StableServer).name != ""
  {
    var v := SomeServer().view;
    assert v[..0] == [];
    assert Lowest(v[..0], StableServer) == NO_MEMBER;
  }

  /** Seen by a coordinator: itself, and a machine on its first boot. */
  function Pair(c: Name, x: Name): (env: Env) {
    Env(1, [Member(c, "", Alive, StableServer), Member(x, "", Alive, JoiningCleanup)], true, {})
  }

  lemma {:induction false} PairElects(c: Name, x: Name)
    requires c != "" && x != "" && c != x
    ensures GoodEnv(Pair(c, x)) && IsCoordinator(Pair(c, x).view, c) && IsVirgin(Pair(c, x).view, x)
    ensures !EtcdIsChanging(Pair(c, x).view)
  {
    var v := Pair(c, x).view;
    assert v[..1] == [Member(c, "", Alive, StableServer)] && v[..1][..0] == [];
    assert Lowest(v[..1][..0], StableServer) == NO_MEMBER;
    assert Lowest(v[..1], StableServer) == v[0];
    assert Lowest(v, StableServer) == v[0];
    assert v[1..][0].name == x;
  }

  /** How far from being a stable server again. */
  function Away(s: State): (k: nat) {
    match s
    case StableServer => 0
    case RescaleCoordinating => 1
    case RescalePromoting => 1
    case StableAgent => 2
    case _ => 3
  }

  /** A turn that brings it closer. */
  function WayBack(y: Name, s: State): (e: Event) {
    match s
    case RescaleCoordinating => OperationEnded(0, false)
    case StableAgent => UserEventReceived(RescaleConvert(Some(Order(y, Server, "s"))))
    case _ => OperationEnded(0, true)
  }

  /** What such a turn achieves. */
  predicate LeadsBack(cfg: Config, n: Node, m: Node) {
    && Possible(n, WayBack(cfg.name, n.state)) && HasServed(m.state) && !IsStuck(m) && Away(m.state) < Away(n.state)
    && m.sent == n.sent && m.lookups == n.lookups
  }

  lemma {:induction false} CoordinatorComesBack(cfg: Config, n: Node, env: Env)
    requires Sound(cfg, n) && n.state == RescaleCoordinating
    ensures LeadsBack(cfg, n, Step(cfg, n, WayBack(cfg.name, n.state), env))
  {
    hide MaybeRescale, OnRescaleCoordinationDone, RoundOk, RecordOk, JoinOk;
  }

  lemma {:induction false} AgentComesBack(cfg: Config, n: Node, env: Env)
    requires Sound(cfg, n) && n.state == StableAgent
    ensures LeadsBack(cfg, n, Step(cfg, n, WayBack(cfg.name, n.state), env))
  {
    hide MaybeRescale, OnRescaleCoordinationDone, TokenOk, RoundOk, JoinOk;
  }

  lemma {:induction false} PromotedComesBack(cfg: Config, n: Node, env: Env)
    requires Sound(cfg, n) && n.state == RescalePromoting
    ensures LeadsBack(cfg, n, Step(cfg, n, WayBack(cfg.name, n.state), env))
  {
    hide MaybeRescale, OnRescaleCoordinationDone, JoinOk;
  }

  lemma {:induction false} DemotedComesBack(cfg: Config, n: Node, env: Env)
    requires Sound(cfg, n) && n.state == RescaleDemoting && IsKnown(n.rescale.order.role)
    ensures LeadsBack(cfg, n, Step(cfg, n, WayBack(cfg.name, n.state), env))
  {
    hide MaybeRescale, OnRescaleCoordinationDone, JoinOk;
  }

  lemma {:induction false} WayBackLeadsBack(cfg: Config, n: Node, env: Env)
    requires Sound(cfg, n) && HasServed(n.state) && !IsStuck(n) && n.state != StableServer
    ensures LeadsBack(cfg, n, Step(cfg, n, WayBack(cfg.name, n.state), env))
  {
    hide Step, Sound, LeadsBack, WayBack;
    if n.state == RescaleCoordinating {
      CoordinatorComesBack(cfg, n, env);
    } else if n.state == StableAgent {
      AgentComesBack(cfg, n, env);
    } else if n.state == RescalePromoting {
      PromotedComesBack(cfg, n, env);
    } else {
      DemotedComesBack(cfg, n, env);
    }
  }

  /** The joiner waits, and nothing that matters to it has changed. */
  predicate Unmoved(w: World, d: World, x: Name) {
    && x in w.nodes && x in d.nodes && d.nodes[x] == w.nodes[x]
    && d.k3s == w.k3s && d.installed == w.installed
  }

  lemma {:induction false} StepsBack(base: Config, w: World, a: Answer, x: Name)
    requires Orderly(base, w) && Denies(w, a, x) && a.lookup.coordinator != x && x in w.nodes
    requires w.nodes[a.lookup.coordinator].state != StableServer
    ensures var y := a.lookup.coordinator;
            var move := Turns(y, WayBack(y, w.nodes[y].state), SomeServer());
            var d := After(base, w, move);
            && CanMove(base, w, move) && !IsBirth(w, move, x) && Denies(d, a, x) && Unmoved(w, d, x)
            && Away(d.nodes[y].state) < Away(w.nodes[y].state)
  {
    hide Sound, Step, FoundClean;
    var y := a.lookup.coordinator;
    assert MachineOk(base, w, y) && LookupOk(w, a.lookup);
    SomeServerIsSeen();
    WayBackLeadsBack(ConfigOf(base, y), w.nodes[y], SomeServer());
  }

  lemma {:induction false} AnswerConfirms(base: Config, w: World, a: Answer, x: Name)
    requires Orderly(base, w) && Denies(w, a, x) && a.lookup.coordinator != x && x in w.nodes
    requires w.nodes[a.lookup.coordinator].state == StableServer
    ensures var move := Handles(a, Pair(a.lookup.coordinator, x));
            var d := After(base, w, move);
            CanMove(base, w, move) && !IsBirth(w, move, x) && Unmoved(w, d, x) && x in d.confirmations
  {
    var y := a.lookup.coordinator;
    NamesAreReal(base, w, x);
    NamesAreReal(base, w, y);
    PairElects(y, x);
    var n, env := w.nodes[y], Pair(y, x);
    assert env.sendOk;
    hide Orderly, IsCoordinator, IsVirgin, GoodEnv, Pair;
    ProbeConfirms(ConfigOf(base, y), n, x, env);
    hide Step, Possible;
    ConfirmingIsSeen(n, Step(ConfigOf(base, y), n, Told(a), env), x);
  }

  lemma {:induction false} ProbeConfirms(cfg: Config, n: Node, x: Name, env: Env)
    requires n.state == StableServer && IsCoordinator(env.view, cfg.name) && IsVirgin(env.view, x) && env.sendOk
    ensures Step(cfg, n, ForgetProbed(x, false), env) == n.(sent := n.sent + [Forgotten(Some(x))])
  {
    hide IsCoordinator, IsVirgin;
  }

  lemma {:induction false} ConfirmingIsSeen(n: Node, m: Node, x: Name)
    requires m.sent == n.sent + [Forgotten(Some(x))]
    ensures x in Confirmed(n, m)
  {
    assert m.sent[|n.sent|] == Forgotten(Some(x));
  }

  lemma {:induction false} NamesAreReal(base: Config, w: World, x: Name)
    requires Orderly(base, w) && x in w.nodes
    ensures x != ""
  {
    hide TokenOk, RoundOk, RecordOk, JoinOk, FoundClean;
    assert MachineOk(base, w, x);
  }

  lemma {:induction false} RoundConfirms(base: Config, w: World, y: Name, x: Name)
    requires Orderly(base, w) && HasErased(w, y, x) && y != x && x in w.nodes
    ensures var move := Turns(y, OperationEnded(0, true), SomeServer());
            var d := After(base, w, move);
            CanMove(base, w, move) && !IsBirth(w, move, x) && Unmoved(w, d, x) && x in d.confirmations
  {
    var n, env := w.nodes[y], SomeServer();
    assert MachineOk(base, w, y);
    SomeServerIsSeen();
    assert n.pending == [EraseLeftover(x)];
    LifecycleRuns.RoundsEndAsTheyBegan(ConfigOf(base, y), n, env);
    hide Step, Sound, FoundClean, Orderly, MachineOk, SomeServer, GoodEnv;
    ConfirmingIsSeen(n, Step(ConfigOf(base, y), n, OperationEnded(0, true), env), x);
  }

  /** An unhandled denial can be turned into a confirmation, wherever its coordinator is by now. */
  lemma {:induction false} DenialLeads(base: Config, w: World, moves: seq<Move>, a: Answer, x: Name)
    returns (more: seq<Move>)
    requires Orderly(base, w) && CanCourse(base, w, moves) && BornClean(base, w, moves, x)
    requires var k := Course(base, w, moves); Denies(k, a, x) && a.lookup.coordinator != x && x in k.nodes
    ensures CanCourse(base, w, more) && BornClean(base, w, more, x)
    ensures Unmoved(Course(base, w, moves), Course(base, w, more), x) && x in Course(base, w, more).confirmations
    decreases Away(Course(base, w, moves).nodes[a.lookup.coordinator].state)
  {
    hide Orderly, CanCourse, Course, CanMove, After, BornClean, Denies, IsBirth, Stale, Away, WayBack;
    var k := Course(base, w, moves);
    CoursesAreOrderly(base, w, moves);
    var y := a.lookup.coordinator;
    assert y in k.nodes by { DenialsAreHeld(k, a, x); }
    if k.nodes[y].state == StableServer {
      AnswerConfirms(base, k, a, x);
      OneMore(base, w, moves, Handles(a, Pair(y, x)));
      more := moves + [Handles(a, Pair(y, x))];
    } else {
      var move := Turns(y, WayBack(y, k.nodes[y].state), SomeServer());
      StepsBack(base, k, a, x);
      OneMore(base, w, moves, move);
      more := DenialLeads(base, w, moves + [move], a, x);
    }
  }

  lemma {:induction false} DenialsAreHeld(w: World, a: Answer, x: Name)
    requires Denies(w, a, x)
    ensures a.lookup.coordinator in w.nodes
  {}

  lemma {:induction false} ConclusionLeads(base: Config, w: World, x: Name) returns (moves: seq<Move>)
    requires Orderly(base, w) && Concluded(w, x) && x in w.nodes
    ensures CanCourse(base, w, moves) && BornClean(base, w, moves, x)
    ensures Unmoved(w, Course(base, w, moves), x) && x in Course(base, w, moves).confirmations
  {
    moves := [];
    assert Course(base, w, []) == w && CanCourse(base, w, []) && BornClean(base, w, [], x);
    hide Orderly, CanCourse, Course, CanMove, After, BornClean, Denies, IsBirth, Stale, HasErased;
    if x !in w.confirmations {
      if a :| Denies(w, a, x) && a.lookup.coordinator != x {
        moves := DenialLeads(base, w, [], a, x);
      } else {
        var y :| HasErased(w, y, x) && y != x;
        RoundConfirms(base, w, y, x);
        OneMore(base, w, [], Turns(y, OperationEnded(0, true), SomeServer()));
        moves := [] + [Turns(y, OperationEnded(0, true), SomeServer())];
      }
    }
  }

  // --- Exactly which resets are harmful ---

  lemma {:induction false} StaleBirthsHarm(base: Config, w: World, birth: Move, x: Name)
    requires Orderly(base, w) && CanMove(base, w, birth) && IsBirth(w, birth, x) && Stale(w, x)
    ensures CanBecomeGhost(base, After(base, w, birth), x)
  {
    var d := After(base, w, birth);
    BirthWorld(base, w, birth, x);
    MovesAreOrderly(base, w, birth);
    hide Orderly, After, CanCourse, Course, CanMove, BornClean, Newborn, Concluded, IsWaiting, JoinsAsGhost, Stale,
         Lowest;
    var moves := ConclusionLeads(base, d, x);
    CoursesAreOrderly(base, d, moves);
    ConfirmationLetsIn(base, d, moves, x);
  }

  /** A newborn whose name K3s knows, with a confirmation on its way, can install. */
  lemma {:induction false} ConfirmationLetsIn(base: Config, w: World, moves: seq<Move>, x: Name)
    requires CanCourse(base, w, moves) && BornClean(base, w, moves, x) && Orderly(base, Course(base, w, moves))
    requires var k := Course(base, w, moves);
             x in k.nodes && k.nodes[x] == Newborn(base, x) && x in k.k3s && x !in k.installed && x in k.confirmations
    ensures CanBecomeGhost(base, w, x)
  {
    hide Orderly, After, CanCourse, Course, CanMove, BornClean, Newborn, IsWaiting, JoinsAsGhost, Lowest, GoodEnv;
    SomeServerIsSeen();
    NewbornsEraseNothing(base, Course(base, w, moves), x);
    var more := NewbornAsks(base, w, moves, x, SomeServer());
    ConfirmationArrives(base, Course(base, w, more), x, SomeServer());
    assert LeadsToGhost(base, w, more, Turns(x, UserEventReceived(Forgotten(Some(x))), SomeServer()), x);
  }

  lemma {:induction false} NewbornsEraseNothing(base: Config, w: World, x: Name)
    requires Orderly(base, w) && x in w.nodes && w.nodes[x] == Newborn(base, x)
    ensures x !in w.erased
  {
    hide Sound, FoundClean;
    assert MachineOk(base, w, x);
  }

  lemma {:induction false} BirthWorld(base: Config, w: World, birth: Move, x: Name)
    requires IsBirth(w, birth, x) && Stale(w, x)
    ensures var d := After(base, w, birth);
            x in d.nodes && d.nodes[x] == Newborn(base, x) && x in d.k3s && x !in d.installed && Concluded(d, x)
  {
    hide IsStuck, ChooseInitialState;
    var d := After(base, w, birth);
    if a :| Denies(w, a, x) && a.lookup.coordinator != x {
      assert Denies(d, a, x);
    } else if y :| HasErased(w, y, x) && y != x {
      assert HasErased(d, y, x);
    }
  }

  /**
   * In every world a run can come to, a first boot of x on a disk without K3s (after a factory reset, or
   * after its state file was lost) makes a ghost possible, some continuation making this machine install
   * while K3s knows its name, if and only if K3s knows its name and someone else concluded otherwise: a
   * confirmation on its way, an unhandled answer whose coordinator can still act on it, or a deletion
   * carried out in a round that has not ended. In a continuation, as in every run here, what the
   * machines see and which orders reach them is not constrained.
   */
  lemma {:induction false} BirthsAreHarmfulExactlyWhenStale(
    base: Config, start: World, moves: seq<Move>, birth: Move, x: Name)
    requires Begins(base, start) && CanCourse(base, start, moves)
    requires var w := Course(base, start, moves); CanMove(base, w, birth) && IsBirth(w, birth, x)
    ensures var w := Course(base, start, moves);
            CanBecomeGhost(base, After(base, w, birth), x) <==> Stale(w, x)
  {
    hide Orderly, After, Begins, CanCourse, Course, CanBecomeGhost, Stale, EvidenceHolds, CanMove;
    BeginningIsOrderly(base, start);
    CoursesAreOrderly(base, start, moves);
    var w := Course(base, start, moves);
    MovesAreOrderly(base, w, birth);
    BirthsAreClean(base, w, birth, x);
    if Stale(w, x) {
      StaleBirthsHarm(base, w, birth, x);
    } else {
      CleanMachinesAreSafe(base, After(base, w, birth), x);
    }
  }
}

/** A machine that waits to be forgotten, or is just born, can always still join. */
module ForgetMeProgress {
  import opened Names
  import opened Lifecycle
  import opened ClusterView
  import opened NodeStep
  import opened NodeRuns
  import opened ForgetMe
  import opened ForgetMeResets
  import opened ForgetMeRuns

  /** A machine that can coordinate, now or once its round or conversion has ended. */
  predicate CanServe(w: World, c: Name) {
    c in w.nodes && HasServed(w.nodes[c].state) && !IsStuck(w.nodes[c])
  }

  lemma {:induction false} ServerComesCloser(base: Config, w: World, c: Name, x: Name)
    requires Orderly(base, w) && CanServe(w, c) && c != x && x in w.nodes && w.nodes[c].state != StableServer
    ensures var move := Turns(c, WayBack(c, w.nodes[c].state), SomeServer());
            var d := After(base, w, move);
            && CanMove(base, w, move) && !IsBirth(w, move, x) && CanServe(d, c) && Unmoved(w, d, x)
            && Away(d.nodes[c].state) < Away(w.nodes[c].state)
  {
    hide Sound, Step, FoundClean;
    assert MachineOk(base, w, c);
    SomeServerIsSeen();
    WayBackLeadsBack(ConfigOf(base, c), w.nodes[c], SomeServer());
  }

  /** It becomes a stable server again, and the joiner sees nothing of it. */
  lemma {:induction false} ServerComesBack(base: Config, w: World, before: seq<Move>, c: Name, x: Name)
    returns (moves: seq<Move>)
    requires Orderly(base, w) && IsRun(base, w, before, x)
    requires CanServe(Course(base, w, before), c) && c != x && x in Course(base, w, before).nodes
    ensures before <= moves && IsRun(base, w, moves, x) && Unmoved(Course(base, w, before), Course(base, w, moves), x)
    ensures var d := Course(base, w, moves); c in d.nodes && d.nodes[c].state == StableServer
    decreases Away(Course(base, w, before).nodes[c].state)
  {
    RunsAreCourses(base, w, before, x);
    CoursesAreOrderly(base, w, before);
    hide Orderly, CanCourse, Course, CanMove, After, BornClean, IsRun, IsBirth, Stale, Away, WayBack, SomeServer;
    var k := Course(base, w, before);
    moves := before;
    if k.nodes[c].state != StableServer {
      ServerComesCloser(base, k, c, x);
      moves := Goes(base, w, before, Turns(c, WayBack(c, k.nodes[c].state), SomeServer()), x);
      moves := ServerComesBack(base, w, moves, c, x);
    }
  }

  /** The world around a joiner whose coordinator is at work: the joiner, and what is under way for it. */
  predicate Serves(w: World, c: Name, x: Name) {
    c != x && c in w.nodes && x in w.nodes && c != "" && x != "" && IsWaiting(w.nodes[x])
  }

  lemma {:induction false} ServerIsIdle(base: Config, w: World, c: Name)
    requires Orderly(base, w) && c in w.nodes && w.nodes[c].state == StableServer
    ensures w.nodes[c].pending == []
  {
    hide RoundOk, RecordOk, JoinOk, FoundClean;
    assert MachineOk(base, w, c);
  }

  /** The lookup is made and answered. */
  lemma {:induction false} LookupIsAnswered(base: Config, w: World, before: seq<Move>, c: Name, x: Name)
    returns (moves: seq<Move>, a: Answer)
    requires IsRun(base, w, before, x) && Serves(Course(base, w, before), c, x)
    requires Course(base, w, before).nodes[c].state == StableServer
    ensures before <= moves && IsRun(base, w, moves, x)
    ensures var d := Course(base, w, moves);
            && Serves(d, c, x) && d.nodes[c].state == StableServer && a in d.answers
            && a.lookup.coordinator == c && a.lookup.name == x && (a.found <==> x in d.k3s)
  {
    PairElects(c, x);
    hide Course, CanCourse, BornClean, IsRun, CanMove, After, GoodEnv, IsWaiting, IsCoordinator, IsVirgin,
         EtcdIsChanging, Stale, Pair;
    var k := Course(base, w, before);
    var l := Lookup(c, |k.nodes[c].lookups|, x);
    LooksUp(base, k, c, x, Pair(c, x));
    moves := Goes(base, w, before, Turns(c, UserEventReceived(ForgetMe(Some(x))), Pair(c, x)), x);
    Surroundings(base, Course(base, w, moves), l, Answer(l, true), x);
    a := Answer(l, x in Course(base, w, moves).k3s);
    moves := Goes(base, w, moves, Answers(l), x);
  }

  /** K3s knows nothing: the coordinator confirms. */
  lemma {:induction false} NothingToErase(base: Config, w: World, before: seq<Move>, c: Name, x: Name, a: Answer)
    returns (moves: seq<Move>)
    requires IsRun(base, w, before, x) && Serves(Course(base, w, before), c, x)
    requires var k := Course(base, w, before);
             k.nodes[c].state == StableServer && a in k.answers && a.lookup.coordinator == c && a.lookup.name == x
               && !a.found
    ensures before <= moves && IsRun(base, w, moves, x)
    ensures var d := Course(base, w, moves);
            x in d.nodes && IsWaiting(d.nodes[x]) && x in d.confirmations
  {
    PairElects(c, x);
    assert Pair(c, x).sendOk;
    hide Course, CanCourse, BornClean, IsRun, CanMove, After, GoodEnv, IsWaiting, IsCoordinator, IsVirgin,
         EtcdIsChanging, Stale, Pair;
    FindsNothing(base, Course(base, w, before), a, Pair(c, x));
    moves := Goes(base, w, before, Handles(a, Pair(c, x)), x);
  }

  /** K3s knows a ghost: the coordinator starts to erase it. */
  lemma {:induction false} ErasingStarts(base: Config, w: World, before: seq<Move>, c: Name, x: Name, a: Answer)
    returns (moves: seq<Move>)
    requires IsRun(base, w, before, x) && Serves(Course(base, w, before), c, x)
    requires var k := Course(base, w, before);
             && k.nodes[c].state == StableServer && k.nodes[c].pending == [] && a in k.answers
             && a.lookup.coordinator == c && a.lookup.name == x && a.found
    ensures before <= moves && IsRun(base, w, moves, x)
    ensures var d := Course(base, w, moves);
            Serves(d, c, x) && d.nodes[c].state == RescaleCoordinating && d.nodes[c].rescale.cleaning == x
  {
    PairElects(c, x);
    hide Course, CanCourse, BornClean, IsRun, CanMove, After, GoodEnv, IsWaiting, IsCoordinator, IsVirgin,
         EtcdIsChanging, Stale, Pair;
    FindsLeftover(base, Course(base, w, before), a, Pair(c, x));
    moves := Goes(base, w, before, Handles(a, Pair(c, x)), x);
  }

  /** The ghost is erased, the round ends, and the coordinator confirms. */
  lemma {:induction false} ErasingEnds(base: Config, w: World, before: seq<Move>, c: Name, x: Name)
    returns (moves: seq<Move>)
    requires Orderly(base, w) && IsRun(base, w, before, x) && Serves(Course(base, w, before), c, x)
    requires var k := Course(base, w, before);
             k.nodes[c].state == RescaleCoordinating && k.nodes[c].rescale.cleaning == x
    ensures before <= moves && IsRun(base, w, moves, x)
    ensures var d := Course(base, w, moves);
            x in d.nodes && IsWaiting(d.nodes[x]) && x in d.confirmations
  {
    hide Orderly, Course, CanCourse, BornClean, IsRun, CanMove, After, IsWaiting, Stale, SomeServer;
    Erasing(base, Course(base, w, before), x, c);
    moves := Goes(base, w, before, Erases(c), x);
    RunsAreCourses(base, w, moves, x);
    CoursesAreOrderly(base, w, moves);
    RoundConfirms(base, Course(base, w, moves), c, x);
    moves := Goes(base, w, moves, Turns(c, OperationEnded(0, true), SomeServer()), x);
  }

  /**
   * Wherever a run has come to: a machine that waits for its confirmation can still be confirmed, and
   * then starts its installation, unknown to K3s if its births were clean, as long as some other machine
   * is a stable server, or can be one again once its round or its conversion has ended.
   */
  lemma {:induction false} EveryWaitingJoinerCanJoin(base: Config, w: World, before: seq<Move>, x: Name, c: Name)
    returns (moves: seq<Move>)
    requires Orderly(base, w) && IsRun(base, w, before, x)
    requires var k := Course(base, w, before); x in k.nodes && IsWaiting(k.nodes[x]) && CanServe(k, c) && c != x
    ensures before <= moves && IsRun(base, w, moves, x)
    ensures var d := Course(base, w, moves);
            x in d.nodes && d.nodes[x].state == JoiningAgent && (EvidenceHolds(w, x) ==> x !in d.k3s)
  {
    hide Orderly, Course, CanCourse, BornClean, IsRun, CanMove, After, IsWaiting, Stale, SomeServer, CanServe, Lowest,
         EvidenceHolds, GoodEnv;
    moves := ServerComesBack(base, w, before, c, x);
    RunsAreCourses(base, w, moves, x);
    CoursesAreOrderly(base, w, moves);
    NamesAreReal(base, Course(base, w, moves), c);
    NamesAreReal(base, Course(base, w, moves), x);
    var a: Answer;
    moves, a := LookupIsAnswered(base, w, moves, c, x);
    if a.found {
      RunsAreCourses(base, w, moves, x);
      CoursesAreOrderly(base, w, moves);
      ServerIsIdle(base, Course(base, w, moves), c);
      moves := ErasingStarts(base, w, moves, c, x, a);
      moves := ErasingEnds(base, w, moves, c, x);
    } else {
      moves := NothingToErase(base, w, moves, c, x, a);
    }
    SomeServerIsSeen();
    ConfirmationArrives(base, Course(base, w, moves), x, SomeServer());
    var last := Turns(x, UserEventReceived(Forgotten(Some(x))), SomeServer());
    if EvidenceHolds(w, x) {
      RunsKeepEvidence(base, w, moves, x);
      RunsAreCourses(base, w, moves, x);
      CoursesAreOrderly(base, w, moves);
      NoGhostHere(base, Course(base, w, moves), last, x);
    }
    moves := Goes(base, w, moves, last, x);
  }

  lemma {:induction false} RunsKeepEvidence(base: Config, w: World, moves: seq<Move>, x: Name)
    requires Orderly(base, w) && IsRun(base, w, moves, x) && EvidenceHolds(w, x)
    ensures EvidenceHolds(Course(base, w, moves), x)
  {
    hide Orderly, Course, CanCourse, BornClean, EvidenceHolds;
    CoursesKeepEvidence(base, w, moves, x);
  }

  /** From its birth to its request. */
  lemma {:induction false} NewbornComesToWait(base: Config, w: World, before: seq<Move>, x: Name, c: Name)
    returns (moves: seq<Move>)
    requires Orderly(base, w) && IsRun(base, w, before, x)
    requires var k := Course(base, w, before);
             x in k.nodes && k.nodes[x] == Newborn(base, x) && x !in k.installed && CanServe(k, c) && c != x
    ensures before <= moves && IsRun(base, w, moves, x)
    ensures var d := Course(base, w, moves); x in d.nodes && IsWaiting(d.nodes[x]) && CanServe(d, c)
  {
    RunsAreCourses(base, w, before, x);
    CoursesAreOrderly(base, w, before);
    SomeServerIsSeen();
    NewbornsEraseNothing(base, Course(base, w, before), x);
    hide Orderly, Course, CanCourse, CanMove, After, IsWaiting, Stale, SomeServer, Lowest, Newborn, BornClean, GoodEnv,
         CanServe;
    moves := NewbornAsks(base, w, before, x, SomeServer());
    OthersCanServe(Course(base, w, before), Course(base, w, moves), x, c);
  }

  lemma {:induction false} OthersCanServe(w: World, d: World, x: Name, c: Name)
    requires CanServe(w, c) && c != x && x in d.nodes && d.nodes == w.nodes[x := d.nodes[x]]
    ensures CanServe(d, c)
  {}

  /** So can a machine that was just born on a disk without K3s: it asks, is confirmed, and installs. */
  lemma {:induction false} EveryNewbornCanJoin(base: Config, w: World, before: seq<Move>, x: Name, c: Name)
    returns (moves: seq<Move>)
    requires Orderly(base, w) && IsRun(base, w, before, x)
    requires var k := Course(base, w, before);
             x in k.nodes && k.nodes[x] == Newborn(base, x) && x !in k.installed && CanServe(k, c) && c != x
    ensures before <= moves && IsRun(base, w, moves, x)
    ensures var d := Course(base, w, moves);
            x in d.nodes && d.nodes[x].state == JoiningAgent && (EvidenceHolds(w, x) ==> x !in d.k3s)
  {
    hide Orderly, Course, IsRun, IsWaiting, Newborn, CanServe, EvidenceHolds;
    moves := NewbornComesToWait(base, w, before, x, c);
    moves := EveryWaitingJoinerCanJoin(base, w, moves, x, c);
  }
}

/**
 * Runs of the forget-me protocol from a fresh start: a ghost is erased by one coordinator while another
 * one confirms, which leaves every kind of stale conclusion behind; and a machine that joined, was reset
 * and asks again joins a second time.
 */
module ForgetMeRuns {
  import opened Names
  import opened Lifecycle
  import opened ClusterView
  import opened NodeStep
  import opened NodeRuns
  import opened ForgetMe
  import opened ForgetMeResets

  // --- Two servers and a machine whose name K3s still knows ---

  function RejoiningServer(base: Config, y: Name): (m: Node) {
    ChooseInitialState(ConfigOf(base, y), Fresh(), Loaded(Persisted(y, Server, 1, 1, NO_TIME)))
  }

  function Start(base: Config, x: Name, y: Name, z: Name): (d: World) {
    World(map[x := Newborn(base, x), y := RejoiningServer(base, y), z := RejoiningServer(base, z)],
          {x, y, z}, {y, z}, {}, {}, {}, {})
  }

  predicate AreNames(x: Name, y: Name, z: Name) {
    x != "" && y != "" && z != "" && x != y && x != z && y != z && Less(y, z)
  }

  predicate AreHere(w: World, x: Name, y: Name, z: Name) {
    AreNames(x, y, z) && x in w.nodes && y in w.nodes && z in w.nodes
  }

  lemma {:induction false} StartBegins(base: Config, x: Name, y: Name, z: Name)
    requires AreNames(x, y, z)
    ensures Begins(base, Start(base, x, y, z))
  {
    hide ChooseInitialState;
    var w := Start(base, x, y, z);
    forall p | p in w.nodes
      ensures p != ""
      ensures exists file :: ValidFile(file) && w.nodes[p] == ChooseInitialState(ConfigOf(base, p), Fresh(), file)
    {
      var file := if p == x then Missing else Loaded(Persisted(p, Server, 1, 1, NO_TIME));
      assert ValidFile(file) && w.nodes[p] == ChooseInitialState(ConfigOf(base, p), Fresh(), file);
    }
  }

  /** What everyone sees: the servers, the first one in some state, and the joiner. */
  function Trio(x: Name, y: Name, z: Name, s: State): (env: Env) {
    Env(1, [Member(y, "", Alive, s), Member(z, "", Alive, StableServer), Member(x, "", Alive, JoiningCleanup)], true,
      {})
  }

  lemma {:induction false} TrioElects(x: Name, y: Name, z: Name, s: State)
    requires AreNames(x, y, z) && (s == StableServer || s == RescaleCoordinating)
    ensures var env := Trio(x, y, z, s);
            && GoodEnv(env) && IsVirgin(env.view, x) && Lowest(env.view, StableServer).name != ""
            && (s == StableServer ==> IsCoordinator(env.view, y) && !EtcdIsChanging(env.view))
            && (s == RescaleCoordinating ==> IsCoordinator(env.view, z))
  {
    var v := Trio(x, y, z, s).view;
    assert v[1..] == [v[1], v[2]] && v[1..][1..] == [v[2]];
    assert IsVirgin(v[1..][1..], x) && IsVirgin(v[1..], x);
    LessIsAsymmetric(y, z);
    hide Less;
    assert v[..2][..1][..0] == [] && v[..2][..1] == [v[0]] && v[..2] == [v[0], v[1]];
    assert Lowest(v[..2][..1][..0], StableServer) == NO_MEMBER;
    assert Lowest(v[..2], StableServer) == if s == StableServer then v[0] else v[1];
    assert Lowest(v, StableServer) == Lowest(v[..2], StableServer);
  }

  // --- The coordinators' moves ---

  lemma {:induction false} Rejoins(base: Config, w: World, y: Name, env: Env)
    requires y in w.nodes && w.nodes[y] == RejoiningServer(base, y) && y !in w.erased && GoodEnv(env) && y != ""
    ensures var move := Turns(y, OperationEnded(0, true), env);
            var d := After(base, w, move);
            && CanMove(base, w, move) && d == w.(nodes := w.nodes[y := d.nodes[y]]) && y in d.nodes
            && d.nodes[y].state == StableServer && d.nodes[y].pending == [] && d.nodes[y].lookups == []
  {
    var n := w.nodes[y];
    var m := Step(ConfigOf(base, y), n, OperationEnded(0, true), env);
    assert m.state == StableServer && m.pending == [] && m.lookups == n.lookups == [] && m.sent == n.sent;
    hide Step, ChooseInitialState;
    PlainTurn(base, w, y, OperationEnded(0, true), env);
  }

  /** A stable server that believes itself coordinator looks a joiner up. */
  lemma {:induction false} LooksUp(base: Config, w: World, c: Name, x: Name, env: Env)
    requires c in w.nodes && w.nodes[c].state == StableServer && GoodEnv(env)
    requires IsCoordinator(env.view, c) && IsVirgin(env.view, x)
    ensures var move := Turns(c, UserEventReceived(ForgetMe(Some(x))), env);
            var d := After(base, w, move);
            var k := |w.nodes[c].lookups|;
            && CanMove(base, w, move) && c in d.nodes && d.nodes[c].state == StableServer
            && d.nodes[c].pending == w.nodes[c].pending && |d.nodes[c].lookups| == k + 1
            && d == w.(nodes := w.nodes[c := d.nodes[c]], open := w.open + {Lookup(c, k, x)})
  {
    var e := UserEventReceived(ForgetMe(Some(x)));
    var n := w.nodes[c];
    var m := Step(ConfigOf(base, c), n, e, env);
    assert m == n.(lookups := n.lookups + [x]);
    hide Step;
    assert Confirmed(n, m) == {};
    assert m.lookups[|n.lookups|] == x;
    assert Started(c, n, m) == {Lookup(c, |n.lookups|, x)};
  }

  lemma {:induction false} FindsLeftover(base: Config, w: World, a: Answer, env: Env)
    requires a in w.answers && a.found && a.lookup.coordinator in w.nodes && a.lookup.name != "" && GoodEnv(env)
    requires var c := a.lookup.coordinator;
             w.nodes[c].state == StableServer && w.nodes[c].pending == []
             && IsCoordinator(env.view, c) && IsVirgin(env.view, a.lookup.name) && !EtcdIsChanging(env.view)
    ensures var c := a.lookup.coordinator;
            var d := After(base, w, Handles(a, env));
            && CanMove(base, w, Handles(a, env)) && c in d.nodes
            && d == w.(nodes := w.nodes[c := d.nodes[c]], answers := w.answers - {a})
            && d.nodes[c].state == RescaleCoordinating && d.nodes[c].rescale.cleaning == a.lookup.name
            && d.nodes[c].pending == [EraseLeftover(a.lookup.name)] && d.nodes[c].lookups == w.nodes[c].lookups
  {
    var c := a.lookup.coordinator;
    var n := w.nodes[c];
    var v := w.(answers := w.answers - {a});
    var m := Step(ConfigOf(base, c), n, Told(a), env);
    assert m.sent == n.sent && m.lookups == n.lookups && m.pending == [EraseLeftover(a.lookup.name)];
    hide Step;
    PlainTurn(base, v, c, Told(a), env);
  }

  lemma {:induction false} FindsNothing(base: Config, w: World, a: Answer, env: Env)
    requires a in w.answers && !a.found && a.lookup.coordinator in w.nodes && GoodEnv(env) && env.sendOk
    requires var c := a.lookup.coordinator;
             w.nodes[c].state == StableServer && IsCoordinator(env.view, c) && IsVirgin(env.view, a.lookup.name)
    ensures var c := a.lookup.coordinator;
            var d := After(base, w, Handles(a, env));
            && CanMove(base, w, Handles(a, env)) && c in d.nodes && d.nodes[c].state == StableServer
            && d == w.(nodes := w.nodes[c := d.nodes[c]], answers := w.answers - {a},
                       confirmations := w.confirmations + {a.lookup.name})
  {
    var c := a.lookup.coordinator;
    var n := w.nodes[c];
    var m := Step(ConfigOf(base, c), n, Told(a), env);
    assert m == n.(sent := n.sent + [Forgotten(Some(a.lookup.name))]);
    hide Step;
    assert m.sent[|n.sent|] == Forgotten(Some(a.lookup.name));
    assert Confirmed(n, m) == {a.lookup.name};
    assert Started(c, n, m) == {};
  }

  /** A cleaning round whose deletion was carried out is given up. */
  lemma {:induction false} GivesUp(base: Config, w: World, y: Name, env: Env)
    requires y in w.nodes && w.nodes[y].state == RescaleCoordinating && |w.nodes[y].pending| == 1 && GoodEnv(env)
    requires w.nodes[y].pending[0].EraseLeftover?
    ensures var move := Turns(y, OperationEnded(0, false), env);
            var d := After(base, w, move);
            && CanMove(base, w, move) && y in d.nodes
                 && d == w.(nodes := w.nodes[y := d.nodes[y]], erased := w.erased - {y})
            && d.nodes[y].state == StableServer && d.nodes[y].pending == [] && d.nodes[y].lookups == w.nodes[y].lookups
  {
    var n := w.nodes[y];
    var m := Step(ConfigOf(base, y), n, OperationEnded(0, false), env);
    assert Retire(n, 0).pending == [];
    assert m.state == StableServer && m.pending == [] && m.lookups == n.lookups && m.sent == n.sent;
    hide Step;
    assert Started(y, n, m) == {} && Confirmed(n, m) == {};
  }

  /** The joiner's installation: K3s on its disk, its name registered, and the result. */
  lemma {:induction false} Installed(base: Config, w: World, x: Name, env: Env)
    requires x in w.nodes && w.nodes[x].state == JoiningAgent && |w.nodes[x].pending| == 1
    requires w.nodes[x].pending[0].InstallAgent? && x !in w.erased && GoodEnv(env)
    ensures CanMove(base, w, Installs(x))
    ensures var move := Turns(x, OperationEnded(0, true), env);
            var d := After(base, w, move);
            && CanMove(base, w, move) && x in d.nodes && d == w.(nodes := w.nodes[x := d.nodes[x]])
            && d.nodes[x].state == StableAgent
  {
    var m := Step(ConfigOf(base, x), w.nodes[x], OperationEnded(0, true), env);
    assert m.state == StableAgent && m.lookups == w.nodes[x].lookups && m.sent == w.nodes[x].sent;
    assert CanInstall(w.nodes[x].pending[0]);
    hide Step;
    PlainTurn(base, w, x, OperationEnded(0, true), env);
  }

  /** The moves of the surroundings. */
  lemma {:induction false} Surroundings(base: Config, w: World, l: Lookup, a: Answer, x: Name)
    ensures l in w.open ==> CanMove(base, w, Answers(l))
    ensures After(base, w, Answers(l)) == w.(open := w.open - {l}, answers := w.answers + {Answer(l, l.name in w.k3s)})
    ensures CanMove(base, w, Drops(a)) && After(base, w, Drops(a)) == w.(answers := w.answers - {a})
    ensures CanMove(base, w, Loses(x)) && After(base, w, Loses(x)) == w.(confirmations := w.confirmations - {x})
    ensures After(base, w, Installs(x)) == w.(installed := w.installed + {x})
    ensures x in w.installed ==> CanMove(base, w, Registers(x))
    ensures After(base, w, Registers(x)) == w.(k3s := w.k3s + {x})
  {}

  lemma {:induction false} Erasing(base: Config, w: World, x: Name, y: Name)
    requires y in w.nodes && w.nodes[y].state == RescaleCoordinating && w.nodes[y].rescale.cleaning == x && x != ""
    ensures CanMove(base, w, Erases(y)) && After(base, w, Erases(y)) == w.(k3s := w.k3s - {x}, erased := w.erased + {y})
  {}

  // --- The stages of one run ---

  /** Both servers are idle after some lookups, and the joiner asked. */
  predicate Asked(w: World, x: Name, y: Name, z: Name, k: nat, j: nat) {
    && AreHere(w, x, y, z) && IsWaiting(w.nodes[x])
    && w.nodes[y].state == StableServer && w.nodes[y].pending == [] && |w.nodes[y].lookups| == k
    && w.nodes[z].state == StableServer && |w.nodes[z].lookups| == j
    && w == World(w.nodes, {x, y, z}, {y, z}, {}, {}, {}, {})
  }

  /** The first server asked K3s about the joiner. */
  predicate LookedUp(w: World, x: Name, y: Name, z: Name, k: nat, j: nat) {
    && AreHere(w, x, y, z) && IsWaiting(w.nodes[x])
    && w.nodes[y].state == StableServer && w.nodes[y].pending == [] && |w.nodes[y].lookups| == k + 1
    && w.nodes[z].state == StableServer && |w.nodes[z].lookups| == j
    && w == World(w.nodes, {x, y, z}, {y, z}, {}, {Lookup(y, k, x)}, {}, {})
  }

  /** K3s knows a ghost. */
  predicate Found(w: World, x: Name, y: Name, z: Name, k: nat, j: nat) {
    && AreHere(w, x, y, z) && IsWaiting(w.nodes[x])
    && w.nodes[y].state == StableServer && w.nodes[y].pending == [] && |w.nodes[y].lookups| == k + 1
    && w.nodes[z].state == StableServer && |w.nodes[z].lookups| == j
    && w == World(w.nodes, {x, y, z}, {y, z}, {}, {}, {Answer(Lookup(y, k, x), true)}, {})
  }

  /** The first server drives a cleaning round for the joiner. */
  predicate Cleans(w: World, x: Name, y: Name, k: nat) {
    && y in w.nodes && w.nodes[y].state == RescaleCoordinating && w.nodes[y].rescale.cleaning == x
    && w.nodes[y].pending == [EraseLeftover(x)] && |w.nodes[y].lookups| == k + 1
  }

  predicate Cleaning(w: World, x: Name, y: Name, z: Name, k: nat, j: nat) {
    && AreHere(w, x, y, z) && IsWaiting(w.nodes[x]) && Cleans(w, x, y, k)
    && w.nodes[z].state == StableServer && |w.nodes[z].lookups| == j
    && w == World(w.nodes, {x, y, z}, {y, z}, {}, {}, {}, {})
  }

  /** It erased the ghost, and has not handled the end of its round. */
  predicate Erased(w: World, x: Name, y: Name, z: Name, k: nat, j: nat) {
    && AreHere(w, x, y, z) && IsWaiting(w.nodes[x]) && Cleans(w, x, y, k)
    && w.nodes[z].state == StableServer && |w.nodes[z].lookups| == j
    && w == World(w.nodes, {y, z}, {y, z}, {}, {}, {}, {y})
  }

  /** An answer to the second server's second lookup. */
  function LateAnswer(x: Name, z: Name): (a: Answer) { Answer(Lookup(z, 1, x), false) }

  /** The second server asked K3s, once or twice. */
  predicate LookedUpTwice(w: World, x: Name, y: Name, z: Name, twice: bool) {
    && AreHere(w, x, y, z) && IsWaiting(w.nodes[x]) && Cleans(w, x, y, 0)
    && w.nodes[z].state == StableServer && |w.nodes[z].lookups| == (if twice then 2 else 1)
    && w == World(w.nodes, {y, z}, {y, z}, {}, if twice then {Lookup(z, 0, x), Lookup(z, 1, x)}
         else {Lookup(z, 0, x)}, {}, {y})
  }

  predicate AnsweredTwice(w: World, x: Name, y: Name, z: Name) {
    && AreHere(w, x, y, z) && IsWaiting(w.nodes[x]) && Cleans(w, x, y, 0) && w.nodes[z].state == StableServer
    && w == World(w.nodes, {y, z}, {y, z}, {}, {}, {Answer(Lookup(z, 0, x), false), LateAnswer(x, z)}, {y})
  }

  /** The second server looked twice, and confirmed on the first answer. */
  predicate Confirms(w: World, x: Name, y: Name, z: Name) {
    && AreHere(w, x, y, z) && IsWaiting(w.nodes[x]) && Cleans(w, x, y, 0) && w.nodes[z].state == StableServer
    && w == World(w.nodes, {y, z}, {y, z}, {x}, {}, {LateAnswer(x, z)}, {y})
  }

  /** The joiner runs its installation. */
  predicate RunsInstallation(w: World, x: Name) {
    x in w.nodes && w.nodes[x].state == JoiningAgent && |w.nodes[x].pending| == 1 && w.nodes[x].pending[0].InstallAgent?
  }

  predicate Installing(w: World, x: Name, y: Name, z: Name) {
    && AreHere(w, x, y, z) && RunsInstallation(w, x) && Cleans(w, x, y, 0) && w.nodes[z].state == StableServer
    && w == World(w.nodes, {y, z}, {y, z}, {x}, {}, {LateAnswer(x, z)}, {y})
  }

  predicate OnDisk(w: World, x: Name, y: Name, z: Name) {
    && AreHere(w, x, y, z) && RunsInstallation(w, x) && Cleans(w, x, y, 0) && w.nodes[z].state == StableServer
    && w == World(w.nodes, {y, z}, {x, y, z}, {x}, {}, {LateAnswer(x, z)}, {y})
  }

  predicate Registering(w: World, x: Name, y: Name, z: Name) {
    && AreHere(w, x, y, z) && RunsInstallation(w, x) && Cleans(w, x, y, 0) && w.nodes[z].state == StableServer
    && w == World(w.nodes, {x, y, z}, {x, y, z}, {x}, {}, {LateAnswer(x, z)}, {y})
  }

  /** The joiner has joined. */
  predicate Joined(w: World, x: Name, y: Name, z: Name) {
    && AreHere(w, x, y, z) && w.nodes[x].state == StableAgent && Cleans(w, x, y, 0) && w.nodes[z].state == StableServer
    && w == World(w.nodes, {x, y, z}, {x, y, z}, {x}, {}, {LateAnswer(x, z)}, {y})
  }

  /** The run so far. */
  ghost predicate IsRun(base: Config, w: World, moves: seq<Move>, x: Name) {
    CanCourse(base, w, moves) && BornClean(base, w, moves, x)
  }

  /** One more move that is not a birth of x, or a clean one. */
  lemma {:induction false} Goes(base: Config, w: World, moves: seq<Move>, move: Move, x: Name) returns (more: seq<Move>)
    requires IsRun(base, w, moves, x) && CanMove(base, Course(base, w, moves), move)
    requires IsBirth(Course(base, w, moves), move, x) ==> !Stale(Course(base, w, moves), x)
    ensures more == moves + [move] && IsRun(base, w, more, x)
    ensures Course(base, w, more) == After(base, Course(base, w, moves), move)
  {
    hide CanMove, After, Stale, Course, CanCourse, BornClean;
    OneMore(base, w, moves, move);
    more := moves + [move];
  }

  /** Everyone has just booted. */
  predicate HaveBooted(base: Config, w: World, x: Name, y: Name, z: Name) {
    && AreHere(w, x, y, z) && w == World(w.nodes, {x, y, z}, {y, z}, {}, {}, {}, {})
    && w.nodes[x] == Newborn(base, x)
    && w.nodes[y] == RejoiningServer(base, y) && w.nodes[z] == RejoiningServer(base, z)
  }

  lemma {:induction false} StartIs(base: Config, x: Name, y: Name, z: Name)
    requires AreNames(x, y, z)
    ensures HaveBooted(base, Start(base, x, y, z), x, y, z)
  {
    hide Newborn, RejoiningServer;
  }

  lemma {:induction false} NothingYet(base: Config, w: World, x: Name)
    ensures IsRun(base, w, [], x) && Course(base, w, []) == w
  {}

  /** The first server is back, perhaps the second one too. */
  predicate AreBack(base: Config, w: World, x: Name, y: Name, z: Name, both: bool) {
    && AreHere(w, x, y, z) && w.nodes[x] == Newborn(base, x)
    && w.nodes[y].state == StableServer && w.nodes[y].pending == [] && w.nodes[y].lookups == []
    && (if both then w.nodes[z].state == StableServer
         && w.nodes[z].lookups == [] else w.nodes[z] == RejoiningServer(base, z))
    && w == World(w.nodes, {x, y, z}, {y, z}, {}, {}, {}, {})
  }

  lemma {:induction false} FirstRejoins(base: Config, w: World, before: seq<Move>, x: Name, y: Name, z: Name)
    returns (moves: seq<Move>)
    requires IsRun(base, w, before, x) && HaveBooted(base, Course(base, w, before), x, y, z)
    ensures before <= moves && IsRun(base, w, moves, x) && AreBack(base, Course(base, w, moves), x, y, z, false)
  {
    SomeServerIsSeen();
    hide Course, CanCourse, BornClean, IsRun, CanMove, After, GoodEnv, Less, Stale, Newborn, RejoiningServer,
         SomeServer, Lowest;
    Rejoins(base, Course(base, w, before), y, SomeServer());
    moves := Goes(base, w, before, Turns(y, OperationEnded(0, true), SomeServer()), x);
  }

  lemma {:induction false} SecondRejoins(base: Config, w: World, before: seq<Move>, x: Name, y: Name, z: Name)
    returns (moves: seq<Move>)
    requires IsRun(base, w, before, x) && AreBack(base, Course(base, w, before), x, y, z, false)
    ensures before <= moves && IsRun(base, w, moves, x) && AreBack(base, Course(base, w, moves), x, y, z, true)
  {
    SomeServerIsSeen();
    hide Course, CanCourse, BornClean, IsRun, CanMove, After, Trio, GoodEnv, Less, IsWaiting, IsCoordinator, IsVirgin,
         EtcdIsChanging, Lowest, Stale, Newborn, RejoiningServer, SomeServer;
    Rejoins(base, Course(base, w, before), z, SomeServer());
    moves := Goes(base, w, before, Turns(z, OperationEnded(0, true), SomeServer()), x);
  }

  /** The joiner checks its disk and asks. */
  lemma {:induction false} JoinerAsks(base: Config, w: World, before: seq<Move>, x: Name, y: Name, z: Name)
    returns (moves: seq<Move>)
    requires IsRun(base, w, before, x) && AreBack(base, Course(base, w, before), x, y, z, true)
    ensures before <= moves && IsRun(base, w, moves, x) && Asked(Course(base, w, moves), x, y, z, 0, 0)
  {
    var env := Trio(x, y, z, StableServer);
    TrioElects(x, y, z, StableServer);
    hide Course, CanCourse, BornClean, CanMove, After, Trio, GoodEnv, Less, IsWaiting, IsCoordinator, IsVirgin,
         EtcdIsChanging, Lowest, Stale, Newborn;
    moves := NewbornAsks(base, w, before, x, env);
  }

  lemma {:induction false} LooksUpLeftover(base: Config, w: World, before: seq<Move>, x: Name, y: Name, z: Name,
      k: nat, j: nat,
      env: Env)
    returns (moves: seq<Move>)
    requires GoodEnv(env) && IsCoordinator(env.view, y) && IsVirgin(env.view, x)
    requires IsRun(base, w, before, x) && Asked(Course(base, w, before), x, y, z, k, j)
    ensures before <= moves && IsRun(base, w, moves, x) && LookedUp(Course(base, w, moves), x, y, z, k, j)
  {
    hide Course, CanCourse, BornClean, IsRun, CanMove, After, GoodEnv, Less, IsWaiting, IsCoordinator, IsVirgin,
         EtcdIsChanging, Lowest, Stale;
    LooksUp(base, Course(base, w, before), y, x, env);
    moves := Goes(base, w, before, Turns(y, UserEventReceived(ForgetMe(Some(x))), env), x);
  }

  lemma {:induction false} IsAnswered(base: Config, w: World, before: seq<Move>, x: Name, y: Name, z: Name, k: nat,
      j: nat)
    returns (moves: seq<Move>)
    requires IsRun(base, w, before, x) && LookedUp(Course(base, w, before), x, y, z, k, j)
    ensures before <= moves && IsRun(base, w, moves, x) && Found(Course(base, w, moves), x, y, z, k, j)
  {
    hide Course, CanCourse, BornClean, IsRun, CanMove, After, Trio, GoodEnv, Less, IsWaiting, IsCoordinator, IsVirgin,
         EtcdIsChanging, Lowest, Stale;
    Surroundings(base, Course(base, w, before), Lookup(y, k, x), LateAnswer(x, z), x);
    moves := Goes(base, w, before, Answers(Lookup(y, k, x)), x);
  }

  lemma {:induction false} StartsCleaning(base: Config, w: World, before: seq<Move>, x: Name, y: Name, z: Name, k: nat,
      j: nat,
      env: Env)
    returns (moves: seq<Move>)
    requires GoodEnv(env) && IsCoordinator(env.view, y) && IsVirgin(env.view, x) && !EtcdIsChanging(env.view)
    requires IsRun(base, w, before, x) && Found(Course(base, w, before), x, y, z, k, j)
    ensures before <= moves && IsRun(base, w, moves, x) && Cleaning(Course(base, w, moves), x, y, z, k, j)
  {
    hide Course, CanCourse, BornClean, IsRun, CanMove, After, GoodEnv, Less, IsWaiting, IsCoordinator, IsVirgin,
         EtcdIsChanging, Lowest, Stale;
    FindsLeftover(base, Course(base, w, before), Answer(Lookup(y, k, x), true), env);
    moves := Goes(base, w, before, Handles(Answer(Lookup(y, k, x), true), env), x);
  }

  lemma {:induction false} ErasesGhost(base: Config, w: World, before: seq<Move>, x: Name, y: Name, z: Name, k: nat,
      j: nat)
    returns (moves: seq<Move>)
    requires IsRun(base, w, before, x) && Cleaning(Course(base, w, before), x, y, z, k, j)
    ensures before <= moves && IsRun(base, w, moves, x) && Erased(Course(base, w, moves), x, y, z, k, j)
  {
    hide Course, CanCourse, BornClean, IsRun, CanMove, After, Trio, GoodEnv, Less, IsWaiting, IsCoordinator, IsVirgin,
         EtcdIsChanging, Lowest, Stale;
    Erasing(base, Course(base, w, before), x, y);
    moves := Goes(base, w, before, Erases(y), x);
  }

  lemma {:induction false} SecondLooksUp(base: Config, w: World, before: seq<Move>, x: Name, y: Name, z: Name,
      env: Env)
    returns (moves: seq<Move>)
    requires GoodEnv(env) && IsCoordinator(env.view, z) && IsVirgin(env.view, x)
    requires IsRun(base, w, before, x) && Erased(Course(base, w, before), x, y, z, 0, 0)
    ensures before <= moves && IsRun(base, w, moves, x) && LookedUpTwice(Course(base, w, moves), x, y, z, false)
  {
    hide Course, CanCourse, BornClean, IsRun, CanMove, After, GoodEnv, Less, IsWaiting, IsCoordinator, IsVirgin,
         EtcdIsChanging, Lowest, Stale;
    LooksUp(base, Course(base, w, before), z, x, env);
    moves := Goes(base, w, before, Turns(z, UserEventReceived(ForgetMe(Some(x))), env), x);
  }

  lemma {:induction false} SecondLooksUpAgain(base: Config, w: World, before: seq<Move>, x: Name, y: Name, z: Name,
      env: Env)
    returns (moves: seq<Move>)
    requires GoodEnv(env) && IsCoordinator(env.view, z) && IsVirgin(env.view, x)
    requires IsRun(base, w, before, x) && LookedUpTwice(Course(base, w, before), x, y, z, false)
    ensures before <= moves && IsRun(base, w, moves, x) && LookedUpTwice(Course(base, w, moves), x, y, z, true)
  {
    hide Course, CanCourse, BornClean, IsRun, CanMove, After, GoodEnv, Less, IsWaiting, IsCoordinator, IsVirgin,
         EtcdIsChanging, Lowest, Stale;
    LooksUp(base, Course(base, w, before), z, x, env);
    moves := Goes(base, w, before, Turns(z, UserEventReceived(ForgetMe(Some(x))), env), x);
  }

  lemma {:induction false} IsAnsweredTwice(base: Config, w: World, before: seq<Move>, x: Name, y: Name, z: Name)
    returns (moves: seq<Move>)
    requires IsRun(base, w, before, x) && LookedUpTwice(Course(base, w, before), x, y, z, true)
    ensures before <= moves && IsRun(base, w, moves, x) && AnsweredTwice(Course(base, w, moves), x, y, z)
  {
    hide Course, CanCourse, BornClean, IsRun, CanMove, After, Trio, GoodEnv, Less, IsWaiting, IsCoordinator, IsVirgin,
         EtcdIsChanging, Lowest, Stale;
    var first, second := Lookup(z, 0, x), Lookup(z, 1, x);
    Surroundings(base, Course(base, w, before), first, LateAnswer(x, z), x);
    moves := Goes(base, w, before, Answers(first), x);
    Surroundings(base, Course(base, w, moves), second, LateAnswer(x, z), x);
    moves := Goes(base, w, moves, Answers(second), x);
  }

  lemma {:induction false} ConfirmsOnce(base: Config, w: World, before: seq<Move>, x: Name, y: Name, z: Name,
      env: Env)
    returns (moves: seq<Move>)
    requires GoodEnv(env) && env.sendOk && IsCoordinator(env.view, z) && IsVirgin(env.view, x)
    requires IsRun(base, w, before, x) && AnsweredTwice(Course(base, w, before), x, y, z)
    ensures before <= moves && IsRun(base, w, moves, x) && Confirms(Course(base, w, moves), x, y, z)
  {
    hide Course, CanCourse, BornClean, IsRun, CanMove, After, GoodEnv, Less, IsWaiting, IsCoordinator, IsVirgin,
         EtcdIsChanging, Lowest, Stale;
    FindsNothing(base, Course(base, w, before), Answer(Lookup(z, 0, x), false), env);
    moves := Goes(base, w, before, Handles(Answer(Lookup(z, 0, x), false), env), x);
  }

  lemma {:induction false} StartsInstalling(base: Config, w: World, before: seq<Move>, x: Name, y: Name, z: Name)
    returns (moves: seq<Move>)
    requires IsRun(base, w, before, x) && Confirms(Course(base, w, before), x, y, z)
    ensures before <= moves && IsRun(base, w, moves, x) && Installing(Course(base, w, moves), x, y, z)
  {
    var env := SomeServer();
    SomeServerIsSeen();
    hide Course, CanCourse, BornClean, IsRun, CanMove, After, SomeServer, GoodEnv, Less, IsWaiting, IsCoordinator,
         IsVirgin,
         EtcdIsChanging, Lowest, Stale;
    ConfirmationArrives(base, Course(base, w, before), x, env);
    moves := Goes(base, w, before, Turns(x, UserEventReceived(Forgotten(Some(x))), env), x);
  }

  lemma {:induction false} WritesDisk(base: Config, w: World, before: seq<Move>, x: Name, y: Name, z: Name)
    returns (moves: seq<Move>)
    requires IsRun(base, w, before, x) && Installing(Course(base, w, before), x, y, z)
    ensures before <= moves && IsRun(base, w, moves, x) && OnDisk(Course(base, w, moves), x, y, z)
  {
    var env := SomeServer();
    SomeServerIsSeen();
    hide Course, CanCourse, BornClean, IsRun, CanMove, After, SomeServer, GoodEnv, Less, IsWaiting, IsCoordinator,
         IsVirgin,
         EtcdIsChanging, Lowest, Stale;
    Installed(base, Course(base, w, before), x, env);
    Surroundings(base, Course(base, w, before), Lookup(z, 1, x), LateAnswer(x, z), x);
    moves := Goes(base, w, before, Installs(x), x);
  }

  lemma {:induction false} Registered(base: Config, w: World, before: seq<Move>, x: Name, y: Name, z: Name)
    returns (moves: seq<Move>)
    requires IsRun(base, w, before, x) && OnDisk(Course(base, w, before), x, y, z)
    ensures before <= moves && IsRun(base, w, moves, x) && Registering(Course(base, w, moves), x, y, z)
  {
    hide Course, CanCourse, BornClean, IsRun, CanMove, After, Trio, GoodEnv, Less, IsWaiting, IsCoordinator, IsVirgin,
         EtcdIsChanging, Lowest, Stale;
    Surroundings(base, Course(base, w, before), Lookup(z, 1, x), LateAnswer(x, z), x);
    moves := Goes(base, w, before, Registers(x), x);
  }

  lemma {:induction false} Completes(base: Config, w: World, before: seq<Move>, x: Name, y: Name, z: Name)
    returns (moves: seq<Move>)
    requires IsRun(base, w, before, x) && Registering(Course(base, w, before), x, y, z)
    ensures before <= moves && IsRun(base, w, moves, x) && Joined(Course(base, w, moves), x, y, z)
  {
    var env := SomeServer();
    SomeServerIsSeen();
    hide Course, CanCourse, BornClean, IsRun, CanMove, After, SomeServer, GoodEnv, Less, IsWaiting, IsCoordinator,
         IsVirgin,
         EtcdIsChanging, Lowest, Stale;
    Installed(base, Course(base, w, before), x, env);
    moves := Goes(base, w, before, Turns(x, OperationEnded(0, true), env), x);
  }

  /** A run in which a machine whose ghost K3s knew has the ghost erased, is confirmed, and joins. */
  lemma {:induction false} AMachineCanJoin(base: Config, x: Name, y: Name, z: Name) returns (moves: seq<Move>)
    requires AreNames(x, y, z)
    ensures Begins(base, Start(base, x, y, z)) && IsRun(base, Start(base, x, y, z), moves, x)
    ensures Joined(Course(base, Start(base, x, y, z), moves), x, y, z)
  {
    hide Course, IsRun, Begins, HaveBooted, AreBack, Asked, LookedUp, Found, Cleaning, Erased, LookedUpTwice,
         AnsweredTwice, Confirms, Installing, OnDisk, Registering, Joined, Start, GoodEnv, IsCoordinator, IsVirgin,
         EtcdIsChanging, Lowest, Less;
    var w := Start(base, x, y, z);
    var quiet, busy := Trio(x, y, z, StableServer), Trio(x, y, z, RescaleCoordinating);
    TrioElects(x, y, z, StableServer);
    TrioElects(x, y, z, RescaleCoordinating);
    StartBegins(base, x, y, z);
    NothingYet(base, w, x);
    StartIs(base, x, y, z);
    moves := FirstRejoins(base, w, [], x, y, z);
    moves := SecondRejoins(base, w, moves, x, y, z);
    moves := JoinerAsks(base, w, moves, x, y, z);
    moves := LooksUpLeftover(base, w, moves, x, y, z, 0, 0, quiet);
    moves := IsAnswered(base, w, moves, x, y, z, 0, 0);
    moves := StartsCleaning(base, w, moves, x, y, z, 0, 0, quiet);
    moves := ErasesGhost(base, w, moves, x, y, z, 0, 0);
    moves := SecondLooksUp(base, w, moves, x, y, z, busy);
    moves := SecondLooksUpAgain(base, w, moves, x, y, z, busy);
    moves := IsAnsweredTwice(base, w, moves, x, y, z);
    moves := ConfirmsOnce(base, w, moves, x, y, z, busy);
    moves := StartsInstalling(base, w, moves, x, y, z);
    moves := WritesDisk(base, w, moves, x, y, z);
    moves := Registered(base, w, moves, x, y, z);
    moves := Completes(base, w, moves, x, y, z);
  }

  // --- Every kind of stale conclusion comes up ---

  /** The machine joined; of what concluded that it was unknown, this much is left. */
  predicate Leaves(w: World, x: Name, y: Name, z: Name, confirmation: bool, answer: bool, deletion: bool) {
    && AreHere(w, x, y, z) && w.nodes[z].state == StableServer
    && (if deletion then Cleans(w, x, y, 0)
        else w.nodes[y].state == StableServer && w.nodes[y].pending == [] && |w.nodes[y].lookups| == 1)
    && w == World(w.nodes, {x, y, z}, {x, y, z}, if confirmation then {x} else {}, {},
                  if answer then {LateAnswer(x, z)} else {}, if deletion then {y} else {})
  }

  lemma {:induction false} LosesConfirmation(base: Config, w: World, before: seq<Move>, x: Name, y: Name, z: Name)
    returns (moves: seq<Move>)
    requires IsRun(base, w, before, x) && Leaves(Course(base, w, before), x, y, z, true, true, true)
    ensures before <= moves && IsRun(base, w, moves, x) && Leaves(Course(base, w, moves), x, y, z, false, true, true)
  {
    hide Course, CanCourse, BornClean, IsRun, CanMove, After, Trio, GoodEnv, Less, IsWaiting, IsCoordinator, IsVirgin,
         EtcdIsChanging, Lowest, Stale;
    Surroundings(base, Course(base, w, before), Lookup(z, 1, x), LateAnswer(x, z), x);
    moves := Goes(base, w, before, Loses(x), x);
  }

  lemma {:induction false} DropsAnswer(base: Config, w: World, before: seq<Move>, x: Name, y: Name, z: Name, c: bool)
    returns (moves: seq<Move>)
    requires IsRun(base, w, before, x) && Leaves(Course(base, w, before), x, y, z, c, true, true)
    ensures before <= moves && IsRun(base, w, moves, x) && Leaves(Course(base, w, moves), x, y, z, c, false, true)
  {
    hide Course, CanCourse, BornClean, IsRun, CanMove, After, Trio, GoodEnv, Less, IsWaiting, IsCoordinator, IsVirgin,
         EtcdIsChanging, Lowest, Stale;
    Surroundings(base, Course(base, w, before), Lookup(z, 1, x), LateAnswer(x, z), x);
    moves := Goes(base, w, before, Drops(LateAnswer(x, z)), x);
  }

  lemma {:induction false} EndsRound(base: Config, w: World, before: seq<Move>, x: Name, y: Name, z: Name, c: bool,
      a: bool)
    returns (moves: seq<Move>)
    requires IsRun(base, w, before, x) && Leaves(Course(base, w, before), x, y, z, c, a, true)
    ensures before <= moves && IsRun(base, w, moves, x) && Leaves(Course(base, w, moves), x, y, z, c, a, false)
  {
    var env := SomeServer();
    SomeServerIsSeen();
    hide Course, CanCourse, BornClean, IsRun, CanMove, After, SomeServer, GoodEnv, Less, IsWaiting, IsCoordinator,
         IsVirgin,
         EtcdIsChanging, Lowest, Stale;
    GivesUp(base, Course(base, w, before), y, env);
    moves := Goes(base, w, before, Turns(y, OperationEnded(0, false), env), x);
  }

  /** After the join, any part of what was concluded may be gone. */
  lemma {:induction false} AnythingCanBeLeft(base: Config, w: World, before: seq<Move>, x: Name, y: Name, z: Name,
                                             confirmation: bool, answer: bool, deletion: bool)
    returns (moves: seq<Move>)
    requires IsRun(base, w, before, x) && Joined(Course(base, w, before), x, y, z)
    ensures before <= moves && IsRun(base, w, moves, x)
    ensures Leaves(Course(base, w, moves), x, y, z, confirmation, answer, deletion)
  {
    assert Leaves(Course(base, w, before), x, y, z, true, true, true);
    hide Course, IsRun, Leaves, Joined;
    moves := before;
    if !confirmation {
      moves := LosesConfirmation(base, w, moves, x, y, z);
    }
    if !answer {
      moves := DropsAnswer(base, w, moves, x, y, z, confirmation);
    }
    if !deletion {
      moves := EndsRound(base, w, moves, x, y, z, confirmation, answer);
    }
  }

  datatype Kind = ByConfirmation | ByAnswer | ByDeletion

  /** K3s knows x, and exactly this kind of conclusion to the contrary is left. */
  ghost predicate StaleBy(w: World, x: Name, kind: Kind) {
    && x in w.k3s
    && (x in w.confirmations <==> kind == ByConfirmation)
    && ((exists a :: Denies(w, a, x) && a.lookup.coordinator != x) <==> kind == ByAnswer)
    && ((exists y :: HasErased(w, y, x) && y != x) <==> kind == ByDeletion)
  }

  lemma {:induction false} LeftIsStale(w: World, x: Name, y: Name, z: Name, kind: Kind)
    requires Leaves(w, x, y, z, kind == ByConfirmation, kind == ByAnswer, kind == ByDeletion)
    ensures StaleBy(w, x, kind) && Stale(w, x)
  {
    if kind == ByAnswer {
      assert Denies(w, LateAnswer(x, z), x);
    }
    if kind == ByDeletion {
      assert HasErased(w, y, x);
    }
  }

  /** From a normal join, a run to a world in which a reset of the joiner is harmful for this reason only. */
  lemma {:induction false} EveryKindComesUp(base: Config, x: Name, y: Name, z: Name, kind: Kind)
    returns (moves: seq<Move>)
    requires AreNames(x, y, z)
    ensures Begins(base, Start(base, x, y, z)) && IsRun(base, Start(base, x, y, z), moves, x)
    ensures var w := Course(base, Start(base, x, y, z), moves);
            StaleBy(w, x, kind) && CanBecomeGhost(base, After(base, w, Resets(x)), x)
  {
    hide Course, IsRun, Begins, Start, Joined, Leaves, StaleBy, Stale, CanBecomeGhost, After;
    var w := Start(base, x, y, z);
    moves := AMachineCanJoin(base, x, y, z);
    moves := AnythingCanBeLeft(base, w, moves, x, y, z, kind == ByConfirmation, kind == ByAnswer, kind == ByDeletion);
    LeftIsStale(Course(base, w, moves), x, y, z, kind);
    assert CanCourse(base, w, moves) by { RunsAreCourses(base, w, moves, x); }
    assert CanMove(base, Course(base, w, moves), Resets(x));
    BirthsAreHarmfulExactlyWhenStale(base, w, moves, Resets(x), x);
  }

  lemma {:induction false} RunsAreCourses(base: Config, w: World, moves: seq<Move>, x: Name)
    requires IsRun(base, w, moves, x)
    ensures CanCourse(base, w, moves)
  {}

  // --- A second life ---

  /** The reset is clean: K3s knows the name, and nobody concluded otherwise. */
  lemma {:induction false} ResetIsClean(base: Config, w: World, x: Name, y: Name, z: Name)
    requires Leaves(w, x, y, z, false, false, false)
    ensures CanMove(base, w, Resets(x)) && !Stale(w, x)
    ensures var d := After(base, w, Resets(x));
            && AreHere(d, x, y, z) && d.nodes[x] == Newborn(base, x)
            && d.nodes[y] == w.nodes[y] && d.nodes[z] == w.nodes[z]
            && d == World(d.nodes, {x, y, z}, {y, z}, {}, {}, {}, {})
  {
    hide ChooseInitialState;
  }

  lemma {:induction false} AsksAgain(base: Config, w: World, before: seq<Move>, x: Name, y: Name, z: Name)
    returns (moves: seq<Move>, j: nat)
    requires IsRun(base, w, before, x) && Leaves(Course(base, w, before), x, y, z, false, false, false)
    ensures before + [Resets(x)] <= moves && IsRun(base, w, moves, x) && Asked(Course(base, w, moves), x, y, z, 1, j)
  {
    var env := Trio(x, y, z, StableServer);
    TrioElects(x, y, z, StableServer);
    hide Course, CanCourse, BornClean, CanMove, After, Newborn, Trio, GoodEnv, Less, IsWaiting, IsCoordinator, IsVirgin,
         EtcdIsChanging, Lowest, Stale;
    ResetIsClean(base, Course(base, w, before), x, y, z);
    moves := Goes(base, w, before, Resets(x), x);
    j := |Course(base, w, moves).nodes[z].lookups|;
    moves := NewbornAsks(base, w, moves, x, env);
  }

  /** The end of the second cleaning round confirms the joiner, whose ghost is gone. */
  lemma {:induction false} JoinsAgain(base: Config, w: World, before: seq<Move>, x: Name, y: Name, z: Name, k: nat,
      j: nat)
    returns (moves: seq<Move>)
    requires Orderly(base, w) && IsRun(base, w, before, x) && Erased(Course(base, w, before), x, y, z, k, j)
    ensures before <= moves && IsRun(base, w, moves, x)
    ensures var d := Course(base, w, moves); x in d.nodes && d.nodes[x].state == JoiningAgent && x !in d.k3s
  {
    CoursesAreOrderly(base, w, before);
    SomeServerIsSeen();
    var e := Turns(y, OperationEnded(0, true), SomeServer());
    RoundConfirms(base, Course(base, w, before), y, x);
    hide Course, CanCourse, BornClean, CanMove, After, Trio, GoodEnv, Less, IsWaiting, Orderly, IsCoordinator, IsVirgin,
         EtcdIsChanging, Lowest, Stale;
    moves := Goes(base, w, before, e, x);
    ConfirmationArrives(base, Course(base, w, moves), x, SomeServer());
    moves := Goes(base, w, moves, Turns(x, UserEventReceived(Forgotten(Some(x))), SomeServer()), x);
  }

  /**
   * A run in which a machine joins, is factory-reset while its coordinators go on, asks again, has its
   * ghost erased and starts its second installation, every one of its births being clean.
   */
  lemma {:induction false} AMachineCanJoinTwice(base: Config, x: Name, y: Name, z: Name)
    returns (first: seq<Move>, moves: seq<Move>)
    requires AreNames(x, y, z)
    ensures Begins(base, Start(base, x, y, z)) && IsRun(base, Start(base, x, y, z), moves, x)
    ensures Joined(Course(base, Start(base, x, y, z), first), x, y, z)
    ensures first <= moves && Resets(x) in moves[|first|..]
    ensures var d := Course(base, Start(base, x, y, z), moves);
            x in d.nodes && d.nodes[x].state == JoiningAgent && x !in d.k3s
  {
    hide Course, IsRun, Begins, HaveBooted, AreBack, Asked, LookedUp, Found, Cleaning, Erased, Joined, Leaves, Start,
         Orderly, GoodEnv, IsCoordinator, IsVirgin, EtcdIsChanging, Lowest, Less;
    var w := Start(base, x, y, z);
    var quiet := Trio(x, y, z, StableServer);
    TrioElects(x, y, z, StableServer);
    first := AMachineCanJoin(base, x, y, z);
    BeginningIsOrderly(base, w);
    var over := AnythingCanBeLeft(base, w, first, x, y, z, false, false, false);
    var j: nat;
    moves, j := AsksAgain(base, w, over, x, y, z);
    moves := LooksUpLeftover(base, w, moves, x, y, z, 1, j, quiet);
    moves := IsAnswered(base, w, moves, x, y, z, 1, j);
    moves := StartsCleaning(base, w, moves, x, y, z, 1, j, quiet);
    moves := ErasesGhost(base, w, moves, x, y, z, 1, j);
    moves := JoinsAgain(base, w, moves, x, y, z, 1, j);
    assert moves[|first|..][|over| - |first|] == Resets(x);
  }
}

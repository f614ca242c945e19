/**
 * One machine's run loop on values: its state between two turns, and what each turn makes of it.
 * Every handler reads the membership and the clock at most once, and these arrive in an Env.
 */
module NodeStep {
  import opened Names
  import opened Lifecycle
  import opened ClusterView

  datatype Config = Config(name: Name, localIP: string, rescaleEnabled: bool, grace: nat, settle: nat)

  /** What the command line accepts: a named machine and two positive delays. */
  predicate ValidConfig(cfg: Config) {
    cfg.name != "" && cfg.grace > 0 && cfg.settle > 0
  }

  /** The configuration of one machine of a cluster configured alike. */
  function ConfigOf(base: Config, x: Name): (c: Config) { base.(name := x) }

  datatype Persisted = Persisted(nodeName: Name, role: Role, bootCount: int, firstBootCompletedAt: Time,
    roleChangedAt: Time)

  /** What reading the state file at start-up gives. */
  datatype LoadResult = Missing | Unusable | Loaded(persisted: Persisted)

  /** The content of a conversion order. An empty target means "no order". */
  datatype Order = Order(target: Name, role: Role, joinIP: string)

  const NO_ORDER := Order("", NO_ROLE, "")

  datatype Bootstrap = Bootstrap(timer: bool, role: Role, rank: nat, total: nat, members: seq<Name>)

  const NO_BOOTSTRAP := Bootstrap(false, NO_ROLE, 0, 0, [])

  datatype Joining = Joining(timer: bool, settled: bool, cleaned: bool, attempts: nat)

  /** timer is the armed deadline, NO_TIME when no timer is armed. */
  datatype Rescale = Rescale(
    failedSince: map<Name, Time>, imbalanceSince: Time, retryNotBefore: Time, timer: Time,
    order: Order, evicting: seq<Name>, cleaning: Name)

  /** A K3s operation running beside the run loop. */
  datatype Operation =
    | InstallServerInit
    | InstallServerJoin(serverIP: string)
    | InstallAgent(serverIP: string)
    | CheckNotInstalled
    | WaitRejoin(role: Role)
    | DeleteEvicted(names: seq<Name>)
    | PrepareConversion(name: Name)
    | EraseLeftover(name: Name)
    | ConvertTo(order: Order)

  /** Broadcasts. A None payload is an unreadable one. */
  datatype UserEvent =
    | BootstrapRequested
    | BootstrapStart
    | RescaleConvert(order: Option<Order>)
    | ForgetMe(name: Option<Name>)
    | Forgotten(name: Option<Name>)
    | UnknownUserEvent

  /**
   * pending holds the operations started and not yet answered; published, sent and lookups record,
   * oldest first, the state tags, the broadcasts and the forget-me lookups the loop handed out.
   */
  datatype Node = Node(
    state: State, bootstrap: Bootstrap, joining: Joining, rescale: Rescale,
    persisted: Option<Persisted>, pending: seq<Operation>,
    published: seq<State>, sent: seq<UserEvent>, lookups: seq<Name>)

  datatype Event =
    | MembershipChange
    | UserEventReceived(event: UserEvent)
    | RequestBootstrap
    | ConfirmBootstrap
    | CancelBootstrap
    | BootstrapWaitExpired
    | JoinWaitExpired
    | ForgetRetry
    | ForgetProbed(name: Name, found: bool)
    | RescaleCheck
    | OperationEnded(which: nat, ok: bool)

  /** The surroundings of one turn: the clock, the membership seen, and which Serf calls succeed. */
  datatype Env = Env(now: Time, view: View, sendOk: bool, removable: set<Name>)

  // --- Small steps ---

  function Publish(n: Node, to: State): (m: Node) {
    n.(state := to, published := n.published + [to])
  }

  function Start(n: Node, op: Operation): (m: Node) {
    n.(pending := n.pending + [op])
  }

  function Send(n: Node, event: UserEvent, ok: bool): (m: Node) {
    if ok then n.(sent := n.sent + [event]) else n
  }

  function BecomeStable(n: Node, p: Persisted): (m: Node) {
    Publish(n.(persisted := Some(p)), StableState(p.role))
  }

  function FirstBootState(cfg: Config, role: Role, now: Time): (p: Persisted) {
    Persisted(cfg.name, role, 1, now, NO_TIME)
  }

  // --- Start-up ---

  function Fresh(): (m: Node) {
    Node(Starting, NO_BOOTSTRAP, Joining(false, false, false, 0),
         Rescale(map[], NO_TIME, NO_TIME, NO_TIME, NO_ORDER, [], ""),
         None, [], [Starting], [], [])
  }

  function ChooseInitialState(cfg: Config, n: Node, file: LoadResult): (m: Node) {
    match file
    case Missing => Publish(n, Discovering)
    case Unusable => Publish(n, RejoinFailed)
    case Loaded(p) => StartRejoin(cfg, n.(persisted := Some(p)), p)
  }

  function StartRejoin(cfg: Config, n: Node, p: Persisted): (m: Node) {
    if p.nodeName != cfg.name then Publish(n, RejoinFailed)
    else Start(Publish(n, RejoinCluster), WaitRejoin(p.role))
  }

  // --- Bootstrap ---

  function OnRequestBootstrap(n: Node, v: View): (m: Node) {
    if n.state == Discovering && !ExistingClusterSeen(v) then Publish(n, BootstrapConfirm) else n
  }

  function OnCancelBootstrap(n: Node): (m: Node) {
    if n.state == BootstrapConfirm then Publish(n, Discovering) else n
  }

  function OnConfirmBootstrap(n: Node, sendOk: bool): (m: Node) {
    if n.state == BootstrapConfirm then Send(n, BootstrapRequested, sendOk) else n
  }

  function OnBootstrapRequested(n: Node): (m: Node) {
    if n.state == Discovering || n.state == BootstrapConfirm then
      Publish(n, BootstrapWaiting).(bootstrap := n.bootstrap.(timer := true))
    else n
  }

  function FailBootstrap(n: Node): (m: Node) {
    Publish(n.(bootstrap := n.bootstrap.(timer := false)), BootstrapFailed)
  }

  function OnBootstrapWaitExpired(n: Node, sendOk: bool): (m: Node) {
    if n.state != BootstrapWaiting then n
    else if sendOk then Send(n, BootstrapStart, true)
    else FailBootstrap(n)
  }

  /** The part of the cohort's computation that every member makes. */
  function AssignRole(n: Node, names: seq<Name>, rank: nat): (m: Node) {
    n.(bootstrap := Bootstrap(false, RoleForRank(rank, |names|), rank, |names|, names))
  }

  function OnBootstrapStart(cfg: Config, n: Node, v: View): (m: Node) {
    if n.state != BootstrapWaiting then n
    else
      var rank := RankOf(AliveNames(v), cfg.name);
      if rank < 0 then FailBootstrap(n)
      else
        var a := AssignRole(n, AliveNames(v), rank);
        if rank == 0 then
          if ExistingClusterSeen(v) then FailBootstrap(a)
          else Start(Publish(a, BootstrapInstallInit), InstallServerInit)
        else MaybeInstallAgent(MaybeInstallServer(a, v), v)
  }

  function MaybeInstallServer(n: Node, v: View): (m: Node) {
    var target := Lowest(v, StableServer);
    if n.state != BootstrapWaiting || n.bootstrap.role != Server then n
    else if StableServerCount(v) < n.bootstrap.rank || target.name == "" then n
    else Start(Publish(n, BootstrapInstallServer), InstallServerJoin(target.ip))
  }

  function MaybeInstallAgent(n: Node, v: View): (m: Node) {
    var target := Lowest(v, StableServer);
    if n.state != BootstrapWaiting || n.bootstrap.role != Agent then n
    else if StableServerCount(v) < ServerTarget(n.bootstrap.total) || target.name == "" then n
    else Start(Publish(n, BootstrapInstallAgent), InstallAgent(target.ip))
  }

  function OnBootstrapInstallSucceeded(cfg: Config, n: Node, now: Time): (m: Node) {
    match n.state
    case BootstrapInstallInit => BecomeStable(n, FirstBootState(cfg, Server, now))
    case BootstrapInstallServer => BecomeStable(n, FirstBootState(cfg, Server, now))
    case BootstrapInstallAgent => BecomeStable(n, FirstBootState(cfg, Agent, now))
    case _ => n
  }

  // --- Joining ---

  function MaybeStartJoiningPath(n: Node, v: View): (m: Node) {
    var target := Lowest(v, StableServer);
    if n.state != Discovering && n.state != BootstrapConfirm && n.state != BootstrapWaiting then n
    else if target.name == "" || target.name in n.bootstrap.members then n
    else Publish(n, JoiningWaiting).(bootstrap := NO_BOOTSTRAP, joining := n.joining.(timer := true))
  }

  function OnJoinWaitExpired(n: Node, v: View): (m: Node) {
    if n.state != JoiningWaiting then n
    else MaybeJoinCluster(n.(joining := n.joining.(settled := true, timer := false)), v)
  }

  function MaybeJoinCluster(n: Node, v: View): (m: Node) {
    var target := Lowest(v, StableServer);
    if n.state != JoiningWaiting || !n.joining.settled || target.name == "" then n
    else if !n.joining.cleaned then Start(Publish(n, JoiningCleanup), CheckNotInstalled)
    else Start(Publish(n, JoiningAgent), InstallAgent(target.ip))
  }

  function OnJoiningInstallSucceeded(cfg: Config, n: Node, now: Time): (m: Node) {
    if n.state == JoiningAgent then BecomeStable(n, FirstBootState(cfg, Agent, now)) else n
  }

  function FailJoining(n: Node): (m: Node) {
    Publish(n.(joining := n.joining.(timer := false)), JoiningFailed)
  }

  // --- Forget-me ---

  function OnJoiningCleanupChecked(cfg: Config, n: Node, sendOk: bool): (m: Node) {
    SendForgetMe(cfg, n.(joining := n.joining.(attempts := 0)), sendOk)
  }

  function SendForgetMe(cfg: Config, n: Node, sendOk: bool): (m: Node) {
    Send(n.(joining := n.joining.(attempts := n.joining.attempts + 1, timer := true)), ForgetMe(Some(cfg.name)), sendOk)
  }

  function OnForgetRetry(cfg: Config, n: Node, sendOk: bool): (m: Node) {
    if n.state == JoiningCleanup then SendForgetMe(cfg, n, sendOk) else n
  }

  function OnForgotten(cfg: Config, n: Node, name: Option<Name>, v: View): (m: Node) {
    if name != Some(cfg.name) || n.state != JoiningCleanup then n
    else MaybeJoinCluster(Publish(n, JoiningWaiting).(joining := n.joining.(timer := false, cleaned := true)), v)
  }

  predicate CanForget(cfg: Config, n: Node, v: View, name: Name) {
    n.state == StableServer && IsCoordinator(v, cfg.name) && IsVirgin(v, name)
  }

  function OnForgetMe(cfg: Config, n: Node, name: Option<Name>, v: View): (m: Node) {
    if name.Some? && CanForget(cfg, n, v, name.value) then n.(lookups := n.lookups + [name.value]) else n
  }

  function ConfirmForgotten(n: Node, name: Name, sendOk: bool): (m: Node) {
    Send(n, Forgotten(Some(name)), sendOk)
  }

  function OnForgetProbed(cfg: Config, n: Node, name: Name, found: bool, v: View, sendOk: bool): (m: Node) {
    if !CanForget(cfg, n, v, name) then n
    else if !found then ConfirmForgotten(n, name, sendOk)
    else if EtcdIsChanging(v) then n
    else StartRound(n.(rescale := ResetProgress(n.rescale).(cleaning := name)), EraseLeftover(name))
  }

  function FinishForgetting(cfg: Config, n: Node, v: View, now: Time, sendOk: bool): (m: Node) {
    var done := Publish(n.(rescale := n.rescale.(cleaning := "")), StableServer);
    MaybeRescale(cfg, ConfirmForgotten(done, n.rescale.cleaning, sendOk), v, now)
  }

  // --- Rescaling: the records ---

  function TrackFailures(failedSince: map<Name, Time>, failed: seq<Name>, now: Time): (r: map<Name, Time>) {
    map name | name in failed :: if name in failedSince then failedSince[name] else now
  }

  function Forget(r: Rescale): (result: Rescale) {
    Rescale(r.failedSince, NO_TIME, NO_TIME, NO_TIME, NO_ORDER, [], "")
  }

  function ResetProgress(r: Rescale): (result: Rescale) {
    r.(timer := NO_TIME, order := NO_ORDER, evicting := [], cleaning := "")
  }

  function Earliest(a: Time, b: Time): (t: Time) {
    if a == NO_TIME then b else if b == NO_TIME then a else if b < a then b else a
  }

  // --- Rescaling: the coordinator ---

  function StartRound(n: Node, op: Operation): (m: Node) {
    Start(Publish(n, RescaleCoordinating), op)
  }

  function MaybeRescale(cfg: Config, n: Node, v: View, now: Time): (m: Node) {
    if !cfg.rescaleEnabled then n
    else
      var seen := n.(rescale := n.rescale.(failedSince := TrackFailures(n.rescale.failedSince, FailedNames(v), now)));
      if n.state != StableServer then seen
      else if !IsCoordinator(v, cfg.name) then seen.(rescale := Forget(seen.rescale))
      else if now < n.rescale.retryNotBefore then seen
      else if EtcdIsChanging(v) then seen.(rescale := seen.rescale.(timer := NO_TIME))
      else Repair(cfg, seen, v, now)
  }

  /** The turn of an unblocked coordinator: evict first, resize second, else arm the timer. */
  function Repair(cfg: Config, n: Node, v: View, now: Time): (m: Node) {
    var evictable := Evictable(v, n.rescale.failedSince, cfg.grace, now);
    if evictable != [] then
      StartRound(n.(rescale := ResetProgress(n.rescale).(evicting := evictable)), DeleteEvicted(evictable))
    else
      Resize(cfg, n, v, now, NextEviction(v, n.rescale.failedSince, cfg.grace, now))
  }

  function ImbalanceSince(r: Rescale, v: View, now: Time): (t: Time) {
    if K3sServerCount(v) == DesiredServers(v) then NO_TIME
    else if r.imbalanceSince == NO_TIME then now
    else r.imbalanceSince
  }

  function ImbalanceDeadline(cfg: Config, since: Time): (t: Time) {
    if since == NO_TIME then NO_TIME else since + cfg.settle
  }

  function Resize(cfg: Config, n: Node, v: View, now: Time, nextEviction: Time): (m: Node) {
    var since := ImbalanceSince(n.rescale, v, now);
    var deadline := ImbalanceDeadline(cfg, since);
    var tracked := n.(rescale := n.rescale.(imbalanceSince := since));
    if K3sServerCount(v) == DesiredServers(v) || deadline > now then
      tracked.(rescale := tracked.rescale.(timer := Earliest(nextEviction, deadline)))
    else
      match ChooseConversionTarget(cfg, v)
      case Some((name, role)) =>
        StartRound(n.(rescale := ResetProgress(n.rescale).(imbalanceSince := NO_TIME,
          order := Order(name, role, cfg.localIP))),
                   PrepareConversion(name))
      case None =>
        tracked.(rescale := tracked.rescale.(timer := Earliest(nextEviction, now + cfg.settle)))
  }

  function ChooseConversionTarget(cfg: Config, v: View): (r: Option<(Name, Role)>) {
    if K3sServerCount(v) < DesiredServers(v) then
      var target := Lowest(v, StableAgent).name;
      if target == "" then None else Some((target, Server))
    else if K3sServerCount(v) > DesiredServers(v) then
      var target := Highest(v, StableServer).name;
      if target == "" || target == cfg.name then None else Some((target, Agent))
    else None
  }

  function OnRescaleCoordinationDone(cfg: Config, n: Node, env: Env): (m: Node) {
    if n.rescale.cleaning != "" then FinishForgetting(cfg, n, env.view, env.now, env.sendOk)
    else if n.rescale.order.target == "" then FinishEviction(cfg, n, env)
    else
      var cleared := n.(rescale := n.rescale.(order := NO_ORDER));
      if !env.sendOk then AbandonCoordination(cfg, cleared, env.now)
      else
        var done := Publish(Send(cleared, RescaleConvert(Some(n.rescale.order)), true), StableServer);
        done.(rescale := done.rescale.(timer := env.now + cfg.settle))
  }

  function FinishEviction(cfg: Config, n: Node, env: Env): (m: Node) {
    var removed := set name | name in n.rescale.evicting && name in env.removable;
    var done := n.(rescale := n.rescale.(failedSince := n.rescale.failedSince - removed, evicting := []));
    MaybeRescale(cfg, Publish(done, StableServer), env.view, env.now)
  }

  function AbandonCoordination(cfg: Config, n: Node, now: Time): (m: Node) {
    Publish(n.(rescale := n.rescale.(
      order := NO_ORDER, evicting := [], cleaning := "", imbalanceSince := NO_TIME,
      retryNotBefore := now + cfg.settle, timer := now + cfg.settle)), StableServer)
  }

  // --- Rescaling: the designated machine ---

  predicate AcceptsOrder(cfg: Config, n: Node, order: Order) {
    && order.target == cfg.name
    && n.state == StableState(Other(order.role))
    && n.persisted.Some?
    && order.joinIP != ""
  }

  function OnRescaleConvert(cfg: Config, n: Node, order: Option<Order>): (m: Node) {
    if order.None? || !AcceptsOrder(cfg, n, order.value) then n
    else
      var to := if order.value.role == Server then RescalePromoting else RescaleDemoting;
      Start(Publish(n.(rescale := n.rescale.(order := order.value)), to), ConvertTo(order.value))
  }

  function OnRescaleConverted(n: Node, now: Time): (m: Node) {
    if n.persisted.None? then n
    else BecomeStable(n.(rescale := n.rescale.(order := NO_ORDER)),
                      n.persisted.value.(role := n.rescale.order.role, roleChangedAt := now))
  }

  function FailRescale(n: Node): (m: Node) {
    Publish(n.(rescale := n.rescale.(timer := NO_TIME, order := NO_ORDER)), RescaleFailed)
  }

  // --- Rejoin ---

  function OnRejoinReady(n: Node): (m: Node) {
    if n.persisted.None? then n
    else BecomeStable(n, n.persisted.value.(bootCount := n.persisted.value.bootCount + 1))
  }

  // --- The dispatch ---

  function OnSuccess(cfg: Config, n: Node, env: Env): (m: Node) {
    match n.state
    case BootstrapInstallInit | BootstrapInstallServer | BootstrapInstallAgent =>
      OnBootstrapInstallSucceeded(cfg, n, env.now)
    case JoiningCleanup => OnJoiningCleanupChecked(cfg, n, env.sendOk)
    case JoiningAgent => OnJoiningInstallSucceeded(cfg, n, env.now)
    case RejoinCluster => OnRejoinReady(n)
    case RescaleCoordinating => OnRescaleCoordinationDone(cfg, n, env)
    case RescalePromoting | RescaleDemoting => OnRescaleConverted(n, env.now)
    case _ => n
  }

  function OnFailure(cfg: Config, n: Node, env: Env): (m: Node) {
    match n.state
    case BootstrapInstallInit | BootstrapInstallServer | BootstrapInstallAgent => FailBootstrap(n)
    case JoiningCleanup | JoiningAgent => FailJoining(n)
    case RejoinCluster => Publish(n, RejoinFailed)
    case RescaleCoordinating => AbandonCoordination(cfg, n, env.now)
    case RescalePromoting | RescaleDemoting => FailRescale(n)
    case _ => n
  }

  /** The operation that ended is no longer outstanding. */
  function Retire(n: Node, which: nat): (m: Node)
    requires which < |n.pending|
  {
    n.(pending := n.pending[..which] + n.pending[which + 1..])
  }

  function OnOperationEnded(cfg: Config, n: Node, which: nat, ok: bool, env: Env): (m: Node) {
    if which >= |n.pending| then n
    else if ok then OnSuccess(cfg, Retire(n, which), env)
    else OnFailure(cfg, Retire(n, which), env)
  }

  function OnMembershipChange(cfg: Config, n: Node, v: View, now: Time): (m: Node) {
    var a := MaybeJoinCluster(MaybeStartJoiningPath(n, v), v);
    MaybeRescale(cfg, MaybeInstallAgent(MaybeInstallServer(a, v), v), v, now)
  }

  function OnUserEvent(cfg: Config, n: Node, event: UserEvent, env: Env): (m: Node) {
    match event
    case BootstrapRequested => OnBootstrapRequested(n)
    case BootstrapStart => OnBootstrapStart(cfg, n, env.view)
    case RescaleConvert(order) => OnRescaleConvert(cfg, n, order)
    case ForgetMe(name) => OnForgetMe(cfg, n, name, env.view)
    case Forgotten(name) => OnForgotten(cfg, n, name, env.view)
    case UnknownUserEvent => n
  }

  function Step(cfg: Config, n: Node, e: Event, env: Env): (m: Node) {
    match e
    case MembershipChange => OnMembershipChange(cfg, n, env.view, env.now)
    case UserEventReceived(event) => OnUserEvent(cfg, n, event, env)
    case RequestBootstrap => OnRequestBootstrap(n, env.view)
    case ConfirmBootstrap => OnConfirmBootstrap(n, env.sendOk)
    case CancelBootstrap => OnCancelBootstrap(n)
    case BootstrapWaitExpired => OnBootstrapWaitExpired(n, env.sendOk)
    case JoinWaitExpired => OnJoinWaitExpired(n, env.view)
    case ForgetRetry => OnForgetRetry(cfg, n, env.sendOk)
    case ForgetProbed(name, found) => OnForgetProbed(cfg, n, name, found, env.view, env.sendOk)
    case RescaleCheck => MaybeRescale(cfg, n, env.view, env.now)
    case OperationEnded(which, ok) => OnOperationEnded(cfg, n, which, ok, env)
  }
}

/** The run loop as the object it is: fields updated in place, one method per handler. */
module Managers {
  import opened Names
  import opened Lifecycle
  import opened ClusterView
  import opened NodeStep
  import NodeRuns
  import Sights
  import FirstBootRules
  import ClusterRules

  class Manager {
    const config: Config
    var state: State
    var bootstrap: Bootstrap
    var joining: Joining
    var rescale: Rescale
    var persistedState: Option<Persisted>
    var pending: seq<Operation>
    var published: seq<State>
    var sent: seq<UserEvent>
    var lookups: seq<Name>

    function Value(): (m: Node)
      reads this
    {
      Node(state, bootstrap, joining, rescale, persistedState, pending, published, sent, lookups)
    }

    /** One operation at a time, in step with the state, the round, the record and the joining progress. */
    ghost predicate Valid()
      reads this
    {
      NodeRuns.Sound(config, Value())
    }

    constructor (config: Config)
      ensures this.config == config && Value() == Fresh()
    {
      this.config := config;
      state := Starting;
      bootstrap := NO_BOOTSTRAP;
      joining := Joining(false, false, false, 0);
      rescale := Rescale(map[], NO_TIME, NO_TIME, NO_TIME, NO_ORDER, [], "");
      persistedState := None;
      pending, published, sent, lookups := [], [Starting], [], [];
    }

    method Transition(to: State)
      modifies this
      ensures Value() == Publish(old(Value()), to)
    {
      state := to;
      published := published + [to];
    }

    method StartK3sOperation(op: Operation)
      modifies this
      ensures Value() == Start(old(Value()), op)
    {
      pending := pending + [op];
    }

    method SendUserEvent(event: UserEvent, ok: bool)
      modifies this
      ensures Value() == Send(old(Value()), event, ok)
    {
      if ok {
        sent := sent + [event];
      }
    }

    method EnterStable(p: Persisted)
      modifies this
      ensures Value() == BecomeStable(old(Value()), p)
    {
      persistedState := Some(p);
      Transition(StableState(p.role));
    }

    // --- Start-up ---

    method Boot(file: LoadResult)
      modifies this
      ensures Value() == ChooseInitialState(config, old(Value()), file)
      ensures old(Value()) == Fresh() && config.name != "" && NodeRuns.ValidFile(file) ==> Valid()
    {
      match file {
        case Missing => Transition(Discovering);
        case Unusable => Transition(RejoinFailed);
        case Loaded(p) =>
          persistedState := Some(p);
          if p.nodeName != config.name {
            Transition(RejoinFailed);
            return;
          }
          Transition(RejoinCluster);
          StartK3sOperation(WaitRejoin(p.role));
      }
    }

    // --- Bootstrap ---

    method HandleRequestBootstrap(v: View) returns (accepted: bool)
      modifies this
      ensures Value() == OnRequestBootstrap(old(Value()), v)
      ensures accepted <==> old(state) == Discovering && !ExistingClusterSeen(v)
    {
      if state != Discovering {
        return false;
      }
      var found, member := FindExistingK3sClusterMember(v);
      if found {
        return false;
      }
      Transition(BootstrapConfirm);
      return true;
    }

    method HandleCancelBootstrap() returns (accepted: bool)
      modifies this
      ensures Value() == OnCancelBootstrap(old(Value()))
      ensures accepted <==> old(state) == BootstrapConfirm
    {
      if state != BootstrapConfirm {
        return false;
      }
      Transition(Discovering);
      return true;
    }

    method HandleConfirmBootstrap(sendOk: bool) returns (accepted: bool)
      modifies this
      ensures Value() == OnConfirmBootstrap(old(Value()), sendOk)
      ensures accepted <==> old(state) == BootstrapConfirm && sendOk
    {
      if state != BootstrapConfirm {
        return false;
      }
      SendUserEvent(BootstrapRequested, sendOk);
      return sendOk;
    }

    method HandleBootstrapRequested()
      modifies this
      ensures Value() == OnBootstrapRequested(old(Value()))
    {
      if state != Discovering && state != BootstrapConfirm {
        return;
      }
      Transition(BootstrapWaiting);
      bootstrap := bootstrap.(timer := true);
    }

    method HaltBootstrap()
      modifies this
      ensures Value() == FailBootstrap(old(Value()))
    {
      bootstrap := bootstrap.(timer := false);
      Transition(BootstrapFailed);
    }

    method HandleBootstrapWaitExpired(sendOk: bool)
      modifies this
      ensures Value() == OnBootstrapWaitExpired(old(Value()), sendOk)
    {
      if state != BootstrapWaiting {
        return;
      }
      SendUserEvent(BootstrapStart, sendOk);
      if !sendOk {
        HaltBootstrap();
      }
    }

    method HandleBootstrapStart(v: View)
      modifies this
      ensures Value() == OnBootstrapStart(config, old(Value()), v)
      ensures WellNamed(v) && FirstBootRules.Creates(old(Value()), Value()) ==> !Sights.SeesCluster(v)
    {
      if WellNamed(v) && FirstBootRules.Creates(Value(), OnBootstrapStart(config, Value(), v)) {
        FirstBootRules.StartsCreate(config, Value(), v);
      }
      if state != BootstrapWaiting {
        return;
      }
      bootstrap := bootstrap.(timer := false);
      var names := AliveMemberNames(v);
      var list := new Name[|names|](i requires 0 <= i < |names| => names[i]);
      assert list[..] == names;
      var rank := Rank(list, config.name);
      if rank.None? {
        HaltBootstrap();
        return;
      }
      bootstrap := bootstrap.(members := names, total := |names|, rank := rank.value,
        role := RoleForRank(rank.value, |names|));
      if rank.value == 0 {
        var found, member := FindExistingK3sClusterMember(v);
        if found {
          HaltBootstrap();
          return;
        }
        Transition(BootstrapInstallInit);
        StartK3sOperation(InstallServerInit);
        return;
      }
      TryInstallServer(v);
      TryInstallAgent(v);
    }

    method TryInstallServer(v: View)
      modifies this
      ensures Value() == MaybeInstallServer(old(Value()), v)
    {
      if state != BootstrapWaiting || bootstrap.role != Server {
        return;
      }
      var count := CountStableServers(v);
      if count < bootstrap.rank {
        return;
      }
      var target := LowestNamedAliveMemberIn(v, StableServer);
      if target.name == "" {
        return;
      }
      Transition(BootstrapInstallServer);
      StartK3sOperation(InstallServerJoin(target.ip));
    }

    method TryInstallAgent(v: View)
      modifies this
      ensures Value() == MaybeInstallAgent(old(Value()), v)
    {
      if state != BootstrapWaiting || bootstrap.role != Agent {
        return;
      }
      var count := CountStableServers(v);
      var wanted := DesiredServerCount(bootstrap.total);
      if count < wanted {
        return;
      }
      var target := LowestNamedAliveMemberIn(v, StableServer);
      if target.name == "" {
        return;
      }
      Transition(BootstrapInstallAgent);
      StartK3sOperation(InstallAgent(target.ip));
    }

    // --- Joining ---

    method TryStartJoiningPath(v: View)
      modifies this
      ensures Value() == MaybeStartJoiningPath(old(Value()), v)
    {
      if state != Discovering && state != BootstrapConfirm && state != BootstrapWaiting {
        return;
      }
      var target := LowestNamedAliveMemberIn(v, StableServer);
      if target.name == "" || target.name in bootstrap.members {
        return;
      }
      bootstrap := NO_BOOTSTRAP;
      Transition(JoiningWaiting);
      joining := joining.(timer := true);
    }

    method HandleJoinWaitExpired(v: View)
      modifies this
      ensures Value() == OnJoinWaitExpired(old(Value()), v)
    {
      if state != JoiningWaiting {
        return;
      }
      joining := joining.(settled := true, timer := false);
      TryJoinCluster(v);
    }

    method TryJoinCluster(v: View)
      modifies this
      ensures Value() == MaybeJoinCluster(old(Value()), v)
    {
      if state != JoiningWaiting || !joining.settled {
        return;
      }
      var target := LowestNamedAliveMemberIn(v, StableServer);
      if target.name == "" {
        return;
      }
      if !joining.cleaned {
        Transition(JoiningCleanup);
        StartK3sOperation(CheckNotInstalled);
        return;
      }
      Transition(JoiningAgent);
      StartK3sOperation(InstallAgent(target.ip));
    }

    method HaltJoining()
      modifies this
      ensures Value() == FailJoining(old(Value()))
    {
      joining := joining.(timer := false);
      Transition(JoiningFailed);
    }

    // --- Forget-me ---

    method AskToBeForgotten(sendOk: bool)
      modifies this
      ensures Value() == SendForgetMe(config, old(Value()), sendOk)
    {
      joining := joining.(attempts := joining.attempts + 1);
      SendUserEvent(ForgetMe(Some(config.name)), sendOk);
      joining := joining.(timer := true);
    }

    method HandleForgetRetry(sendOk: bool)
      modifies this
      ensures Value() == OnForgetRetry(config, old(Value()), sendOk)
    {
      if state == JoiningCleanup {
        AskToBeForgotten(sendOk);
      }
    }

    method HandleForgotten(name: Option<Name>, v: View)
      modifies this
      ensures Value() == OnForgotten(config, old(Value()), name, v)
    {
      if name != Some(config.name) || state != JoiningCleanup {
        return;
      }
      joining := joining.(timer := false, cleaned := true);
      Transition(JoiningWaiting);
      TryJoinCluster(v);
    }

    method MayForget(v: View, name: Name) returns (may: bool)
      ensures may == CanForget(config, Value(), v, name)
      ensures WellNamed(v) ==>
                (may <==> state == StableServer && Sights.Leads(v, config.name) && Sights.SeesNewcomer(v, name))
    {
      if WellNamed(v) {
        ClusterRules.AnswersAreAllowed(config, Value(), v, name);
      }
      if state != StableServer {
        return false;
      }
      var elected := LowestNamedAliveMemberIn(v, StableServer);
      if elected.name == "" || elected.name != config.name {
        return false;
      }
      may := IsVirginMember(v, name);
    }

    method HandleForgetMe(name: Option<Name>, v: View)
      modifies this
      ensures Value() == OnForgetMe(config, old(Value()), name, v)
    {
      if name.None? {
        return;
      }
      var may := MayForget(v, name.value);
      if may {
        lookups := lookups + [name.value];
      }
    }

    method HandleForgetProbed(name: Name, found: bool, v: View, sendOk: bool)
      modifies this
      ensures Value() == OnForgetProbed(config, old(Value()), name, found, v, sendOk)
    {
      var may := MayForget(v, name);
      if !may {
        return;
      }
      if !found {
        SendUserEvent(Forgotten(Some(name)), sendOk);
        return;
      }
      var busy := IsEtcdMembershipChanging(v);
      if busy {
        return;
      }
      ClearProgress();
      rescale := rescale.(cleaning := name);
      StartCoordinationRound(EraseLeftover(name));
    }

    method CompleteForgetting(v: View, now: Time, sendOk: bool)
      modifies this
      ensures Value() == FinishForgetting(config, old(Value()), v, now, sendOk)
    {
      var name := rescale.cleaning;
      rescale := rescale.(cleaning := "");
      Transition(StableServer);
      SendUserEvent(Forgotten(Some(name)), sendOk);
      TryRescale(v, now);
    }

    // --- Rescaling ---

    method ClearProgress()
      modifies this
      ensures Value() == old(Value()).(rescale := ResetProgress(old(rescale)))
    {
      rescale := rescale.(timer := NO_TIME, order := NO_ORDER, evicting := [], cleaning := "");
    }

    method StartCoordinationRound(op: Operation)
      modifies this
      ensures Value() == StartRound(old(Value()), op)
    {
      Transition(RescaleCoordinating);
      StartK3sOperation(op);
    }

    /** The failure clock: a first loop dates the new failures, a second drops the machines that are back. */
    method ObserveFailures(v: View, now: Time)
      modifies this
      ensures Value() ==
                old(Value()).(rescale := old(rescale).(failedSince := TrackFailures(old(rescale.failedSince),
                  FailedNames(v), now)))
    {
      var names := FailedMembersNames(v);
      var since := rescale.failedSince;
      var failed: set<Name> := {};
      for i := 0 to |names|
        invariant failed == set k | 0 <= k < i :: names[k]
        invariant since.Keys == rescale.failedSince.Keys + failed
        invariant forall x :: x in since ==>
                    since[x] == if x in rescale.failedSince then rescale.failedSince[x] else now
      {
        failed := failed + {names[i]};
        if names[i] !in since {
          since := since[names[i] := now];
        }
      }
      var kept := map x | x in since && x in failed :: since[x];
      assert kept == TrackFailures(rescale.failedSince, names, now);
      rescale := rescale.(failedSince := kept);
    }

    method TryRescale(v: View, now: Time)
      modifies this
      ensures Value() == MaybeRescale(config, old(Value()), v, now)
    {
      if !config.rescaleEnabled {
        return;
      }
      ObserveFailures(v, now);
      if state != StableServer {
        return;
      }
      var elected := LowestNamedAliveMemberIn(v, StableServer);
      if elected.name == "" || elected.name != config.name {
        rescale := rescale.(imbalanceSince := NO_TIME, retryNotBefore := NO_TIME, timer := NO_TIME,
                            order := NO_ORDER, evicting := [], cleaning := "");
        return;
      }
      if now < rescale.retryNotBefore {
        return;
      }
      var busy := IsEtcdMembershipChanging(v);
      if busy {
        rescale := rescale.(timer := NO_TIME);
        return;
      }
      var evictable, nextEviction := DurablyFailedMembersNames(v, rescale.failedSince, config.grace, now);
      if |evictable| > 0 {
        ClearProgress();
        rescale := rescale.(evicting := evictable);
        StartCoordinationRound(DeleteEvicted(evictable));
        return;
      }
      CompareSize(v, now, nextEviction);
    }

    method CompareSize(v: View, now: Time, nextEviction: Time)
      modifies this
      ensures Value() == Resize(config, old(Value()), v, now, nextEviction)
    {
      var servers := CountK3sServers(v);
      var population := CountPopulation(v);
      var wanted := DesiredServerCount(population);
      if servers == wanted {
        rescale := rescale.(imbalanceSince := NO_TIME, timer := nextEviction);
        return;
      }
      if rescale.imbalanceSince == NO_TIME {
        rescale := rescale.(imbalanceSince := now);
      }
      var deadline := ImbalanceDeadline(config, rescale.imbalanceSince);
      if deadline <= now {
        var started := StartConversion(v, servers, wanted);
        if started {
          return;
        }
        deadline := now + config.settle;
      }
      rescale := rescale.(timer := Earliest(nextEviction, deadline));
    }

    method StartConversion(v: View, servers: nat, wanted: int) returns (started: bool)
      requires servers == K3sServerCount(v) && wanted == DesiredServers(v)
      modifies this
      ensures started <==> ChooseConversionTarget(config, v).Some?
      ensures !started ==> Value() == old(Value())
      ensures started ==>
                var (name, role) := ChooseConversionTarget(config, v).value;
                Value() == StartRound(
                  old(Value()).(rescale := ResetProgress(old(rescale)).(
                    imbalanceSince := NO_TIME, order := Order(name, role, config.localIP))),
                  PrepareConversion(name))
    {
      var target: Member;
      var role: Role;
      if servers < wanted {
        target := LowestNamedAliveMemberIn(v, StableAgent);
        role := Server;
        if target.name == "" {
          return false;
        }
      } else if servers > wanted {
        target := HighestNamedAliveMemberIn(v, StableServer);
        role := Agent;
        if target.name == "" || target.name == config.name {
          return false;
        }
      } else {
        return false;
      }
      ClearProgress();
      rescale := rescale.(imbalanceSince := NO_TIME, order := Order(target.name, role, config.localIP));
      StartCoordinationRound(PrepareConversion(target.name));
      return true;
    }

    method HandleCoordinationDone(env: Env)
      modifies this
      ensures Value() == OnRescaleCoordinationDone(config, old(Value()), env)
    {
      if rescale.cleaning != "" {
        CompleteForgetting(env.view, env.now, env.sendOk);
        return;
      }
      if rescale.order.target == "" {
        CompleteEviction(env);
        return;
      }
      var order := rescale.order;
      rescale := rescale.(order := NO_ORDER);
      if !env.sendOk {
        GiveUpRound(env.now);
        return;
      }
      SendUserEvent(RescaleConvert(Some(order)), true);
      Transition(StableServer);
      rescale := rescale.(timer := env.now + config.settle);
    }

    method CompleteEviction(env: Env)
      modifies this
      ensures Value() == FinishEviction(config, old(Value()), env)
    {
      var names, since := rescale.evicting, rescale.failedSince;
      for i := 0 to |names|
        invariant since == rescale.failedSince - (set k | 0 <= k < i && names[k] in env.removable :: names[k])
        invariant Value() == old(Value())
      {
        if names[i] in env.removable {
          since := since - {names[i]};
        }
      }
      assert (set name | name in names && name in env.removable)
          == (set k | 0 <= k < |names| && names[k] in env.removable :: names[k]);
      rescale := rescale.(failedSince := since, evicting := []);
      Transition(StableServer);
      TryRescale(env.view, env.now);
    }

    method GiveUpRound(now: Time)
      modifies this
      ensures Value() == AbandonCoordination(config, old(Value()), now)
    {
      rescale := rescale.(order := NO_ORDER, evicting := [], cleaning := "", imbalanceSince := NO_TIME);
      Transition(StableServer);
      rescale := rescale.(retryNotBefore := now + config.settle);
      rescale := rescale.(timer := rescale.retryNotBefore);
    }

    method HandleRescaleConvert(order: Option<Order>)
      modifies this
      ensures Value() == OnRescaleConvert(config, old(Value()), order)
    {
      if order.None? || order.value.target != config.name {
        return;
      }
      if state != StableState(Other(order.value.role)) {
        return;
      }
      if persistedState.None? || order.value.joinIP == "" {
        return;
      }
      rescale := rescale.(order := order.value);
      if order.value.role == Server {
        Transition(RescalePromoting);
      } else {
        Transition(RescaleDemoting);
      }
      StartK3sOperation(ConvertTo(order.value));
    }

    // --- The dispatch ---

    method HandleOperationSucceeded(env: Env)
      modifies this
      ensures Value() == OnSuccess(config, old(Value()), env)
    {
      hide OnRescaleCoordinationDone;
      match state {
        case BootstrapInstallInit | BootstrapInstallServer =>
          EnterStable(FirstBootState(config, Server, env.now));
        case BootstrapInstallAgent | JoiningAgent =>
          EnterStable(FirstBootState(config, Agent, env.now));
        case JoiningCleanup =>
          joining := joining.(attempts := 0);
          AskToBeForgotten(env.sendOk);
        case RejoinCluster =>
          if persistedState.Some? {
            EnterStable(persistedState.value.(bootCount := persistedState.value.bootCount + 1));
          }
        case RescaleCoordinating =>
          HandleCoordinationDone(env);
        case RescalePromoting | RescaleDemoting =>
          if persistedState.Some? {
            var updated := persistedState.value.(role := rescale.order.role, roleChangedAt := env.now);
            rescale := rescale.(order := NO_ORDER);
            EnterStable(updated);
          }
        case _ =>
      }
    }

    method HandleOperationFailed(env: Env)
      modifies this
      ensures Value() == OnFailure(config, old(Value()), env)
    {
      match state {
        case BootstrapInstallInit | BootstrapInstallServer | BootstrapInstallAgent => HaltBootstrap();
        case JoiningCleanup | JoiningAgent => HaltJoining();
        case RejoinCluster => Transition(RejoinFailed);
        case RescaleCoordinating => GiveUpRound(env.now);
        case RescalePromoting | RescaleDemoting =>
          rescale := rescale.(timer := NO_TIME, order := NO_ORDER);
          Transition(RescaleFailed);
        case _ =>
      }
    }

    method HandleMembershipChange(v: View, now: Time)
      modifies this
      ensures Value() == OnMembershipChange(config, old(Value()), v, now)
    {
      hide MaybeStartJoiningPath, MaybeJoinCluster, MaybeInstallServer, MaybeInstallAgent, MaybeRescale;
      TryStartJoiningPath(v);
      TryJoinCluster(v);
      TryInstallServer(v);
      TryInstallAgent(v);
      TryRescale(v, now);
    }

    method HandleUserEvent(event: UserEvent, env: Env)
      modifies this
      ensures Value() == OnUserEvent(config, old(Value()), event, env)
    {
      hide OnBootstrapRequested, OnBootstrapStart, OnRescaleConvert, OnForgetMe, OnForgotten;
      match event {
        case BootstrapRequested => HandleBootstrapRequested();
        case BootstrapStart => HandleBootstrapStart(env.view);
        case RescaleConvert(order) => HandleRescaleConvert(order);
        case ForgetMe(name) => HandleForgetMe(name, env.view);
        case Forgotten(name) => HandleForgotten(name, env.view);
        case UnknownUserEvent =>
      }
    }

    /** One turn of the run loop does what Step says, and stays valid exactly when no confirmation comes too early. */
    method Handle(e: Event, env: Env)
      modifies this
      ensures Value() == Step(config, old(Value()), e, env)
      ensures old(Valid()) && NodeRuns.GoodEnv(env) && NodeRuns.Possible(old(Value()), e) ==>
                (Valid() <==> !NodeRuns.EarlyConfirmation(config, old(Value()), e))
    {
      ghost var before := Value();
      Dispatch(e, env);
      if NodeRuns.Sound(config, before) && NodeRuns.GoodEnv(env) && NodeRuns.Possible(before, e) {
        NodeRuns.TurnIsSound(config, before, e, env);
      }
    }

    method Dispatch(e: Event, env: Env)
      modifies this
      ensures Value() == Step(config, old(Value()), e, env)
    {
      hide OnMembershipChange, OnUserEvent, MaybeRescale, OnSuccess, OnFailure, OnJoinWaitExpired, OnForgetProbed;
      match e {
        case MembershipChange => HandleMembershipChange(env.view, env.now);
        case UserEventReceived(event) => HandleUserEvent(event, env);
        case RequestBootstrap => var _ := HandleRequestBootstrap(env.view);
        case ConfirmBootstrap => var _ := HandleConfirmBootstrap(env.sendOk);
        case CancelBootstrap => var _ := HandleCancelBootstrap();
        case BootstrapWaitExpired => HandleBootstrapWaitExpired(env.sendOk);
        case JoinWaitExpired => HandleJoinWaitExpired(env.view);
        case ForgetRetry => HandleForgetRetry(env.sendOk);
        case ForgetProbed(name, found) => HandleForgetProbed(name, found, env.view, env.sendOk);
        case RescaleCheck => TryRescale(env.view, env.now);
        case OperationEnded(which, ok) =>
          if which < |pending| {
            pending := pending[..which] + pending[which + 1..];
            if ok {
              HandleOperationSucceeded(env);
            } else {
              HandleOperationFailed(env);
            }
          }
      }
    }
  }
}

/** One observation of the Serf membership, and everything the daemon reads from it. */
module ClusterView {
  import opened Names
  import opened Lifecycle

  /** An instant. Zero is the zero time, which the daemon reads as "no deadline". */
  type Time = nat

  const NO_TIME: Time := 0

  datatype Status = Alive | Failed | Left | OtherStatus(text: string)

  datatype Member = Member(name: Name, ip: string, status: Status, tag: State)

  /** The zero member: its empty name means "nobody". */
  const NO_MEMBER := Member("", "", OtherStatus(""), Unrecognised(""))

  type View = seq<Member>

  /** Names are what identifies a machine: none is empty, no two are the same. */
  ghost predicate WellNamed(v: View) {
    && (forall m :: m in v ==> m.name != "")
    && (forall i, j :: 0 <= i < j < |v| ==> v[i].name != v[j].name)
  }

  // --- What one member is ---

  predicate IsAlive(m: Member) { m.status == Alive }

  predicate IsFailed(m: Member) { m.status == Failed }

  predicate IsPopulation(m: Member) { m.status == Alive || m.status == Failed }

  predicate IsK3sServer(s: State) {
    s.StableServer? || s.BootstrapInstallInit? || s.BootstrapInstallServer?
    || s.RescaleCoordinating? || s.RescalePromoting?
  }

  predicate IsChangingEtcd(s: State) {
    s.BootstrapInstallInit? || s.BootstrapInstallServer? || s.RejoinCluster?
    || s.RescaleCoordinating? || s.RescalePromoting? || s.RescaleDemoting?
  }

  predicate HoldsServerSlot(m: Member) { IsPopulation(m) && IsK3sServer(m.tag) }

  predicate IsStableServer(m: Member) { m.status == Alive && m.tag == StableServer }

  predicate IsBusy(m: Member) { m.status == Alive && IsChangingEtcd(m.tag) }

  predicate BelongsToCluster(m: Member) { IsPopulation(m) && InCluster(m.tag) }

  predicate Matches(m: Member, tag: State) { m.status == Alive && m.tag == tag }

  // --- What the whole view says ---

  function NamesOf(v: View, p: Member -> bool): (s: seq<Name>) {
    if v == [] then []
    else
      var rest := NamesOf(v[..|v| - 1], p);
      if p(v[|v| - 1]) then rest + [v[|v| - 1].name] else rest
  }

  function AliveNames(v: View): (s: seq<Name>) { NamesOf(v, IsAlive) }

  function FailedNames(v: View): (s: seq<Name>) { NamesOf(v, IsFailed) }

  function StableServerCount(v: View): (k: nat) { Count(v, IsStableServer) }

  function Population(v: View): (k: nat) { Count(v, IsPopulation) }

  function K3sServerCount(v: View): (k: nat) { Count(v, HoldsServerSlot) }

  function DesiredServers(v: View): (k: int) { ServerTarget(Population(v)) }

  predicate EtcdIsChanging(v: View) { exists m :: m in v && IsBusy(m) }

  predicate ExistingClusterSeen(v: View) { exists m :: m in v && BelongsToCluster(m) }

  predicate IsVirgin(v: View, name: Name) {
    if v == [] then false
    else if v[0].name == name then v[0].status == Alive && IsFirstBoot(v[0].tag)
    else IsVirgin(v[1..], name)
  }

  function Lowest(v: View, tag: State): (m: Member) {
    if v == [] then NO_MEMBER
    else
      var best := Lowest(v[..|v| - 1], tag);
      var m := v[|v| - 1];
      if Matches(m, tag) && (best.name == "" || Less(m.name, best.name)) then m else best
  }

  function Highest(v: View, tag: State): (m: Member) {
    if v == [] then NO_MEMBER
    else
      var best := Highest(v[..|v| - 1], tag);
      var m := v[|v| - 1];
      if Matches(m, tag) && (best.name == "" || Less(best.name, m.name)) then m else best
  }

  predicate IsCoordinator(v: View, self: Name) {
    Lowest(v, StableServer).name != "" && Lowest(v, StableServer).name == self
  }

  // --- Durable failures ---

  /** The instant at which a failed machine becomes evictable; an unknown failure starts now. */
  function EvictionDeadline(failedSince: map<Name, Time>, grace: nat, now: Time, name: Name): (t: Time) {
    (if name in failedSince then failedSince[name] else now) + grace
  }

  function Expired(names: seq<Name>, failedSince: map<Name, Time>, grace: nat, now: Time): (s: seq<Name>) {
    if names == [] then []
    else
      var rest := Expired(names[..|names| - 1], failedSince, grace, now);
      var name := names[|names| - 1];
      if EvictionDeadline(failedSince, grace, now, name) <= now then rest + [name] else rest
  }

  function NextExpiry(names: seq<Name>, failedSince: map<Name, Time>, grace: nat, now: Time): (t: Time) {
    if names == [] then NO_TIME
    else
      var rest := NextExpiry(names[..|names| - 1], failedSince, grace, now);
      var deadline := EvictionDeadline(failedSince, grace, now, names[|names| - 1]);
      if deadline > now && (rest == NO_TIME || deadline < rest) then deadline else rest
  }

  function Evictable(v: View, failedSince: map<Name, Time>, grace: nat, now: Time): (s: seq<Name>) {
    Sorted(Expired(FailedNames(v), failedSince, grace, now))
  }

  function NextEviction(v: View, failedSince: map<Name, Time>, grace: nat, now: Time): (t: Time) {
    NextExpiry(FailedNames(v), failedSince, grace, now)
  }

  // --- The loops over the member list ---

  method AliveMemberNames(v: View) returns (names: seq<Name>)
    ensures names == AliveNames(v)
  {
    names := [];
    for i := 0 to |v|
      invariant names == AliveNames(v[..i])
    {
      assert v[..i + 1][..i] == v[..i];
      if v[i].status == Alive {
        names := names + [v[i].name];
      }
    }
    assert v[..|v|] == v;
  }

  method FailedMembersNames(v: View) returns (names: seq<Name>)
    ensures names == FailedNames(v)
  {
    names := [];
    for i := 0 to |v|
      invariant names == FailedNames(v[..i])
    {
      assert v[..i + 1][..i] == v[..i];
      if v[i].status == Failed {
        names := names + [v[i].name];
      }
    }
    assert v[..|v|] == v;
  }

  method FindExistingK3sClusterMember(v: View) returns (found: bool, member: Member)
    ensures found <==> ExistingClusterSeen(v)
    ensures found ==> member in v && BelongsToCluster(member)
  {
    for i := 0 to |v|
      invariant forall k :: 0 <= k < i ==> !BelongsToCluster(v[k])
    {
      if BelongsToCluster(v[i]) {
        return true, v[i];
      }
    }
    return false, NO_MEMBER;
  }

  method IsVirginMember(v: View, name: Name) returns (virgin: bool)
    ensures virgin == IsVirgin(v, name)
  {
    for i := 0 to |v|
      invariant IsVirgin(v, name) == IsVirgin(v[i..], name)
    {
      if v[i].name == name {
        return v[i].status == Alive && IsFirstBoot(v[i].tag);
      }
      assert v[i..][1..] == v[i + 1..];
    }
    return false;
  }

  method CountStableServers(v: View) returns (count: nat)
    ensures count == StableServerCount(v)
  {
    count := 0;
    for i := 0 to |v|
      invariant count == StableServerCount(v[..i])
    {
      assert v[..i + 1][..i] == v[..i];
      if v[i].status == Alive && v[i].tag == StableServer {
        count := count + 1;
      }
    }
    assert v[..|v|] == v;
  }

  method CountPopulation(v: View) returns (total: nat)
    ensures total == Population(v)
    ensures total == |set i | 0 <= i < |v| && (v[i].status == Alive || v[i].status == Failed)|
  {
    total := 0;
    for i := 0 to |v|
      invariant total == Population(v[..i])
      invariant total == |set k | 0 <= k < i && (v[k].status == Alive || v[k].status == Failed)|
    {
      assert v[..i + 1][..i] == v[..i];
      ghost var before := set k | 0 <= k < i && (v[k].status == Alive || v[k].status == Failed);
      ghost var after := set k | 0 <= k < i + 1 && (v[k].status == Alive || v[k].status == Failed);
      assert after == before + if (v[i].status == Alive || v[i].status == Failed) then {i} else {};
      if IsPopulation(v[i]) {
        total := total + 1;
      }
    }
    assert v[..|v|] == v;
  }

  method CountK3sServers(v: View) returns (count: nat)
    ensures count == K3sServerCount(v)
  {
    count := 0;
    for i := 0 to |v|
      invariant count == K3sServerCount(v[..i])
    {
      assert v[..i + 1][..i] == v[..i];
      if IsPopulation(v[i]) && IsK3sServer(v[i].tag) {
        count := count + 1;
      }
    }
    assert v[..|v|] == v;
  }

  method IsEtcdMembershipChanging(v: View) returns (busy: bool)
    ensures busy == EtcdIsChanging(v)
  {
    for i := 0 to |v|
      invariant forall k :: 0 <= k < i ==> !IsBusy(v[k])
    {
      if v[i].status == Alive && IsChangingEtcd(v[i].tag) {
        assert v[i] in v && IsBusy(v[i]);
        return true;
      }
    }
    return false;
  }

  method LowestNamedAliveMemberIn(v: View, tag: State) returns (target: Member)
    ensures target == Lowest(v, tag)
  {
    target := NO_MEMBER;
    for i := 0 to |v|
      invariant target == Lowest(v[..i], tag)
    {
      assert v[..i + 1][..i] == v[..i];
      if v[i].status != Alive || v[i].tag != tag {
        continue;
      }
      if target.name == "" || Less(v[i].name, target.name) {
        target := v[i];
      }
    }
    assert v[..|v|] == v;
  }

  method HighestNamedAliveMemberIn(v: View, tag: State) returns (target: Member)
    ensures target == Highest(v, tag)
  {
    target := NO_MEMBER;
    for i := 0 to |v|
      invariant target == Highest(v[..i], tag)
    {
      assert v[..i + 1][..i] == v[..i];
      if v[i].status != Alive || v[i].tag != tag {
        continue;
      }
      if target.name == "" || Less(target.name, v[i].name) {
        target := v[i];
      }
    }
    assert v[..|v|] == v;
  }

  method DurablyFailedMembersNames(v: View, failedSince: map<Name, Time>, grace: nat, now: Time)
    returns (evictable: seq<Name>, nextDeadline: Time)
    ensures evictable == Evictable(v, failedSince, grace, now)
    ensures nextDeadline == NextEviction(v, failedSince, grace, now)
  {
    var failed := FailedMembersNames(v);
    evictable, nextDeadline := [], NO_TIME;
    for i := 0 to |failed|
      invariant evictable == Expired(failed[..i], failedSince, grace, now)
      invariant nextDeadline == NextExpiry(failed[..i], failedSince, grace, now)
    {
      assert failed[..i + 1][..i] == failed[..i];
      var since := if failed[i] in failedSince then failedSince[failed[i]] else now;
      var deadline := since + grace;
      if deadline <= now {
        evictable := evictable + [failed[i]];
        continue;
      }
      if nextDeadline == NO_TIME || deadline < nextDeadline {
        nextDeadline := deadline;
      }
    }
    assert failed[..|failed|] == failed;
    evictable := Sorted(evictable);
  }
}

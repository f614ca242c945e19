/**
 * What a machine can see, written out member by member: the notions the design is stated in, and that
 * the daemon's readings of the member list are these.
 */
module Sights {
  import opened Names
  import opened Lifecycle
  import opened ClusterView
  import ViewLaws

  // --- The states, as the design lists them ---

  const FIRST_BOOT_STATES: set<State> := {
    Discovering, BootstrapConfirm, BootstrapWaiting, BootstrapInstallInit, BootstrapInstallServer,
    BootstrapInstallAgent, BootstrapFailed, JoiningWaiting, JoiningCleanup, JoiningAgent, JoiningFailed }

  const CLUSTER_STATES: set<State> := {
    StableServer, StableAgent, RejoinCluster, RejoinFailed, RescaleCoordinating, RescalePromoting, RescaleDemoting,
    RescaleFailed }

  /** A machine in one of these runs a K3s server, or is becoming one. */
  const SERVER_STATES: set<State> := {
    StableServer, BootstrapInstallInit, BootstrapInstallServer, RescaleCoordinating, RescalePromoting }

  /** A machine in one of these is changing the etcd membership, or may be about to return to it. */
  const ETCD_STATES: set<State> := {
    BootstrapInstallInit, BootstrapInstallServer, RejoinCluster, RescaleCoordinating, RescalePromoting,
      RescaleDemoting }

  lemma {:induction false} StatesAreListed(s: State)
    ensures IsFirstBoot(s) <==> s in FIRST_BOOT_STATES
    ensures InCluster(s) <==> s in CLUSTER_STATES
    ensures IsK3sServer(s) <==> s in SERVER_STATES
    ensures IsChangingEtcd(s) <==> s in ETCD_STATES
  {}

  // --- Sightings ---

  /** Some machine belongs to a cluster, or did when it was last heard of: it may come back with its data. */
  ghost predicate SeesCluster(v: View) {
    exists m :: m in v && (m.status == Alive || m.status == Failed) && m.tag in CLUSTER_STATES
  }

  /** This machine is alive, and has never completed an installation. */
  ghost predicate SeesNewcomer(v: View, x: Name) {
    exists m :: m in v && m.name == x && m.status == Alive && m.tag in FIRST_BOOT_STATES
  }

  ghost predicate SeesEtcdChange(v: View) {
    exists m :: m in v && m.status == Alive && m.tag in ETCD_STATES
  }

  /** The lowest-named alive machine in a state. */
  ghost predicate IsFirst(v: View, tag: State, m: Member) {
    && m in v && m.status == Alive && m.tag == tag
    && forall k :: k in v && k.status == Alive && k.tag == tag && k != m ==> Less(m.name, k.name)
  }

  /** The highest-named one. */
  ghost predicate IsLast(v: View, tag: State, m: Member) {
    && m in v && m.status == Alive && m.tag == tag
    && forall k :: k in v && k.status == Alive && k.tag == tag && k != m ==> Less(k.name, m.name)
  }

  /** This machine sees itself as the lowest-named alive stable server. */
  ghost predicate Leads(v: View, self: Name) {
    exists m :: IsFirst(v, StableServer, m) && m.name == self
  }

  ghost function AliveOnes(v: View): (s: set<Name>) {
    set m | m in v && m.status == Alive :: m.name
  }

  ghost function FailedOnes(v: View): (s: set<Name>) {
    set m | m in v && m.status == Failed :: m.name
  }

  /** Everyone who counts: a failed machine does until it is evicted. */
  ghost function Everyone(v: View): (s: set<Name>) {
    set m | m in v && (m.status == Alive || m.status == Failed) :: m.name
  }

  ghost function StableServers(v: View): (s: set<Name>) {
    set m | m in v && m.status == Alive && m.tag == StableServer :: m.name
  }

  /** The server slots that are taken: a failed machine keeps its own until it is evicted. */
  ghost function Slots(v: View): (s: set<Name>) {
    set m | m in v && (m.status == Alive || m.status == Failed) && m.tag in SERVER_STATES :: m.name
  }

  // --- The readings are these ---

  lemma {:induction false} ClusterIsSeen(v: View)
    ensures ExistingClusterSeen(v) <==> SeesCluster(v)
  {
    forall m | m in v ensures BelongsToCluster(m) <==>
        (m.status == Alive || m.status == Failed) && m.tag in CLUSTER_STATES
    {
      StatesAreListed(m.tag);
    }
    hide InCluster;
  }

  lemma {:induction false} EtcdChangeIsSeen(v: View)
    ensures EtcdIsChanging(v) <==> SeesEtcdChange(v)
  {
    forall m | m in v ensures IsBusy(m) <==> m.status == Alive && m.tag in ETCD_STATES {
      StatesAreListed(m.tag);
    }
    hide IsChangingEtcd;
  }

  lemma {:induction false} NewcomersAreSeen(v: View, x: Name)
    requires WellNamed(v)
    ensures IsVirgin(v, x) <==> SeesNewcomer(v, x)
  {
    if IsVirgin(v, x) {
      ViewLaws.VirginIsSeen(v, x);
      var m :| m in v && m.name == x && m.status == Alive && IsFirstBoot(m.tag);
      StatesAreListed(m.tag);
    }
    if SeesNewcomer(v, x) {
      var m :| m in v && m.name == x && m.status == Alive && m.tag in FIRST_BOOT_STATES;
      StatesAreListed(m.tag);
      ViewLaws.VirginIsByName(v, m);
    }
  }

  /** The scan for the lowest name finds the first one if there is one, and nobody otherwise. */
  lemma {:induction false} FirstIsFound(v: View, tag: State)
    requires WellNamed(v)
    ensures Lowest(v, tag).name != "" ==> IsFirst(v, tag, Lowest(v, tag))
    ensures forall m :: IsFirst(v, tag, m) ==> m == Lowest(v, tag) && m.name != ""
    ensures Lowest(v, tag).name == "" ==> forall m :: m in v ==> !(m.status == Alive && m.tag == tag)
  {
    ViewLaws.LowestIsLeast(v, tag);
    hide Lowest;
    var low := Lowest(v, tag);
    forall m | IsFirst(v, tag, m) ensures m == low && m.name != "" {
      assert Matches(m, tag);
      if m != low {
        LessIsAsymmetric(m.name, low.name);
      }
    }
    forall m | m in v ensures low.name == "" ==> !(m.status == Alive && m.tag == tag) {
      assert Matches(m, tag) <==> m.status == Alive && m.tag == tag;
    }
  }

  lemma {:induction false} LastIsFound(v: View, tag: State)
    requires WellNamed(v)
    ensures Highest(v, tag).name != "" ==> IsLast(v, tag, Highest(v, tag))
    ensures forall m :: IsLast(v, tag, m) ==> m == Highest(v, tag) && m.name != ""
    ensures Highest(v, tag).name == "" ==> forall m :: m in v ==> !(m.status == Alive && m.tag == tag)
  {
    ViewLaws.HighestIsGreatest(v, tag);
    hide Highest;
    var high := Highest(v, tag);
    forall m | IsLast(v, tag, m) ensures m == high && m.name != "" {
      assert Matches(m, tag);
      if m != high {
        LessIsAsymmetric(m.name, high.name);
      }
    }
    forall m | m in v ensures high.name == "" ==> !(m.status == Alive && m.tag == tag) {
      assert Matches(m, tag) <==> m.status == Alive && m.tag == tag;
    }
  }

  lemma {:induction false} LeaderIsElected(v: View, self: Name)
    requires WellNamed(v)
    ensures IsCoordinator(v, self) <==> Leads(v, self)
  {
    FirstIsFound(v, StableServer);
    hide Lowest;
  }

  /** Every machine that sees the same members elects the same one, and nobody else. */
  lemma {:induction false} OnlyOneLeads(v: View, w: View, a: Name, b: Name)
    requires WellNamed(v) && (forall m :: m in v <==> m in w) && Leads(v, a) && Leads(w, b)
    ensures a == b
  {
    var x :| IsFirst(v, StableServer, x) && x.name == a;
    var y :| IsFirst(w, StableServer, y) && y.name == b;
    if x != y {
      LessIsAsymmetric(x.name, y.name);
    }
  }

  lemma {:induction false} ListsAreSets(v: View)
    requires WellNamed(v)
    ensures (forall x :: x in AliveNames(v) <==> x in AliveOnes(v)) && |AliveNames(v)| == |AliveOnes(v)|
    ensures Distinct(AliveNames(v)) && Distinct(FailedNames(v))
    ensures forall x :: x in FailedNames(v) <==> x in FailedOnes(v)
  {
    ViewLaws.NamesAreListedOnce(v, IsAlive);
    ViewLaws.NamesAreListedOnce(v, IsFailed);
    assert ViewLaws.Those(v, IsAlive) == AliveOnes(v) && ViewLaws.Those(v, IsFailed) == FailedOnes(v);
    SizeOfDistinct(AliveNames(v));
    assert (set x | x in AliveNames(v)) == AliveOnes(v);
  }

  /** The sizes the daemon counts are those of these sets. */
  lemma {:induction false} SizesAreCounted(v: View)
    requires WellNamed(v)
    ensures Population(v) == |Everyone(v)| && DesiredServers(v) == ServerTarget(|Everyone(v)|)
    ensures K3sServerCount(v) == |Slots(v)|
    ensures StableServerCount(v) == |StableServers(v)|
  {
    ViewLaws.CountIsSize(v, IsPopulation);
    ViewLaws.CountIsSize(v, HoldsServerSlot);
    ViewLaws.CountIsSize(v, IsStableServer);
    forall m | m in v ensures HoldsServerSlot(m) <==>
        (m.status == Alive || m.status == Failed) && m.tag in SERVER_STATES
    {
      StatesAreListed(m.tag);
    }
    hide IsK3sServer;
    assert ViewLaws.Those(v, IsPopulation) == Everyone(v);
    assert ViewLaws.Those(v, HoldsServerSlot) == Slots(v);
    assert ViewLaws.Those(v, IsStableServer) == StableServers(v);
  }

  /** The earliest of these instants, and the zero time if there is none. */
  ghost predicate IsEarliest(t: Time, instants: set<Time>) {
    if instants == {} then t == NO_TIME else t in instants && forall d :: d in instants ==> t <= d
  }

  /** Since when each failed machine is gone: one that was never seen so before starts now. */
  ghost function GoneSince(v: View, failedSince: map<Name, Time>, now: Time): (gone: map<Name, Time>) {
    map x | x in FailedOnes(v) :: if x in failedSince then failedSince[x] else now
  }

  lemma {:induction false} DeadlinesAreFound(v: View, failedSince: map<Name, Time>, grace: nat, now: Time)
    requires WellNamed(v)
    ensures forall x :: x in FailedNames(v) <==> x in GoneSince(v, failedSince, now)
    ensures forall x :: x in GoneSince(v, failedSince, now) ==>
              EvictionDeadline(failedSince, grace, now, x) == GoneSince(v, failedSince, now)[x] + grace
  {
    ListsAreSets(v);
    hide FailedNames, WellNamed, AliveNames, FailedOnes, AliveOnes;
  }

  lemma {:induction false} NextExpiryIsFound(names: seq<Name>, failedSince: map<Name, Time>, grace: nat, now: Time,
      gone: map<Name, Time>)
    requires forall x :: x in names <==> x in gone
    requires forall x :: x in gone ==> EvictionDeadline(failedSince, grace, now, x) == gone[x] + grace
    ensures IsEarliest(NextExpiry(names, failedSince, grace, now),
                       set x | x in gone && gone[x] + grace > now :: gone[x] + grace)
  {
    ViewLaws.NextExpiryIsEarliest(names, failedSince, grace, now);
    hide NextExpiry, EvictionDeadline;
    var instants := set x | x in gone && gone[x] + grace > now :: gone[x] + grace;
    var next := NextExpiry(names, failedSince, grace, now);
    if next != NO_TIME {
      var x :| x in names && EvictionDeadline(failedSince, grace, now, x) == next;
      assert gone[x] + grace in instants;
    }
    forall d | d in instants ensures next != NO_TIME && next <= d {
      var z :| z in gone && gone[z] + grace > now && d == gone[z] + grace;
      assert z in names;
    }
  }

  /**
   * Evictable are exactly the failed machines whose grace period is over, and the next one to become so is
   * the first of the others.
   */
  lemma {:induction false} DurableFailuresAreFound(v: View, failedSince: map<Name, Time>, grace: nat, now: Time)
    requires WellNamed(v)
    ensures var gone := GoneSince(v, failedSince, now);
            && (forall x :: x in Evictable(v, failedSince, grace, now) <==> x in gone && gone[x] + grace <= now)
            && IsEarliest(NextEviction(v, failedSince, grace, now),
                          set x | x in gone && gone[x] + grace > now :: gone[x] + grace)
  {
    var gone := GoneSince(v, failedSince, now);
    ViewLaws.EvictableAreTheDurablyFailed(v, failedSince, grace, now);
    assert ViewLaws.Those(v, IsFailed) == FailedOnes(v) == gone.Keys;
    DeadlinesAreFound(v, failedSince, grace, now);
    hide Evictable, NextExpiry, FailedNames, WellNamed, FailedOnes, ViewLaws.Those, EvictionDeadline, GoneSince,
         IsEarliest,
         IsSorted, Distinct;
    NextExpiryIsFound(FailedNames(v), failedSince, grace, now, gone);
  }

  // --- Outages ---

  /** The same members, some of which failed meanwhile. */
  predicate Outage(v: View, w: View) {
    && |w| == |v|
    && forall i :: 0 <= i < |v| ==> w[i] == v[i] || (v[i].status == Alive && w[i] == v[i].(status := Failed))
  }

  /** In an outage every machine keeps its name and its tag, and still counts. */
  lemma {:induction false} OutagesKeepMembers(v: View, w: View)
    requires WellNamed(v) && Outage(v, w)
    ensures WellNamed(w)
    ensures forall m :: m in w ==> exists k :: k in v && k.name == m.name && k.tag == m.tag && Stays(k, m)
    ensures forall k :: k in v ==> exists m :: m in w && k.name == m.name && k.tag == m.tag && Stays(k, m)
  {
    forall m | m in w ensures exists k :: k in v && k.name == m.name && k.tag == m.tag && Stays(k, m) {
      var i :| 0 <= i < |w| && w[i] == m;
      assert v[i] in v && Stays(v[i], m);
    }
    forall k | k in v ensures exists m :: m in w && k.name == m.name && k.tag == m.tag && Stays(k, m) {
      var i :| 0 <= i < |v| && v[i] == k;
      assert w[i] in w && Stays(k, w[i]);
    }
  }

  predicate Counts(m: Member) { m.status == Alive || m.status == Failed }

  predicate Stays(k: Member, m: Member) { Counts(k) <==> Counts(m) }

  lemma {:induction false} OutagesKeepSets(v: View, w: View)
    requires WellNamed(v) && Outage(v, w)
    ensures Everyone(w) == Everyone(v) && Slots(w) == Slots(v)
  {
    OutagesKeepMembers(v, w);
    hide Outage, WellNamed;
    forall x ensures x in Everyone(w) <==> x in Everyone(v) {}
    forall x ensures x in Slots(w) <==> x in Slots(v) {}
  }

  /** A machine that fails, in whatever state, changes neither the target nor the slots taken. */
  lemma {:induction false} OutagesKeepSizes(v: View, w: View)
    requires WellNamed(v) && Outage(v, w)
    ensures WellNamed(w) && Everyone(w) == Everyone(v) && Slots(w) == Slots(v)
    ensures DesiredServers(w) == DesiredServers(v) && K3sServerCount(w) == K3sServerCount(v)
  {
    OutagesKeepMembers(v, w);
    OutagesKeepSets(v, w);
    hide Outage, WellNamed, Everyone, Slots, DesiredServers, K3sServerCount, Population;
    SizesAreCounted(v);
    SizesAreCounted(w);
  }
}

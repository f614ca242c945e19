/** What the readings of a view mean, and that they do not depend on the order of its members. */
module ViewLaws {
  import opened Names
  import opened Lifecycle
  import opened ClusterView

  /** The names of the members of one kind, as a set. */
  ghost function Those(v: View, p: Member -> bool): (s: set<Name>) {
    set m | m in v && p(m) :: m.name
  }

  /** Counting members is counting names. */
  lemma {:induction false} CountIsSize(v: View, p: Member -> bool)
    requires WellNamed(v)
    ensures Count(v, p) == |Those(v, p)|
  {
    if v == [] {
      assert Those(v, p) == {};
    } else {
      var last := |v| - 1;
      var m := v[last];
      var rest := v[..last];
      CountIsSize(rest, p);
      assert v == rest + [m];
      assert m.name !in Those(rest, p);
      if p(m) {
        assert Those(v, p) == Those(rest, p) + {m.name};
      } else {
        assert Those(v, p) == Those(rest, p);
      }
    }
  }

  /** Listing the names of one kind lists each of them once. */
  lemma {:induction false} NamesAreListedOnce(v: View, p: Member -> bool)
    requires WellNamed(v)
    ensures Distinct(NamesOf(v, p))
    ensures forall x :: x in NamesOf(v, p) <==> x in Those(v, p)
  {
    if v != [] {
      var last := |v| - 1;
      assert v == v[..last] + [v[last]];
      NamesAreListedOnce(v[..last], p);
      assert v[last].name !in Those(v[..last], p);
    }
  }

  /** The lowest-named alive member in a state: found exactly when there is one, and below every other. */
  lemma {:induction false} LowestIsLeast(v: View, tag: State)
    requires WellNamed(v)
    ensures Lowest(v, tag).name != "" <==> exists m :: m in v && Matches(m, tag)
    ensures Lowest(v, tag).name != "" ==> Lowest(v, tag) in v && Matches(Lowest(v, tag), tag)
    ensures forall m :: m in v && Matches(m, tag) && m != Lowest(v, tag) ==> Less(Lowest(v, tag).name, m.name)
  {
    if v != [] {
      var rest, m := v[..|v| - 1], v[|v| - 1];
      assert v == rest + [m];
      LowestIsLeast(rest, tag);
      var best := Lowest(rest, tag);
      forall x | x in v && Matches(x, tag) && x != Lowest(v, tag)
        ensures Less(Lowest(v, tag).name, x.name)
      {
        if x == m {
          LessIsTotal(best.name, m.name);
        } else if Lowest(v, tag) == m && x != best {
          LessIsTransitive(m.name, best.name, x.name);
        }
      }
    }
  }

  lemma {:induction false} HighestIsGreatest(v: View, tag: State)
    requires WellNamed(v)
    ensures Highest(v, tag).name != "" <==> exists m :: m in v && Matches(m, tag)
    ensures Highest(v, tag).name != "" ==> Highest(v, tag) in v && Matches(Highest(v, tag), tag)
    ensures forall m :: m in v && Matches(m, tag) && m != Highest(v, tag) ==> Less(m.name, Highest(v, tag).name)
  {
    if v != [] {
      var rest, m := v[..|v| - 1], v[|v| - 1];
      assert v == rest + [m];
      HighestIsGreatest(rest, tag);
      var best := Highest(rest, tag);
      forall x | x in v && Matches(x, tag) && x != Highest(v, tag)
        ensures Less(x.name, Highest(v, tag).name)
      {
        if x == m {
          LessIsTotal(best.name, m.name);
        } else if Highest(v, tag) == m && x != best {
          LessIsTransitive(x.name, best.name, m.name);
        }
      }
    }
  }

  lemma {:induction false} VirginIsByName(v: View, m: Member)
    requires WellNamed(v) && m in v
    ensures IsVirgin(v, m.name) <==> m.status == Alive && IsFirstBoot(m.tag)
  {
    if v[0] != m {
      var i :| 0 <= i < |v| && v[i] == m;
      assert v[1..][i - 1] == m;
      VirginIsByName(v[1..], m);
    }
  }

  lemma {:induction false} VirginIsSeen(v: View, name: Name)
    requires IsVirgin(v, name)
    ensures exists m :: m in v && m.name == name && m.status == Alive && IsFirstBoot(m.tag)
  {
    if v[0].name == name {
      assert v[0] in v;
    } else {
      VirginIsSeen(v[1..], name);
      var m :| m in v[1..] && m.name == name && m.status == Alive && IsFirstBoot(m.tag);
      assert m in v;
    }
  }

  // --- Durable failures ---

  lemma {:induction false} ExpiredAreThoseDue(names: seq<Name>, failedSince: map<Name, Time>, grace: nat, now: Time)
    ensures forall x :: x in Expired(names, failedSince, grace, now) <==>
              x in names && EvictionDeadline(failedSince, grace, now, x) <= now
    ensures Distinct(names) ==> Distinct(Expired(names, failedSince, grace, now))
  {
    if names != [] {
      ExpiredAreThoseDue(names[..|names| - 1], failedSince, grace, now);
      assert names == names[..|names| - 1] + [names[|names| - 1]];
    }
  }

  /** The next expiry is the earliest pending deadline, and the zero time exactly when none is pending. */
  lemma {:induction false} NextExpiryIsEarliest(names: seq<Name>, failedSince: map<Name, Time>, grace: nat, now: Time)
    ensures var next := NextExpiry(names, failedSince, grace, now);
            && (next == NO_TIME
                 || (next > now && exists x :: x in names && EvictionDeadline(failedSince, grace, now, x) == next))
            && forall x :: x in names && EvictionDeadline(failedSince, grace, now, x) > now ==>
                 NO_TIME < next <= EvictionDeadline(failedSince, grace, now, x)
  {
    if names != [] {
      var rest := names[..|names| - 1];
      assert names == rest + [names[|names| - 1]];
      NextExpiryIsEarliest(rest, failedSince, grace, now);
      assert names[|names| - 1] in names;
    }
  }

  /** The evictable machines: the failed ones whose grace period is over, each once, in name order. */
  lemma {:induction false} EvictableAreTheDurablyFailed(v: View, failedSince: map<Name, Time>, grace: nat, now: Time)
    requires WellNamed(v)
    ensures var names := Evictable(v, failedSince, grace, now);
            && IsSorted(names) && Distinct(names)
            && forall x :: x in names <==>
                 x in Those(v, IsFailed) && EvictionDeadline(failedSince, grace, now, x) <= now
  {
    var due := Expired(FailedNames(v), failedSince, grace, now);
    NamesAreListedOnce(v, IsFailed);
    ExpiredAreThoseDue(FailedNames(v), failedSince, grace, now);
    SortedIsSorted(due);
    SortedKeepsMembers(due);
    DistinctPermutation(due, Sorted(due));
  }

  // --- Order independence ---

  lemma {:induction false} SameDistinctMembers(a: seq<Name>, b: seq<Name>)
    requires Distinct(a) && Distinct(b) && forall x :: x in a <==> x in b
    ensures multiset(a) == multiset(b)
  {
    forall x ensures multiset(a)[x] == multiset(b)[x] {
      OccursOnce(a, x);
      OccursOnce(b, x);
      assert (x in multiset(a) <==> x in a) && (x in multiset(b) <==> x in b);
    }
  }

  lemma {:induction false} SameMembers(v: View, w: View)
    requires WellNamed(v) && multiset(v) == multiset(w)
    ensures WellNamed(w) && forall m :: m in v <==> m in w
  {
    forall m ensures m in v <==> m in w {
      assert m in multiset(v) <==> m in multiset(w);
    }
    assert Distinct(v);
    DistinctPermutation(v, w);
    forall i, j | 0 <= i < j < |w| ensures w[i].name != w[j].name {
      assert w[i] in v && w[j] in v;
    }
  }

  /** Two machines that see the same members read the same counts, elections and targets. */
  lemma {:induction false} ReadingsIgnoreOrder(v: View, w: View, tag: State)
    requires WellNamed(v) && multiset(v) == multiset(w)
    ensures StableServerCount(v) == StableServerCount(w)
    ensures Population(v) == Population(w)
    ensures K3sServerCount(v) == K3sServerCount(w)
    ensures DesiredServers(v) == DesiredServers(w)
    ensures EtcdIsChanging(v) == EtcdIsChanging(w)
    ensures ExistingClusterSeen(v) == ExistingClusterSeen(w)
    ensures Lowest(v, tag) == Lowest(w, tag)
    ensures Highest(v, tag) == Highest(w, tag)
    ensures Sorted(AliveNames(v)) == Sorted(AliveNames(w))
  {
    SameMembers(v, w);
    CountOfPermutation(v, w, IsStableServer);
    CountOfPermutation(v, w, IsPopulation);
    CountOfPermutation(v, w, HoldsServerSlot);
    LowestIsLeast(v, tag);
    LowestIsLeast(w, tag);
    HighestIsGreatest(v, tag);
    HighestIsGreatest(w, tag);
    LowestAgree(v, w, tag);
    HighestAgree(v, w, tag);
    NamesAreListedOnce(v, IsAlive);
    NamesAreListedOnce(w, IsAlive);
    SameDistinctMembers(AliveNames(v), AliveNames(w));
    SortedIsSorted(AliveNames(v));
    SortedIsSorted(AliveNames(w));
    SortedListsAgree(Sorted(AliveNames(v)), Sorted(AliveNames(w)));
  }

  lemma {:induction false} NobodyFound(v: View, tag: State)
    ensures Lowest(v, tag).name == "" ==> Lowest(v, tag) == NO_MEMBER || Matches(Lowest(v, tag), tag)
    ensures Highest(v, tag).name == "" ==> Highest(v, tag) == NO_MEMBER || Matches(Highest(v, tag), tag)
    ensures Lowest(v, tag) == NO_MEMBER || Lowest(v, tag) in v
    ensures Highest(v, tag) == NO_MEMBER || Highest(v, tag) in v
  {
    if v != [] {
      NobodyFound(v[..|v| - 1], tag);
    }
  }

  lemma {:induction false} LowestAgree(v: View, w: View, tag: State)
    requires WellNamed(v) && WellNamed(w) && forall m :: m in v <==> m in w
    ensures Lowest(v, tag) == Lowest(w, tag)
  {
    LowestIsLeast(v, tag);
    LowestIsLeast(w, tag);
    NobodyFound(v, tag);
    NobodyFound(w, tag);
    if Lowest(v, tag) != Lowest(w, tag) {
      LessIsAsymmetric(Lowest(v, tag).name, Lowest(w, tag).name);
    }
  }

  lemma {:induction false} HighestAgree(v: View, w: View, tag: State)
    requires WellNamed(v) && WellNamed(w) && forall m :: m in v <==> m in w
    ensures Highest(v, tag) == Highest(w, tag)
  {
    HighestIsGreatest(v, tag);
    HighestIsGreatest(w, tag);
    NobodyFound(v, tag);
    NobodyFound(w, tag);
    if Highest(v, tag) != Highest(w, tag) {
      LessIsAsymmetric(Highest(v, tag).name, Highest(w, tag).name);
    }
  }

  /** They also agree on whom to evict, when, and who is on its first boot. */
  lemma {:induction false} FailuresIgnoreOrder(v: View, w: View, failedSince: map<Name, Time>, grace: nat, now: Time,
      name: Name)
    requires WellNamed(v) && multiset(v) == multiset(w)
    ensures Evictable(v, failedSince, grace, now) == Evictable(w, failedSince, grace, now)
    ensures NextEviction(v, failedSince, grace, now) == NextEviction(w, failedSince, grace, now)
    ensures IsVirgin(v, name) == IsVirgin(w, name)
  {
    SameMembers(v, w);
    assert Those(v, IsFailed) == Those(w, IsFailed);
    EvictableAreTheDurablyFailed(v, failedSince, grace, now);
    EvictableAreTheDurablyFailed(w, failedSince, grace, now);
    var a, b := Evictable(v, failedSince, grace, now), Evictable(w, failedSince, grace, now);
    SameDistinctMembers(a, b);
    SortedListsAgree(a, b);
    NamesAreListedOnce(v, IsFailed);
    NamesAreListedOnce(w, IsFailed);
    NextExpiryIsEarliest(FailedNames(v), failedSince, grace, now);
    NextExpiryIsEarliest(FailedNames(w), failedSince, grace, now);
    if m :| m in v && m.name == name {
      VirginIsByName(v, m);
      VirginIsByName(w, m);
    } else {
      if IsVirgin(v, name) { VirginIsSeen(v, name); }
      if IsVirgin(w, name) { VirginIsSeen(w, name); }
    }
  }

  // --- Server slots ---

  predicate IsFailedServer(m: Member) { m.status == Failed && IsK3sServer(m.tag) }

  /** With no etcd change in progress, the slots are the alive stable servers and the failed servers. */
  lemma {:induction false} SlotsWithoutChange(v: View)
    requires !EtcdIsChanging(v)
    ensures K3sServerCount(v) == StableServerCount(v) + Count(v, IsFailedServer)
  {
    if v != [] {
      var last := |v| - 1;
      assert v[last] in v && !IsBusy(v[last]);
      assert forall m :: m in v[..last] ==> m in v;
      SlotsWithoutChange(v[..last]);
    }
  }

  /**
   * Too many servers, no etcd change, and a coordinator: the machine to demote is the coordinator
   * itself exactly when it is the only alive stable server.
   */
  lemma {:induction false} CoordinatorIsLastToGo(v: View, self: Name)
    requires WellNamed(v) && IsCoordinator(v, self)
    ensures Highest(v, StableServer).name != ""
    ensures Highest(v, StableServer).name == self <==> StableServerCount(v) == 1
  {
    var low, high := Lowest(v, StableServer), Highest(v, StableServer);
    LowestIsLeast(v, StableServer);
    HighestIsGreatest(v, StableServer);
    CountIsSize(v, IsStableServer);
    var servers := Those(v, IsStableServer);
    assert low.name in servers && high.name in servers;
    if high.name == self {
      forall x | x in servers ensures x == self {
        var m :| m in v && IsStableServer(m) && m.name == x;
        LessIsAsymmetric(low.name, high.name);
        if m != low && m != high {
          LessIsAsymmetric(low.name, m.name);
        }
      }
      assert servers == {self};
    } else {
      SubsetSize({self, high.name}, servers);
    }
  }
}

/** The lifecycle states and roles of a machine, and the leaderless role assignment. */
module Lifecycle {
  import opened Names

  /** One constructor per state; Unrecognised is any tag this version of the daemon does not know. */
  datatype State =
    | Starting
    | Discovering
    | BootstrapConfirm
    | BootstrapWaiting
    | BootstrapInstallInit
    | BootstrapInstallServer
    | BootstrapInstallAgent
    | BootstrapFailed
    | JoiningWaiting
    | JoiningCleanup
    | JoiningAgent
    | JoiningFailed
    | RejoinCluster
    | RejoinFailed
    | RescaleCoordinating
    | RescalePromoting
    | RescaleDemoting
    | RescaleFailed
    | StableServer
    | StableAgent
    | Unrecognised(text: string)

  predicate IsFirstBoot(s: State) {
    match s
    case Discovering | BootstrapConfirm | BootstrapWaiting
       | BootstrapInstallInit | BootstrapInstallServer | BootstrapInstallAgent | BootstrapFailed
       | JoiningWaiting | JoiningCleanup | JoiningAgent | JoiningFailed => true
    case _ => false
  }

  predicate InCluster(s: State) {
    match s
    case StableServer | StableAgent | RejoinCluster | RejoinFailed
       | RescaleCoordinating | RescalePromoting | RescaleDemoting | RescaleFailed => true
    case _ => false
  }

  /** The joining path of the first boot. */
  predicate IsJoining(s: State) {
    s.JoiningWaiting? || s.JoiningCleanup? || s.JoiningAgent? || s.JoiningFailed?
  }

  /** The states documented as terminal. */
  predicate IsTerminal(s: State) {
    s.BootstrapFailed? || s.JoiningFailed? || s.RejoinFailed? || s.RescaleFailed?
  }

  /** First boot, cluster membership and start-up share out the states a machine can be in. */
  lemma {:induction false} StatesArePartitioned(s: State)
    ensures !(IsFirstBoot(s) && InCluster(s))
    ensures !s.Unrecognised? ==> (!IsFirstBoot(s) && !InCluster(s) <==> s == Starting)
    ensures IsJoining(s) ==> IsFirstBoot(s)
  {}

  // --- Roles ---

  /** A role is a string on the wire: OtherRole is any text but "server" and "agent". */
  datatype Role = Server | Agent | OtherRole(text: string)

  const NO_ROLE := OtherRole("")

  function StableState(r: Role): (s: State) {
    if r == Server then StableServer else StableAgent
  }

  function Other(r: Role): (role: Role) {
    if r == Server then Agent else Server
  }

  // --- How many servers ---

  const MAX_SERVERS := 7

  /** The largest odd count that fits in both the population and the ceiling. */
  function ServerTarget(total: int): (k: int) {
    if total <= 0 then 0
    else if total >= MAX_SERVERS then MAX_SERVERS
    else if total % 2 == 0 then total - 1
    else total
  }

  method DesiredServerCount(total: int) returns (count: int)
    ensures count == ServerTarget(total)
  {
    if total <= 0 {
      return 0;
    }
    count := if total < MAX_SERVERS then total else MAX_SERVERS;
    if count % 2 == 0 {
      count := count - 1;
    }
  }

  /** How many members a group of that size can lose and still hold a majority. */
  function Tolerated(members: int): (k: int)
    requires members >= 1
  {
    members - (members / 2 + 1)
  }

  /** The target tolerates as many losses as any allowed size, and no smaller size does as well. */
  lemma {:induction false} ServerTargetIsBest(total: int, other: int)
    requires 1 <= other <= total && other <= 7
    ensures 1 <= ServerTarget(total) <= total && ServerTarget(total) <= 7
    ensures Tolerated(other) <= Tolerated(ServerTarget(total))
    ensures other < ServerTarget(total) ==> Tolerated(other) < Tolerated(ServerTarget(total))
  {
    var best := ServerTarget(total);
    assert best % 2 == 1;
    assert best == total || best == total - 1 || best == MAX_SERVERS;
  }

  lemma {:induction false} ServerTargetIsMonotone(a: int, b: int)
    requires a <= b
    ensures 0 <= ServerTarget(a) <= ServerTarget(b)
    ensures b <= 0 ==> ServerTarget(b) == 0
  {}

  // --- Ranks ---

  function Index(s: seq<Name>, x: Name): (k: int)
    ensures -1 <= Index(s, x) < |s|
    ensures Index(s, x) >= 0 ==> s[Index(s, x)] == x && x !in s[..Index(s, x)]
    ensures Index(s, x) < 0 ==> x !in s
  {
    if s == [] then -1
    else
      var i := Index(s[..|s| - 1], x);
      assert s == s[..|s| - 1] + [s[|s| - 1]];
      if i >= 0 then i
      else if s[|s| - 1] == x then |s| - 1 else -1
  }

  lemma {:induction false} FirstIndex(s: seq<Name>, x: Name, i: nat)
    requires i < |s| && s[i] == x && x !in s[..i]
    ensures Index(s, x) == i
  {
    var at := Index(s, x);
    assert forall k :: 0 <= k < i ==> s[k] == s[..i][k];
    assert at >= 0 ==> forall k :: 0 <= k < at ==> s[k] == s[..at][k];
  }

  /** The position of a name among others, or -1 when it is not one of them. */
  function RankOf(names: seq<Name>, self: Name): (k: int) {
    Index(Sorted(names), self)
  }

  /** Stands for the library sort. */
  method SortSlice(a: array<Name>)
    modifies a
    ensures a[..] == Sorted(old(a[..]))
  {
    var s := Sorted(a[..]);
    forall i | 0 <= i < a.Length {
      a[i] := s[i];
    }
  }

  /** The position of self among names, or None when self is not listed. The list is left as it was. */
  method Rank(names: array<Name>, self: Name) returns (rank: Option<nat>)
    ensures names[..] == old(names[..])
    ensures rank == if RankOf(names[..], self) < 0 then None else Some(RankOf(names[..], self))
  {
    var sorted := new Name[names.Length];
    forall i | 0 <= i < names.Length {
      sorted[i] := names[i];
    }
    assert sorted[..] == names[..];
    SortSlice(sorted);
    var i := 0;
    while i < sorted.Length && sorted[i] != self
      invariant 0 <= i <= sorted.Length
      invariant self !in sorted[..i]
    {
      i := i + 1;
    }
    if i == sorted.Length {
      assert sorted[..] == sorted[..i];
      return None;
    }
    assert sorted[..][..i] == sorted[..i];
    FirstIndex(sorted[..], self, i);
    return Some(i);
  }

  function RoleForRank(rank: int, total: int): (role: Role) {
    if rank < ServerTarget(total) then Server else Agent
  }

  function Below(self: Name): (p: Name -> bool) {
    (other: Name) => Less(other, self)
  }

  lemma {:induction false} CountBelowInSorted(s: seq<Name>, x: Name, i: nat)
    requires IsSorted(s) && i < |s| && s[i] == x
    requires forall k :: 0 <= k < i ==> s[k] != x
    ensures Count(s, Below(x)) == i
  {
    var last := |s| - 1;
    var rest := s[..last];
    if i == last {
      forall y | y in rest ensures Less(y, x) {
        var k :| 0 <= k < last && rest[k] == y;
        assert !Less(s[last], s[k]) && s[k] != x;
        LessIsTotal(y, x);
      }
      CountAll(rest, Below(x));
      LessIsAsymmetric(x, x);
    } else {
      assert !Less(s[last], s[i]);
      CountBelowInSorted(rest, x, i);
    }
  }

  lemma {:induction false} CountAll<T>(s: seq<T>, p: T -> bool)
    requires forall x :: x in s ==> p(x)
    ensures Count(s, p) == |s|
  {
    if s != [] {
      CountAll(s[..|s| - 1], p);
    }
  }

  /** A machine's rank is the number of machines named before it, whatever the order of the list. */
  lemma {:induction false} RankCountsSmallerNames(names: seq<Name>, self: Name)
    ensures RankOf(names, self) >= 0 <==> self in names
    ensures self in names ==> RankOf(names, self) == Count(names, Below(self))
  {
    SortedKeepsMembers(names);
    SortedIsSorted(names);
    if self in names {
      var at := RankOf(names, self);
      assert forall k :: 0 <= k < at ==> Sorted(names)[k] == Sorted(names)[..at][k];
      CountBelowInSorted(Sorted(names), self, at);
      CountOfPermutation(names, Sorted(names), Below(self));
    }
  }

  /** Every arrangement of the same members gives every machine the same rank. */
  lemma {:induction false} RankIgnoresOrder(a: seq<Name>, b: seq<Name>, self: Name)
    requires multiset(a) == multiset(b)
    ensures RankOf(a, self) == RankOf(b, self)
  {
    SortedIsSorted(a);
    SortedIsSorted(b);
    SortedListsAgree(Sorted(a), Sorted(b));
  }

  /** Ranks number distinct names 0..n-1 without gap or repetition. */
  lemma {:induction false} RanksAreABijection(names: seq<Name>)
    requires Distinct(names)
    ensures forall x :: x in names ==> 0 <= RankOf(names, x) < |names| && Sorted(names)[RankOf(names, x)] == x
    ensures forall r :: 0 <= r < |names| ==> Sorted(names)[r] in names && RankOf(names, Sorted(names)[r]) == r
  {
    var s := Sorted(names);
    SortedKeepsMembers(names);
    DistinctPermutation(names, s);
    forall r | 0 <= r < |names| ensures s[r] in names && RankOf(names, s[r]) == r {
      assert s[r] in s;
    }
  }

  /** They number them in name order. */
  lemma {:induction false} RanksFollowNames(names: seq<Name>, x: Name, y: Name)
    requires Distinct(names) && x in names && y in names
    ensures Less(x, y) <==> RankOf(names, x) < RankOf(names, y)
  {
    RanksAreABijection(names);
    SortedIsSorted(names);
    var i, j := RankOf(names, x), RankOf(names, y);
    assert Sorted(names)[i] == x && Sorted(names)[j] == y;
    LessIsTotal(x, y);
    LessIsAsymmetric(x, y);
  }

  /** The machines the role assignment makes servers. */
  ghost function ServersAmong(names: seq<Name>): (s: set<Name>) {
    set x | x in names && RoleForRank(RankOf(names, x), |names|) == Server
  }

  lemma {:induction false} FirstRanksAreServers(names: seq<Name>)
    requires Distinct(names)
    ensures ServersAmong(names) == set r | 0 <= r < ServerTarget(|names|) :: Sorted(names)[r]
  {
    RanksAreABijection(names);
    forall x | x in ServersAmong(names)
      ensures 0 <= RankOf(names, x) < ServerTarget(|names|) && Sorted(names)[RankOf(names, x)] == x
    {
    }
  }

  /** The servers are exactly as many as the target asks for, and the lowest-named machines. */
  lemma {:induction false} LowestNamesBecomeServers(names: seq<Name>)
    requires Distinct(names)
    ensures |ServersAmong(names)| == ServerTarget(|names|)
    ensures forall x, y :: x in ServersAmong(names) && y in names && y !in ServersAmong(names) ==> Less(x, y)
  {
    var first := Sorted(names)[..ServerTarget(|names|)];
    assert ServersAmong(names) == set x | x in first by {
      FirstRanksAreServers(names);
      assert forall r :: 0 <= r < |first| ==> first[r] == Sorted(names)[r];
    }
    DistinctPermutation(names, Sorted(names));
    SizeOfDistinct(first);
    forall x, y | x in ServersAmong(names) && y in names && y !in ServersAmong(names) ensures Less(x, y) {
      RanksFollowNames(names, x, y);
    }
  }

  lemma {:induction false} SizeOfDistinct<T>(s: seq<T>)
    requires Distinct(s)
    ensures |set x | x in s| == |s|
  {
    if s != [] {
      var last := |s| - 1;
      SizeOfDistinct(s[..last]);
      assert s == s[..last] + [s[last]];
      assert (set x | x in s) == (set x | x in s[..last]) + {s[last]};
    }
  }
}

# Verification of the antsd cluster manager

`antsd` turns identical machines into a highly available K3s cluster. Each machine runs one `Manager`
loop; it sees the others through a Serf membership (name, status, state tag) and through broadcast user
events, and drives the K3s installation of its own disk. This project models that decision core in
Dafny and proves what it is for: one K3s operation at a time, an installation that is never overwritten,
servers installed strictly in rank order, a control plane that converges to one well-defined set of
machines, and no machine that joins under a name the cluster still knows.

## How the model is built

- `Names`, `Lifecycle`: names in the order of Go's `<`, the sort, the state set, roles, the server
  target and the leaderless ranking.
- `ClusterView`, `ViewLaws`: every loop of the membership snapshot as a method proved against a
  function, and what these readings mean.
- `Sights`: what a machine sees, written out member by member, and that the readings are this.
- `NodeStep`: one turn of the run loop as a function on values (`Step`). `Managers`: the same loop as
  the object it is, a class whose handlers update its fields, each proved to make of the whole object
  what its function makes of the value. `Managers.Manager.Handle` is proved equal to `Step` and keeps
  `Valid()`, so what is proved of `Step` is proved of the handlers.
- `FirstBootRules`, `ClusterRules`: what each turn does, exactly, stated on `Step` in terms of `Sights`
  without naming a function of the loop; and which turns alone can create a cluster, have a machine
  forgotten, or start a round.
- `NodeRuns`, `LifecycleRuns`, `Clocks`, `Deadlines`, `Wakeups`, `Promotions`: one machine over every
  interleaving of membership changes, user events, timers (stale ones included), user actions and
  operation results.
- `Installation`, `Machines`, `Records`: unit files, scripts that may lie about their outcome, the state
  file, one machine's life with crashes at any point, and what its file then says.
- `BootstrapCluster`, `RescaleTurn`, `RescaleConvergence`, `ForgetMe`, `ForgetMeResets`: whole clusters,
  where each machine takes real `Step`s and the network loses, repeats or delays what it carries.
- `BootstrapProgress`, `RescaleProgress`, `ForgetMeProgress`, `ForgetMeRuns`: that these clusters can
  always go on to what they are for, and the runs that show what can go wrong.

A machine's membership, its clock and the success of its Serf calls are parameters of a turn (`Env`).
An operation running beside the loop is an entry of `pending`; its result is an event. Orders and
requests are typed values, with `None` for an unreadable payload. The empty name means nobody and the
zero instant means no deadline, as in the source; names are required to be non-empty and distinct, and
instants to be non-zero, only where a proof needs it.

## What does not hold, and exactly when

- A confirmation that reaches a joiner while its own check of the disk is still running starts a second
  operation, and the answer of the check is then taken for that of the installation.
  `NodeRuns.TokenIsLostExactlyEarly` and `NodeRuns.OneOperationExactlyWhenTimely` show that this is the
  only way to lose the single operation, and `NodeRuns.EarlyConfirmationBreaksTheToken` shows the run.
- A cleaning round cancels the retry timer of an earlier abandoned round; when it ends before that retry
  delay, the coordinator is left with work and no timer. `Deadlines.WakeUpAfterForgetting` states exactly
  when for one turn, `Wakeups.RetriesAreArmed` over whole runs, and `Deadlines.ForgettingLosesTheRetry`
  gives the run. Any later membership change still wakes the coordinator.
- A conclusion about a name that survives a factory reset of that machine can let it install while K3s
  knows its ghost. `ForgetMeResets.BirthsAreHarmfulExactlyWhenStale` says exactly when: K3s knows the
  name, and a confirmation is on its way, or an answer to a lookup is unhandled and its coordinator can
  still act on it, or a deletion was carried out in a round that has not ended. Each of the three comes
  up alone after a join (`ForgetMeRuns.EveryKindComesUp`). When none does, a reset machine is
  served again while its coordinators go on (`ForgetMeRuns.AMachineCanJoinTwice`).
- `docs/logics/rescaling.md` promises that a machine that has just become stable observes the whole
  settle delay. A server that is demoted and promoted again keeps its imbalance clock, so it can convert
  at the instant of its promotion: `Promotions.PromotionSkipsTheDelay` gives the run, and
  `Promotions.PromotedServersSkipTheDelay` the exact condition.
- `docs/logics/bootstrap.md` announces `min(3, N)` servers. The code takes the largest odd count that
  fits both the population and 7, and so does the model.

## Model

| member | source | states |
|---|---|---|
| Lifecycle.StatesArePartitioned | antsd/internal/node/state.go:104-132 | first boot, in the cluster and starting share out every known state |
| Lifecycle.DesiredServerCount | antsd/internal/node/role.go:14-25 | computes the server target for every population, negative ones included |
| Lifecycle.ServerTargetIsBest | antsd/internal/node/role.go:14-25 | no size up to seven tolerates more losses than the target, and no smaller one as many |
| Lifecycle.ServerTargetIsMonotone | antsd/internal/node/role.go:14-25 | a larger population never wants fewer servers, and an empty one wants none |
| Lifecycle.Rank | antsd/internal/node/role.go:54-63 | the in-place sort works on a copy: the caller's list is intact, and the result is the position in name order or nothing when absent |
| Lifecycle.RankCountsSmallerNames | antsd/internal/node/role.go:54-63 | a rank exists exactly for listed machines, and is the number of machines named before |
| Lifecycle.RankIgnoresOrder | antsd/internal/node/role.go:54-63 | every arrangement of the same members gives the same rank |
| Lifecycle.RanksAreABijection | antsd/internal/node/role.go:54-63 | ranks number distinct names 0..n-1, each once |
| Lifecycle.RanksFollowNames | antsd/internal/node/role.go:54-63 | ranks follow the name order both ways |
| Lifecycle.LowestNamesBecomeServers | antsd/internal/node/role.go:54-71 | exactly as many servers as the target, and every one named before every agent |
| Names.LessIsByteWise | antsd/internal/cluster/view.go:179-190 | the name order is that of bytes: a name comes after its prefixes, and the first difference decides |
| ClusterView.AliveMemberNames | antsd/internal/cluster/view.go:39-48 | lists the alive members in list order |
| ClusterView.FailedMembersNames | antsd/internal/cluster/view.go:193-202 | lists the failed members in list order |
| ClusterView.FindExistingK3sClusterMember | antsd/internal/cluster/view.go:60-67 | found exactly when an alive or failed member is in a cluster state, and then returns one |
| ClusterView.IsVirginMember | antsd/internal/cluster/view.go:70-77 | the first member of that name decides: alive and on its first boot |
| ClusterView.CountStableServers | antsd/internal/cluster/view.go:80-90 | counts the alive stable servers |
| ClusterView.CountPopulation | antsd/internal/cluster/view.go:93-102 | counts the positions of the alive and failed members, as the reference reading does |
| ClusterView.CountK3sServers | antsd/internal/cluster/view.go:124-133 | counts the members that hold a server slot |
| ClusterView.IsEtcdMembershipChanging | antsd/internal/cluster/view.go:136-144 | true exactly when an alive member shows a state that changes etcd |
| ClusterView.LowestNamedAliveMemberIn | antsd/internal/cluster/view.go:179-190 | the scan with the empty name as nobody computes the reference reading |
| ClusterView.HighestNamedAliveMemberIn | antsd/internal/cluster/view.go:165-176 | the scan with the empty name as nobody computes the reference reading |
| ClusterView.DurablyFailedMembersNames | antsd/internal/cluster/view.go:208-231 | the loop computes the sorted evictable list and the next deadline together |
| ViewLaws.LowestIsLeast | antsd/internal/cluster/view.go:147-190 | someone is elected exactly when an alive member is in the state, and it is named before all the others |
| ViewLaws.HighestIsGreatest | antsd/internal/cluster/view.go:160-176 | the mirror statement for the demotion target |
| ViewLaws.CountIsSize | antsd/internal/cluster/view.go:80-133 | each count is the number of distinct names it covers |
| ViewLaws.EvictableAreTheDurablyFailed | antsd/internal/cluster/view.go:208-231 | evictable means failed and past its deadline, each name once, in name order |
| ViewLaws.NextExpiryIsEarliest | antsd/internal/cluster/view.go:208-231 | the next deadline is the earliest one ahead, and zero exactly when none is |
| ViewLaws.ReadingsIgnoreOrder | antsd/internal/cluster/view.go:38-190 | counts, elections and targets are the same for every arrangement of the members |
| ViewLaws.FailuresIgnoreOrder | antsd/internal/cluster/view.go:70-77 | so are first-boot status, evictable list and next deadline |
| ViewLaws.SlotsWithoutChange | antsd/internal/cluster/view.go:124-144 | with no etcd change, the slots are the alive stable servers plus the failed members with a server tag |
| ViewLaws.CoordinatorIsLastToGo | antsd/internal/cluster/view.go:147-176 | the demotion target is the coordinator exactly when it is the only alive stable server |
| Sights.ClusterIsSeen | antsd/internal/cluster/view.go:56-67 | a cluster is in sight exactly when some alive or failed member is in one of the eight listed states |
| Sights.EtcdChangeIsSeen | antsd/internal/cluster/view.go:136-144 | etcd counts as changing exactly when some alive member is in one of the six listed states |
| Sights.NewcomersAreSeen | antsd/internal/cluster/view.go:70-77 | a machine counts as new exactly when it is seen alive in one of the eleven first-boot states |
| Sights.LeaderIsElected | antsd/internal/cluster/view.go:147-150 | a machine is the coordinator exactly when it is the lowest-named alive stable server it sees |
| Sights.OnlyOneLeads | antsd/internal/cluster/rescale.go:10-11 | two machines that see the same members, in any order, and see themselves lead are the same machine |
| Sights.SizesAreCounted | antsd/internal/cluster/view.go:80-133 | population, target and server slots are the numbers of distinct names seen alive or failed, the latter in one of the five server states |
| Sights.DurableFailuresAreFound | antsd/internal/cluster/view.go:204-231 | evictable are exactly the failed machines gone for the grace period, one never seen before starting now, and the next deadline is the earliest of the others |
| Sights.OutagesKeepSizes | antsd/internal/cluster/view.go:109-133 | machines that fail, whatever their state, change neither the target nor the slots taken |
| FirstBootRules.ButtonRules | antsd/internal/cluster/bootstrap.go:86-121 | the exact result of the three buttons; a cluster is only proposed where none is in sight |
| FirstBootRules.CountdownRules | antsd/internal/cluster/bootstrap.go:124-147 | the exact result of a confirmed request and of the end of the wait |
| FirstBootRules.StartRule | antsd/internal/cluster/bootstrap.go:150-239 | the start: not alive fails; rank, role and cohort are those of the alive names; the first creates the cluster, or fails with nothing started if it sees one; the others wait for their number of stable servers and join the lowest-named |
| FirstBootRules.OnlyTheFirstCreates | antsd/internal/cluster/bootstrap.go:171-186 | over every event, a turn that publishes or starts the creation of a cluster is the start of a waiting machine that is first among the alive ones and sees no alive or failed machine of a cluster |
| FirstBootRules.ProposalsAreUnattended | antsd/internal/cluster/bootstrap.go:86-99 | over every event, the confirmation screen is only reached by its button, with no machine of a cluster in sight |
| FirstBootRules.DiversionRule | antsd/internal/cluster/joining.go:52-79 | an undecided machine, waiting ones included, diverts exactly when the first stable server it sees is not of its cohort, dropping its place; otherwise a waiting machine takes its turn, at the address of that server |
| FirstBootRules.JoinerRule | antsd/internal/cluster/joining.go:82-121 | the end of the grace period and every later change: a settled joiner goes on exactly if a stable server is in sight, to its check or to an installation at its address |
| FirstBootRules.ConfirmationRule | antsd/internal/cluster/forget.go:117-133 | only a confirmation that names this machine, during its clean-up, lets it install |
| FirstBootRules.RequestRule | antsd/internal/cluster/forget.go:75-114 | the request is sent after the check and at each retry, counted, with its timer set |
| FirstBootRules.FirstBootResults | antsd/internal/cluster/bootstrap.go:242-259 | success ends stable in the installed role with a first record of exactly this content, failure in the failed state of the path |
| FirstBootRules.LateTimersAreIgnored | antsd/internal/cluster/joining.go:82-90 | outside its workflow a first-boot timer or membership change does nothing |
| ClusterRules.LookupRule | antsd/internal/cluster/forget.go:141-182 | a name is looked up exactly when an idle server that leads sees that machine alive on its first boot |
| ClusterRules.ProbeRule | antsd/internal/cluster/forget.go:185-212 | the answer is acted on under the same condition: a free name is confirmed, a leftover erased by a round unless somebody alive changes etcd |
| ClusterRules.OnlyNewcomersAreForgotten | antsd/internal/cluster/forget.go:165-182 | over every event, a name is newly looked up, cleaned or erased only if the machine that leads sees it alive on its first boot |
| ClusterRules.BlockedRule | antsd/internal/cluster/rescale.go:154-172 | an evaluation that may not act starts nothing and leaves exactly the failure clock; losing the lead drops everything else |
| ClusterRules.EvictionRule | antsd/internal/cluster/rescale.go:174-178 | due evictions come first: one round with exactly the machines gone for the grace period, sorted |
| ClusterRules.BalanceRule | antsd/internal/cluster/rescale.go:180-203 | balanced and nothing due: the imbalance is cleared and the timer is the first eviction |
| ClusterRules.PatienceRule | antsd/internal/cluster/rescale.go:199-215 | off the size for less than the settle delay: nothing starts, and the timer is the first of the deadlines |
| ClusterRules.SizeRule | antsd/internal/cluster/rescale.go:290-340 | off the size for the settle delay: the first stable agent is promoted or the last stable server demoted, at this machine's address and never this machine; with nobody to convert it looks again a settle delay later |
| ClusterRules.OutagesAreSatOut | antsd/internal/cluster/view.go:109-133 | in a balanced cluster, machines that fail in whatever state start no round until one is due for eviction |
| ClusterRules.LongOutagesAreSatOut | antsd/internal/cluster/view.go:109-133 | the same over any number of evaluations, with any machines down at each |
| ClusterRules.OnlyLeadersStartRounds | antsd/internal/cluster/rescale.go:154-178 | over every event, a round of any kind only starts on a machine that sees itself lead and nobody alive in the six states that change etcd |
| ClusterRules.RoundRule | antsd/internal/cluster/rescale.go:365-397 | the end of each kind of round exactly: an order sent leaves the timer at now plus the settle delay, an order not sent or a failure gives up, and the other two evaluate at once |
| ClusterRules.OrderRule | antsd/internal/cluster/rescale.go:400-437 | an order is taken exactly by the machine it names, in the other role, with a record and an address |
| ClusterRules.ConversionRule | antsd/internal/cluster/rescale.go:470-519 | a conversion ends in the ordered role, recorded at this instant, or in the failed state |
| ClusterRules.RejoinRule | antsd/internal/cluster/rejoin.go:79-91 | a completed rejoin adds one to the boot count and changes nothing else of the record |
| ClusterRules.StrayEventsAreIgnored | antsd/internal/cluster/manager.go:323-396 | an unknown event, or a result that no operation or state waits for, changes nothing but the list of outstanding operations |
| ClusterRules.BootRule | antsd/internal/cluster/manager.go:193-208 | what a boot starts from: nothing but the file, which decides between first boot, rejoin and failure |
| Deadlines.RefusalsAreExact | antsd/internal/cluster/rescale.go:312-340 | when a conversion target is refused, exactly; and that the coordinator never designates itself |
| Managers.Manager.Boot | antsd/internal/cluster/manager.go:193-208 | from a fresh object and any valid file, the boot leaves a valid object: first boot, failed rejoin or rejoin |
| Managers.Manager.HandleRequestBootstrap | antsd/internal/cluster/bootstrap.go:86-99 | accepted exactly while discovering with no cluster in sight |
| Managers.Manager.HandleConfirmBootstrap | antsd/internal/cluster/bootstrap.go:113-121 | accepted exactly when the broadcast goes out |
| Managers.Manager.HandleBootstrapStart | antsd/internal/cluster/bootstrap.go:150-191 | the loops over the member list, the in-place sort and the branches on the rank amount to the reference step, a repeated start recomputing the rank; and it never sets out to create a cluster where it sees a machine, alive or failed, that belongs to one |
| Managers.Manager.MayForget | antsd/internal/cluster/forget.go:168-182 | exactly when this machine is a stable server, sees itself as the lowest-named alive one, and sees the named machine alive in one of the first-boot states |
| Managers.Manager.ObserveFailures | antsd/internal/cluster/rescale.go:117-132 | the two passes leave exactly the failed names, each with its first instant |
| Managers.Manager.TryRescale | antsd/internal/cluster/rescale.go:154-195 | the evaluation built from the view loops and field updates amounts to the reference step on every branch |
| Managers.Manager.CompareSize | antsd/internal/cluster/rescale.go:180-215 | debounces and converts; a refused conversion re-arms one settle delay later instead of spinning |
| Managers.Manager.StartConversion | antsd/internal/cluster/rescale.go:290-340 | started exactly when a target is chosen, unchanged otherwise |
| Managers.Manager.CompleteEviction | antsd/internal/cluster/rescale.go:269-286 | the loop forgets exactly the names Serf could erase |
| Managers.Manager.Handle | antsd/internal/cluster/manager.go:283-306 | one turn of the object is one Step of its value, and the object stays valid exactly when no confirmation comes before its own check |
| NodeRuns.BootIsSound | antsd/internal/cluster/manager.go:193-208 | every boot starts in the invariant |
| NodeRuns.TurnIsSound | antsd/internal/cluster/manager.go:310-360 | one turn keeps the invariant (operation, round, record and joining progress match the state) if and only if it is not a confirmation that overtakes the local check |
| NodeRuns.SoundExactlyWhenTimely | antsd/internal/cluster/manager.go:310-360 | the same over whole runs |
| NodeRuns.TokenIsLostExactlyEarly | antsd/internal/cluster/manager.go:310-360 | after one turn at most one operation is outstanding, in the state that started it, if and only if the turn is not such a confirmation |
| NodeRuns.OneOperationExactlyWhenTimely | antsd/internal/cluster/manager.go:310-360 | the same for every state of a whole run |
| NodeRuns.OneOperationAtATime | antsd/internal/cluster/manager.go:310-360 | at most one operation is outstanding, and its result finds the state that started it, so the dispatch never falls through |
| NodeRuns.EarlyConfirmationBreaksTheToken | antsd/internal/cluster/forget.go:117-133 | the run in which a confirmation before the check ends makes a stable agent whose installation still runs |
| NodeRuns.InClusterOnlyRescales | antsd/internal/cluster/manager.go:363-378 | a machine in the cluster takes no part in first-boot workflows |
| LifecycleRuns.RunsFollowTheDiagram | antsd/internal/cluster/manager.go:212-235 | over any run the published tags follow the state diagram |
| LifecycleRuns.LifecycleOverRuns | antsd/internal/cluster/manager.go:193-235 | the cluster side is absorbing, failed states are terminal, and a joiner enters the cluster as an agent or not at all |
| LifecycleRuns.StableMachinesHaveARecord | antsd/internal/cluster/rescale.go:411-424 | stable and coordinating machines hold a record of their role, so the refusal for a missing record is unreachable |
| LifecycleRuns.RoundsLastUntilTheirResult | antsd/internal/cluster/rescale.go:248-309 | nothing but its result changes a round in progress, over any run |
| LifecycleRuns.RoundsEndAsTheyBegan | antsd/internal/cluster/rescale.go:364-397 | the completion handler finishes the kind of round whose operation ran |
| LifecycleRuns.ConversionsAlternate | antsd/internal/cluster/rescale.go:400-478 | completed conversions alternate between the roles, and the record holds the last of them |
| LifecycleRuns.OrdersLastUntilTheirResult | antsd/internal/cluster/rescale.go:400-478 | an accepted order of any role stays the stored one, with its operation alone outstanding, until its result, whose success makes the machine stable in the ordered role |
| LifecycleRuns.RedeliveryChangesNothing | antsd/internal/cluster/rescale.go:400-437 | an accepted order delivered again at any later point, with no opposite order in between, changes nothing |
| LifecycleRuns.UnknownRolesNeverComplete | antsd/internal/cluster/rescale.go:400-478 | an accepted order with an unknown role can only fail |
| Clocks.ClockShowsTheRun | antsd/internal/cluster/rescale.go:134-143 | a clock kept this way shows the start of the last unbroken run |
| Clocks.ClockMeasuresTheRun | antsd/internal/cluster/rescale.go:199-215 | a delay is over exactly when some unbroken run has lasted it |
| Clocks.FailureClockIsTheLastOutage | antsd/internal/cluster/rescale.go:117-132 | after any run the failure map has exactly the last seen failed names, each at the start of its current outage |
| Clocks.EvictableAfterOneOutage | antsd/internal/cluster/view.go:208-231 | evictable if and only if the current outage alone has lasted the grace period |
| Deadlines.ImbalanceClockIsMarked | antsd/internal/cluster/rescale.go:199-215 | over any run the imbalance clock is the one described by its evaluations, lost turns and abandoned rounds |
| Deadlines.ConversionsAreDebounced | antsd/internal/cluster/rescale.go:180-215 | a conversion starts only after an unbroken run of imbalanced evaluations at least as long as the settle delay, with no loss of the turn, no abandoned round and no conversion started by this machine inside; its own change of role does not break the run |
| Promotions.PromotedServersSkipTheDelay | antsd/internal/cluster/rescale.go:400-478 | a server demoted and promoted again starts a conversion before the settle delay since its promotion if and only if it finds an imbalance to act on, its clock ran long enough from before the demotion, and nothing cleared it since the promotion |
| Promotions.PromotionSkipsTheDelay | antsd/internal/cluster/rescale.go:199-215 | a run from a boot in which a server starts a conversion at the instant of its promotion |
| Deadlines.TimerIsTheEarliestDeadline | antsd/internal/cluster/rescale.go:154-195 | an unblocked coordinator that starts nothing arms a timer exactly when something is pending, at the minimum of the pending deadlines and in the future |
| Deadlines.DueEvictionsStart | antsd/internal/cluster/rescale.go:174-178 | with the view unchanged, the first evaluation at or after a deadline starts the eviction |
| Deadlines.AbandonedRoundsWait | antsd/internal/cluster/rescale.go:365-397 | after a round is abandoned, because its operation failed or its order could not be broadcast, no eviction or conversion is under way before the retry instant, unless the turn was lost |
| Deadlines.WakeUpAfterForgetting | antsd/internal/cluster/forget.go:215-224 | after a cleaning round, work is left without a timer if and only if the round ends before an earlier retry instant |
| Deadlines.ForgettingLosesTheRetry | antsd/internal/cluster/forget.go:185-224 | a run in which that happens |
| Wakeups.RetriesAreArmed | antsd/internal/cluster/rescale.go:493-511 | over any run at non-decreasing instants, a stable server held back after an abandoned round has the retry armed if and only if no cleaning round has ended since |
| Installation.K3s.RunInstallScript | antsd/internal/k3s/exec.go:262-284 | the new units and the reported code, which need not agree |
| Installation.K3s.RunUninstallScript | antsd/internal/k3s/exec.go:144-163 | a failure is only reported when the daemon is being stopped |
| Installation.K3s.EnsureInstalled | antsd/internal/cluster/firstboot.go:26-75 | the whole sequence, and its success exactly: a bare machine, staged assets, a unit that was written, an answer, and a script that reported success or a unit that can be read |
| Installation.K3s.ConvertInstallation | antsd/internal/k3s/exec.go:114-138 | uninstall, check, install, stopping at the first step that did not do its work |
| Installation.K3s.ConvertAndWait | antsd/internal/cluster/rescale.go:441-467 | the conversion and the check of the role it left |
| Installation.OperationsAreSafe | antsd/internal/cluster/firstboot.go:26-75 | whatever the scripts do and wherever they stop, install scripts only run on a bare machine, units never coexist, and success means the wanted unit |
| Installation.InstallationSucceeds | antsd/internal/cluster/firstboot.go:40-75 | a first installation succeeds if and only if the machine could be seen to be bare, the assets were staged, the script wrote its unit, K3s answers, and the script reported success or the unit can be read; and the units it leaves |
| Installation.ScriptsKeepToTheirUnit | antsd/internal/k3s/exec.go:144-163 | a script touches the unit of its own role only |
| Installation.CheckSucceeds | antsd/internal/cluster/firstboot.go:26-38 | the check before joining succeeds if and only if the machine could be seen to have no unit |
| Installation.ConversionSucceeds | antsd/internal/cluster/rescale.go:441-467 | a conversion succeeds if and only if the wanted role can be read and answers, and was there or was installed after the other was removed and seen to be gone; and the units it leaves wherever it stops |
| Machines.StateFile.Save | antsd/internal/node/persist.go:27-63 | every stop and every crash leaves the old content or the new one |
| Machines.MoveIsSafe | antsd/internal/cluster/manager.go:193-235 | one move of a machine's life (a turn, a result, a crash in the middle of an operation), its save stopped anywhere, keeps units, state and record in agreement and the file valid, absent throughout a first boot |
| Machines.DiskIsSafeForLife | antsd/internal/cluster/firstboot.go:26-75 | the same over any life from a clean disk, with every script ever run being safe to run |
| Machines.NeverAgainAFirstBoot | antsd/internal/cluster/manager.go:193-208 | once a state file exists, no later boot is a first boot |
| Machines.RebootEndsWhereTheRecordSays | antsd/internal/cluster/rejoin.go:29-91 | a reboot ends stable in the recorded role exactly when the recorded unit is there and answers, in the failed rejoin otherwise |
| Machines.ScriptsAccountForTheDisk | antsd/internal/k3s/exec.go:114-163 | over any life from a clean disk, crashes included, the scripts that ran lead one after the other from no unit to the units on disk |
| Records.BecomingStableSaves | antsd/internal/cluster/manager.go:225-235 | whoever becomes stable, with a save that is not cut short, has its new record in the file |
| Records.TheFileTellsTheLife | antsd/internal/cluster/manager.go:193-235 | over any life from a clean disk with no save cut short: no file until the first installation, then the role last completed and one boot more than the rejoins; a stable machine works with this record, and a readable reboot waits for exactly this role |
| BootstrapCluster.MovesKeepRankOrder | antsd/internal/cluster/bootstrap.go:150-239 | each move of the cluster keeps installations in rank order, under views made of past tags |
| BootstrapCluster.BootstrapFollowsTheRanks | antsd/internal/cluster/bootstrap.go:150-239 | over any run: the servers are a prefix of the ranking and within the target, the installing one is next, only the first runs cluster-init, agents wait for all servers, and wherever the run has come to nobody sets out to create a cluster where it sees a machine, alive or failed, that belongs to one |
| BootstrapCluster.OneInstallationAtATime | antsd/internal/cluster/bootstrap.go:196-216 | two machines never install a server at the same time |
| BootstrapCluster.SeenServersExisted | antsd/internal/cluster/view.go:80-90 | however old the tags, a machine never counts more stable servers than there have been |
| BootstrapProgress.EveryBootstrapCanComplete | antsd/internal/cluster/bootstrap.go:124-252 | wherever a bootstrap has come to with no machine of the cohort stopped, failed or joined as an agent in a server's place, it can be continued until all servers and all agents are stable |
| RescaleTurn.MovesKeepOneTurn | antsd/internal/cluster/rescale.go:163-230 | each move keeps one of: a coordinating machine, an order on its way, a converting machine, when orders arrive once and before the next round |
| RescaleTurn.OneTurnThroughout | antsd/internal/cluster/rescale.go:163-230 | the same over any run with stops, boots and lost orders |
| RescaleTurn.OneCoordinatorThroughout | antsd/internal/cluster/rescale.go:163-170 | with orders late, repeated or from anywhere, still no two running machines coordinate |
| RescaleConvergence.ChoiceIsNext | antsd/internal/cluster/rescale.go:312-340 | in a quiet cluster off target the choice is always made, and is the next step of the path |
| RescaleConvergence.MovesGoOn | antsd/internal/cluster/rescale.go:154-478 | each move keeps the cluster on its path, orders arriving late, repeated or not at all; a conversion is one step, an eviction round removes exactly the gone machines, and only an abandoned round or a lost order goes back |
| RescaleConvergence.EvictionGoesOn | antsd/internal/cluster/rescale.go:248-286 | one round evicts all the gone machines and nobody else |
| RescaleConvergence.ConversionGoesOn | antsd/internal/cluster/rescale.go:400-478 | a completed conversion brings the count one closer to the target |
| RescaleConvergence.TwoEvaluationsSuffice | antsd/internal/cluster/rescale.go:154-215 | at rest and not done, two evaluations of the coordinator a settle delay apart make progress |
| RescaleConvergence.ArrivalGoesOn | antsd/internal/cluster/rescale.go:400-437 | an order that arrives is the one next step, or was carried out already and changes nothing |
| RescaleConvergence.StepSpendsOrders | antsd/internal/cluster/rescale.go:410-414 | a completed conversion makes every order still on its way one its target refuses for good |
| RescaleConvergence.NextIsTaken | antsd/internal/cluster/rescale.go:400-437 | the machine the next order designates takes it, or is converting already; it is never the coordinator |
| RescaleConvergence.HoldersArePending | antsd/internal/cluster/rescale.go:218-230 | whoever coordinates or converts has an operation whose result can arrive, and nobody else does |
| RescaleConvergence.NothingLeft | antsd/internal/cluster/rescale.go:154-397 | the measure is never negative, and zero exactly at the target |
| RescaleConvergence.RescalingConverges | antsd/internal/cluster/rescale.go:154-478 | over any run with successful conversions, any number of abandoned rounds, and orders that are late, lost or repeated: bounded effective work, the path, never no server, all machines kept; at the target one eviction round if anyone was gone and exactly the difference in conversions; at rest every machine stable in its role |
| RescaleConvergence.PathIsUnique | antsd/internal/cluster/rescale.go:312-340 | one set of servers of each size is on the path: the original ones plus the lowest-named agents, or minus the highest-named |
| RescaleConvergence.AllCoursesMeet | antsd/internal/cluster/rescale.go:154-478 | all runs that come to the target have the same servers there, whatever happened to their orders |
| RescaleProgress.BeginningBegins | antsd/internal/cluster/rescale.go:154-195 | any servers, agents and long-failed machines are a cluster these statements are about |
| RescaleProgress.EveryRunCanArrive | antsd/internal/cluster/rescale.go:154-478 | wherever a run has come to, setbacks and repeated orders included, there are further moves that bring it to the end |
| ForgetMe.TurnConcludes | antsd/internal/cluster/forget.go:117-239 | a turn concludes a name is free only from a negative lookup, a finished cleaning round or a confirmation |
| ForgetMe.MovesAreOrderly | antsd/internal/cluster/forget.go:117-239 | every move of any number of joiners and coordinators keeps each machine sound, waiting joiners without K3s on their disk, and lookups with machines that have coordinated |
| ForgetMe.MovesKeepEvidence | antsd/internal/cluster/forget.go:117-239 | every move keeps what is concluded about a first-boot machine without K3s true, a birth with something stale left behind aside |
| ForgetMe.BirthsAreClean | antsd/internal/cluster/forget.go:3-30 | after a reset or a new first boot, what is concluded about the machine is true if and only if nothing stale was left behind |
| ForgetMe.NobodyJoinsAsAGhost | antsd/internal/cluster/forget.go:117-133 | over any run in which this machine's births left nothing stale, it never enters the joining installation while K3s knows its name |
| ForgetMeResets.BirthsAreHarmfulExactlyWhenStale | antsd/internal/cluster/forget.go:3-30 | in every world a run can come to, a first boot on a disk without K3s, after a reset or a lost state file, lets some continuation install this machine while K3s knows its name if and only if K3s knows it and a confirmation, an answer that can still be acted on, or a deletion carried out in an unfinished round is left |
| ForgetMeProgress.EveryWaitingJoinerCanJoin | antsd/internal/cluster/forget.go:84-239 | wherever a run has come to, a machine waiting for its confirmation can still be confirmed and start its installation, unknown to K3s if its births were clean, as long as some other machine can be a stable server again |
| ForgetMeProgress.EveryNewbornCanJoin | antsd/internal/cluster/joining.go:58-121 | so can a machine just born on a disk without K3s, from its first boot on |
| ForgetMeRuns.AMachineCanJoin | antsd/internal/cluster/forget.go:69-239 | a run from a start to a joined machine whose ghost was erased |
| ForgetMeRuns.EveryKindComesUp | antsd/internal/cluster/forget.go:117-239 | for each of the three kinds, a run from a start to a world where only that kind is left, and a reset lets a ghost in |
| ForgetMeRuns.AMachineCanJoinTwice | antsd/internal/cluster/forget.go:3-30 | a run in which a machine joins, is reset while its coordinators go on, has its ghost erased and installs again, with clean births throughout |

## Left out

- Serf, memberlist and mDNS: a membership seen by a turn is any well-named list; each cluster module says which lists are possible in it. A failed tag update is not modelled, so a machine's tag is its state once it is seen.
- kubectl, the content of the scripts, air-gap assets and readiness polling: an operation succeeds or fails, and only its effect on the unit files is kept.
- The HTTP admin server, logging, the command line and the derivation of names: they decide nothing here.
- JSON: an unreadable payload is a `None`, an unreadable or invalid state file an `Unusable`.
- Goroutines and channels: a turn is atomic, as in the single run loop; results and timer expiries are events that may come in any order, and timers may fire at any time.
- The missing-record branches of `onRejoinReady` and `onRescaleConverted` would dereference nil in the source; the model leaves the machine as it is, and the proofs show these branches unreachable.
- etcd itself: losing the quorum is only an operation that fails, and nothing is claimed after a partition heals.
- A deletion that one coordinator started may still be carried out after another one confirmed the same name; what it then erases is not covered.
- StateFile.Save: does not model what a power loss does to data not yet flushed to the disk, because the source does not flush it; a rename is taken as atomic.
- BootstrapFollowsTheRanks: assumes that all starts are handled on the same list of alive machines, that rescaling is off, and that machines stop for good; a waiting machine recomputes its rank on every repeated start, and different lists do give different ranks.
- OneTurnThroughout: assumes the exact shared view and that an order arrives once, or is lost, before the next round starts; without the second assumption only OneCoordinatorThroughout holds of arbitrary clusters.
- EveryBootstrapCanComplete: says that the bootstrap can be completed, in views that are possible, not that every schedule of messages completes it; so do EveryRunCanArrive and EveryWaitingJoinerCanJoin.
- BirthsAreHarmfulExactlyWhenStale: the harmful continuation may use any views and any orders, as every run of that model may.
- RescalingConverges: is about runs in which conversions succeed, nobody joins or stops, the erasure of evicted machines from Serf succeeds, and every machine sees the current tags. A failed conversion stops its machine for good, and the source does not retry it.
- NobodyJoinsAsAGhost: assumes that no confirmation overtakes the local check, the condition TokenIsLostExactlyEarly shows to be exact.
- DiskIsSafeForLife: assumes the same of the machine's own life.
- TheFileTellsTheLife: is about lives in which saves are not cut short; for the others DiskIsSafeForLife and RebootEndsWhereTheRecordSays hold.
- OperationsAreSafe: takes from the environment that a readiness probe only answers where the unit of the role exists; after an install script that lies, this is what makes a stable machine hold its unit.
- Handle: its preconditions on a valid object are those of the turns it is proved for; a result that arrives with no operation outstanding is ignored.

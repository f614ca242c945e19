/** The K3s installation of one machine: its two systemd units, and the scripts that write and remove them. */
module Installation {
  import opened Names
  import opened Lifecycle
  import opened NodeStep

  /** Which unit files exist. */
  datatype Units = Units(server: bool, agent: bool)

  const NO_UNITS := Units(false, false)

  predicate BothUnits(u: Units) { u.server && u.agent }

  function Only(role: Role): (u: Units) {
    if role == Server then Units(true, false) else Units(false, true)
  }

  predicate Has(u: Units, role: Role) {
    if role == Server then u.server else u.agent
  }

  /** What the unit files say about the installation; CannotTell is a failed stat. */
  datatype Installed = NotInstalled | Ambiguous | CannotTell | Runs(role: Role)

  function InstalledRole(u: Units, statOk: bool): (found: Installed) {
    if !statOk then CannotTell
    else if u.server && u.agent then Ambiguous
    else if u.server then Runs(Server)
    else if u.agent then Runs(Agent)
    else NotInstalled
  }

  /**
   * How a script ends: whether it did write (or remove) its unit, and the exit code it reports.
   * The two are independent: the scripts are not trusted.
   */
  datatype Script = Script(effective: bool, exitOk: bool)

  /** Everything an operation meets on its way. */
  datatype Chances = Chances(
    statOk: bool, staged: bool, uninstall: Script, cancelled: bool, statOkAfterUninstall: bool,
    install: Script, statOkAfterInstall: bool, ready: bool)

  datatype Act = Installs(role: Role) | Uninstalls(role: Role)

  /** One script that ran, with the units before and after. */
  datatype Change = Change(before: Units, act: Act, after: Units)

  datatype Outcome = Outcome(ok: bool, units: Units, changes: seq<Change>)

  function WithUnit(u: Units, role: Role): (r: Units) {
    if role == Server then u.(server := true) else u.(agent := true)
  }

  function WithoutUnit(u: Units, role: Role): (r: Units) {
    if role == Agent then u.(agent := false) else u.(server := false)
  }

  // --- The steps, on values ---

  /** The install script of a role, once the air-gap assets are in place. */
  function RunInstall(u: Units, role: Role, staged: bool, script: Script): (run: Outcome) {
    if !staged then Outcome(false, u, [])
    else
      var after := if script.effective then WithUnit(u, role) else u;
      Outcome(script.exitOk, after, [Change(u, Installs(role), after)])
  }

  /** A failed uninstall is only reported when the daemon is being stopped. */
  function RunUninstall(u: Units, role: Role, script: Script, cancelled: bool): (run: Outcome) {
    var after := if script.effective then WithoutUnit(u, role) else u;
    Outcome(script.exitOk || !cancelled, after, [Change(u, Uninstalls(role), after)])
  }

  /** A readiness probe answers only for an installation that is there. */
  predicate IsReady(u: Units, role: Role, probe: bool) { probe && Has(u, role) }

  function InstallThenWaitReady(u: Units, role: Role, c: Chances): (run: Outcome) {
    if InstalledRole(u, c.statOk) != NotInstalled then Outcome(false, u, [])
    else
      var run := RunInstall(u, role, c.staged, c.install);
      if !run.ok && !InstalledRole(run.units, c.statOkAfterInstall).Runs? then run
      else run.(ok := IsReady(run.units, role, c.ready))
  }

  function Convert(u: Units, to: Role, c: Chances): (run: Outcome) {
    match InstalledRole(u, c.statOk)
    case Runs(from) =>
      if from == to then Outcome(true, u, [])
      else
        var removal := RunUninstall(u, from, c.uninstall, c.cancelled);
        if !removal.ok
          || InstalledRole(removal.units, c.statOkAfterUninstall) != NotInstalled then removal.(ok := false)
        else
          var run := RunInstall(removal.units, if to == Server then Server else Agent, c.staged, c.install);
          run.(changes := removal.changes + run.changes)
    case _ => Outcome(false, u, [])
  }

  function ConvertThenWaitReady(u: Units, to: Role, c: Chances): (run: Outcome) {
    var done := Convert(u, to, c);
    if !done.ok || InstalledRole(done.units, c.statOkAfterInstall) != Runs(to) then done.(ok := false)
    else done.(ok := IsReady(done.units, to, c.ready))
  }

  /** What an operation does to this machine, and the result it reports to the run loop. */
  function Play(op: Operation, u: Units, c: Chances): (run: Outcome) {
    match op
    case InstallServerInit => InstallThenWaitReady(u, Server, c)
    case InstallServerJoin(_) => InstallThenWaitReady(u, Server, c)
    case InstallAgent(_) => InstallThenWaitReady(u, Agent, c)
    case CheckNotInstalled => Outcome(InstalledRole(u, c.statOk) == NotInstalled, u, [])
    case WaitRejoin(role) => Outcome(InstalledRole(u, c.statOk) == Runs(role) && IsReady(u, role, c.ready), u, [])
    case ConvertTo(order) => ConvertThenWaitReady(u, order.role, c)
    case _ => Outcome(c.ready, u, [])
  }

  // --- The steps, on the machine ---

  class K3s {
    var units: Units
    var changes: seq<Change>

    method RunInstallScript(role: Role, staged: bool, script: Script) returns (ok: bool)
      modifies this
      ensures var run := RunInstall(old(units), role, staged, script);
              ok == run.ok && units == run.units && changes == old(changes) + run.changes
    {
      if !staged {
        return false;
      }
      var before := units;
      if script.effective {
        units := WithUnit(units, role);
      }
      changes := changes + [Change(before, Installs(role), units)];
      return script.exitOk;
    }

    method RunUninstallScript(role: Role, script: Script, cancelled: bool) returns (ok: bool)
      modifies this
      ensures var run := RunUninstall(old(units), role, script, cancelled);
              ok == run.ok && units == run.units && changes == old(changes) + run.changes
    {
      var before := units;
      if script.effective {
        units := WithoutUnit(units, role);
      }
      changes := changes + [Change(before, Uninstalls(role), units)];
      if !script.exitOk {
        return !cancelled;
      }
      return true;
    }

    method EnsureInstalled(role: Role, c: Chances) returns (ok: bool)
      modifies this
      ensures var run := InstallThenWaitReady(old(units), role, c);
              ok == run.ok && units == run.units && changes == old(changes) + run.changes
      ensures role == Server || role == Agent ==>
                (ok <==> c.statOk && old(units) == NO_UNITS && c.staged && c.install.effective && c.ready
                         && (c.install.exitOk || c.statOkAfterInstall))
    {
      if InstalledRole(units, c.statOk) != NotInstalled {
        return false;
      }
      var scriptOk := RunInstallScript(role, c.staged, c.install);
      if !scriptOk && !InstalledRole(units, c.statOkAfterInstall).Runs? {
        return false;
      }
      return IsReady(units, role, c.ready);
    }

    method ConvertInstallation(to: Role, c: Chances) returns (ok: bool)
      modifies this
      ensures var run := Convert(old(units), to, c);
              ok == run.ok && units == run.units && changes == old(changes) + run.changes
    {
      var from := InstalledRole(units, c.statOk);
      if !from.Runs? {
        return false;
      }
      if from.role == to {
        return true;
      }
      var removed := RunUninstallScript(from.role, c.uninstall, c.cancelled);
      if !removed {
        return false;
      }
      if InstalledRole(units, c.statOkAfterUninstall) != NotInstalled {
        return false;
      }
      ok := RunInstallScript(if to == Server then Server else Agent, c.staged, c.install);
    }

    method ConvertAndWait(to: Role, c: Chances) returns (ok: bool)
      modifies this
      ensures var run := ConvertThenWaitReady(old(units), to, c);
              ok == run.ok && units == run.units && changes == old(changes) + run.changes
    {
      ok := ConvertInstallation(to, c);
      if !ok || InstalledRole(units, c.statOkAfterInstall) != Runs(to) {
        return false;
      }
      return IsReady(units, to, c.ready);
    }
  }

  // --- What every operation guarantees, whatever the scripts do ---

  /** An install script only ever ran on a machine with no unit at all, and never left two. */
  predicate SafeChange(c: Change) {
    && (c.act.Installs? ==> c.before == NO_UNITS)
    && !BothUnits(c.after)
  }

  predicate Chained(u: Units, changes: seq<Change>, end: Units)
    decreases |changes|
  {
    if changes == [] then u == end
    else changes[0].before == u && Chained(changes[0].after, changes[1..], end)
  }

  lemma {:induction false} InstallIsSafe(u: Units, role: Role, c: Chances)
    requires !BothUnits(u)
    ensures var run := InstallThenWaitReady(u, role, c);
            && !BothUnits(run.units) && Chained(u, run.changes, run.units)
            && (forall i :: 0 <= i < |run.changes| ==> SafeChange(run.changes[i]))
            && (run.ok ==> run.units == if role == Server then Only(Server) else Only(Agent))
            && (u != NO_UNITS ==> !run.ok && run.units == u && run.changes == [])
  {}

  lemma {:induction false} ConvertIsSafe(u: Units, to: Role, c: Chances)
    requires !BothUnits(u)
    ensures var run := ConvertThenWaitReady(u, to, c);
            && !BothUnits(run.units) && Chained(u, run.changes, run.units)
            && (forall i :: 0 <= i < |run.changes| ==> SafeChange(run.changes[i]))
            && (run.ok ==> (to == Server || to == Agent) && run.units == Only(to))
  {
    var done := Convert(u, to, c);
    if |done.changes| == 2 {
      assert done.changes[1..] == [done.changes[1]] && done.changes[1..][1..] == [];
    }
  }

  /**
   * Whatever the scripts do, and wherever the operation is cut short: install scripts only run on a
   * bare machine, the two units never coexist, and success means the unit of the wanted role.
   */
  lemma {:induction false} OperationsAreSafe(op: Operation, u: Units, c: Chances)
    requires !BothUnits(u)
    ensures var run := Play(op, u, c);
            && !BothUnits(run.units) && Chained(u, run.changes, run.units)
            && (forall i :: 0 <= i < |run.changes| ==> SafeChange(run.changes[i]))
            && (run.ok && (op.InstallServerInit? || op.InstallServerJoin?) ==> run.units == Only(Server))
            && (run.ok && op.InstallAgent? ==> run.units == Only(Agent))
            && (run.ok && op.CheckNotInstalled? ==> u == NO_UNITS)
            && (run.ok && op.WaitRejoin? ==> (op.role == Server || op.role == Agent) && u == Only(op.role))
            && (run.ok && op.ConvertTo? ==>
                 (op.order.role == Server || op.order.role == Agent) && run.units == Only(op.order.role))
  {
    match op {
      case InstallServerInit => InstallIsSafe(u, Server, c);
      case InstallServerJoin(_) => InstallIsSafe(u, Server, c);
      case InstallAgent(_) => InstallIsSafe(u, Agent, c);
      case ConvertTo(order) => ConvertIsSafe(u, order.role, c);
      case _ =>
    }
  }

  // --- When every operation must succeed, and what it leaves ---

  /** A script touches the unit of its own role only, and what it reports is its own. */
  lemma {:induction false} ScriptsKeepToTheirUnit(u: Units, role: Role, staged: bool, script: Script, cancelled: bool)
    requires role == Server || role == Agent
    ensures var run := RunInstall(u, role, staged, script); var wrote := staged && script.effective;
            && run.units == Units(u.server || (wrote && role == Server), u.agent || (wrote && role == Agent))
            && (run.ok <==> staged && script.exitOk)
    ensures var run := RunUninstall(u, role, script, cancelled); var gone := script.effective;
            && run.units == Units(u.server && !(gone && role == Server), u.agent && !(gone && role == Agent))
            && (run.ok <==> script.exitOk || !cancelled)
  {}

  /**
   * A first installation succeeds exactly on a machine whose unit files could be read and were not there,
   * once its assets are staged, if the script did write the unit and K3s answers. What the script reports is
   * only believed when the units cannot be read after it. The unit it wrote stays, whatever comes after.
   */
  lemma {:induction false} InstallationSucceeds(op: Operation, u: Units, c: Chances)
    requires op.InstallServerInit? || op.InstallServerJoin? || op.InstallAgent?
    ensures var run := Play(op, u, c); var bare := c.statOk && u == Units(false, false);
            && (run.ok <==> bare && c.staged && c.install.effective && c.ready
                            && (c.install.exitOk || c.statOkAfterInstall))
            && run.units == (if !(bare && c.staged && c.install.effective) then u
                             else if op.InstallAgent? then Units(false, true) else Units(true, false))
            && |run.changes| == if bare && c.staged then 1 else 0
  {}

  /** The check before joining succeeds exactly on a machine seen to have no unit. */
  lemma {:induction false} CheckSucceeds(u: Units, c: Chances)
    ensures Play(CheckNotInstalled, u, c) == Outcome(c.statOk && u == Units(false, false), u, [])
  {}

  /**
   * A conversion succeeds exactly where K3s answers in the wanted role, which can be read, and either it was
   * there before, or the other one was removed, seen to be gone, and the wanted one installed with success.
   * A failed removal only counts while the daemon is being stopped. Where it stops shows in what it leaves.
   */
  lemma {:induction false} ConversionSucceeds(order: Order, u: Units, c: Chances)
    ensures var run := Play(ConvertTo(order), u, c); var to := order.role;
            var wanted := if to == Server then Units(true, false) else Units(false, true);
            var other := if to == Server then Units(false, true) else Units(true, false);
            var known := to == Server || to == Agent;
            var removed := c.uninstall.effective && (c.uninstall.exitOk || !c.cancelled) && c.statOkAfterUninstall;
            var left := if !(c.statOk && u == other && c.uninstall.effective) then u
                        else if removed && c.staged && c.install.effective then wanted
                        else Units(false, false);
            && (run.ok <==> known && c.statOk && c.statOkAfterInstall && c.ready
                            && (u == wanted || (u == other && removed && c.staged && c.install == Script(true, true))))
            && (known ==> run.units == left)
  {}

  /** The operations of a coordinator and of a rejoin change nothing on this machine. */
  lemma {:induction false} OthersLeaveTheMachine(op: Operation, u: Units, c: Chances)
    requires op.WaitRejoin? || op.DeleteEvicted? || op.PrepareConversion? || op.EraseLeftover?
    ensures Play(op, u, c).units == u && Play(op, u, c).changes == []
    ensures !op.WaitRejoin? ==> (Play(op, u, c).ok <==> c.ready)
  {}

  /** A first boot refuses a machine that has a unit, and touches nothing. */
  lemma {:induction false} FirstBootRefusesLeftovers(op: Operation, u: Units, c: Chances)
    requires u != NO_UNITS
    requires op.InstallServerInit? || op.InstallServerJoin? || op.InstallAgent? || op.CheckNotInstalled?
    ensures Play(op, u, c) == Outcome(false, u, [])
  {}

  /** A rejoin succeeds exactly on the installation the record describes, once it answers. */
  lemma {:induction false} RejoinChecksTheRecord(role: Role, u: Units, c: Chances)
    requires role == Server || role == Agent
    ensures Play(WaitRejoin(role), u, c).ok <==> c.statOk && u == Only(role) && c.ready
    ensures Play(WaitRejoin(role), u, c).units == u
  {}

  /** A machine with both units left by someone else is never converted, reinstalled or rejoined. */
  lemma {:induction false} AmbiguityIsRefused(op: Operation, u: Units, c: Chances)
    requires BothUnits(u)
    requires !op.DeleteEvicted? && !op.PrepareConversion? && !op.EraseLeftover?
    ensures Play(op, u, c) == Outcome(false, u, [])
  {}
}

/**
 * Installing a batch of packages with the host's manager. An installer
 * refreshes the package index (apt, pacman, zypper) before its first install
 * only, and a failed apt install is retried once allowing downgrades. Whether
 * a command succeeds is the oracle `runs`.
 */
module Installer {
  /** The commands an installer issues. */
  datatype Command =
    | Refresh(pm: string)
    | Install(pm: string, packages: seq<string>)
    | AptInstallAllowDowngrades(packages: seq<string>)

  /** How a batch install ended: done, a command failed (an exception), or the manager is unsupported (the run exits). */
  datatype InstallOutcome = Installed | CommandFailed(command: Command) | Unsupported(message: string)

  /** Commands issued, refresh flag afterwards, and outcome. */
  datatype Attempt = Attempt(commands: seq<Command>, updated: bool, outcome: InstallOutcome)

  /** A refresh, then the install, for the managers that refresh (the refresh only when not yet done). */
  function RefreshThenInstall(pm: string, updated: bool, install: Command, runs: Command -> bool): Attempt {
    if !updated && !runs(Refresh(pm)) then Attempt([Refresh(pm)], false, CommandFailed(Refresh(pm)))
    else
      var refresh := if updated then [] else [Refresh(pm)];
      Attempt(refresh + [install], true, if runs(install) then Installed else CommandFailed(install))
  }

  /** What `install_packages` does from a given refresh state. */
  function InstallAttempt(pm: string, updated: bool, pkgs: seq<string>, runs: Command -> bool): Attempt {
    if pm == "apt" then
      var first := RefreshThenInstall("apt", updated, Install("apt", pkgs), runs);
      if first.outcome == CommandFailed(Install("apt", pkgs)) then
        var retry := AptInstallAllowDowngrades(pkgs);
        Attempt(first.commands + [retry], true, if runs(retry) then Installed else CommandFailed(retry))
      else first
    else if pm == "dnf" || pm == "yum" then
      var cmd := Install("dnf", pkgs);
      Attempt([cmd], updated, if runs(cmd) then Installed else CommandFailed(cmd))
    else if pm == "pacman" || pm == "zypper" then
      RefreshThenInstall(pm, updated, Install(pm, pkgs), runs)
    else Attempt([], updated, Unsupported("Unsupported package manager: " + pm))
  }

  /** The number of successful refreshes among `cmds`. */
  function SuccessfulRefreshes(cmds: seq<Command>, runs: Command -> bool): nat
    decreases |cmds|
  {
    if cmds == [] then 0
    else
      var last := if cmds[|cmds| - 1].Refresh? && runs(cmds[|cmds| - 1]) then 1 else 0;
      SuccessfulRefreshes(cmds[..|cmds| - 1], runs) + last
  }

  lemma {:induction false} SuccessfulRefreshesAppend(a: seq<Command>, b: seq<Command>, runs: Command -> bool)
    ensures SuccessfulRefreshes(a + b, runs) == SuccessfulRefreshes(a, runs) + SuccessfulRefreshes(b, runs)
    decreases |b|
  {
    if b == [] {
      assert a + b == a;
    } else {
      assert (a + b)[..|a + b| - 1] == a + b[..|b| - 1];
      assert (a + b)[|a + b| - 1] == b[|b| - 1];
      SuccessfulRefreshesAppend(a, b[..|b| - 1], runs);
    }
  }

  lemma OneCommand(c: Command, runs: Command -> bool)
    ensures SuccessfulRefreshes([c], runs) == (if c.Refresh? && runs(c) then 1 else 0)
  {
    assert [c][..0] == [];
  }

  /** A refresh-then-install refreshes successfully once when the flag was clear and it got past the refresh. */
  lemma RefreshThenInstallCount(pm: string, updated: bool, install: Command, runs: Command -> bool)
    requires !install.Refresh?
    ensures var a := RefreshThenInstall(pm, updated, install, runs);
      SuccessfulRefreshes(a.commands, runs) == (if a.updated && !updated then 1 else 0)
      && (updated ==> a.updated)
  {
    var a := RefreshThenInstall(pm, updated, install, runs);
    OneCommand(Refresh(pm), runs);
    OneCommand(install, runs);
    if !updated && runs(Refresh(pm)) {
      SuccessfulRefreshesAppend([Refresh(pm)], [install], runs);
    } else if updated {
      assert a.commands == [install];
    }
  }

  /**
   * An attempt refreshes successfully at most once, and only when no refresh
   * had been done; afterwards the flag says whether one has been done.
   */
  lemma RefreshAtMostOnce(pm: string, updated: bool, pkgs: seq<string>, runs: Command -> bool)
    ensures var a := InstallAttempt(pm, updated, pkgs, runs);
      SuccessfulRefreshes(a.commands, runs) == (if a.updated && !updated then 1 else 0)
      && (updated ==> a.updated)
  {
    if pm == "apt" {
      var first := RefreshThenInstall("apt", updated, Install("apt", pkgs), runs);
      RefreshThenInstallCount("apt", updated, Install("apt", pkgs), runs);
      if first.outcome == CommandFailed(Install("apt", pkgs)) {
        SuccessfulRefreshesAppend(first.commands, [AptInstallAllowDowngrades(pkgs)], runs);
        OneCommand(AptInstallAllowDowngrades(pkgs), runs);
      }
    } else if pm == "dnf" || pm == "yum" {
      OneCommand(Install("dnf", pkgs), runs);
    } else if pm == "pacman" || pm == "zypper" {
      RefreshThenInstallCount(pm, updated, Install(pm, pkgs), runs);
    }
  }

  /** Once the index is refreshed, installs issue no refresh at all. */
  lemma NoRefreshOnceUpdated(pm: string, pkgs: seq<string>, runs: Command -> bool)
    ensures forall c :: c in InstallAttempt(pm, true, pkgs, runs).commands ==> !c.Refresh?
  {
  }

  /** A failed apt install is retried exactly once, with downgrades allowed, and nothing else is run after it. */
  lemma AptRetriesOnce(pkgs: seq<string>, runs: Command -> bool, updated: bool)
    requires updated || runs(Refresh("apt"))
    requires !runs(Install("apt", pkgs))
    ensures var a := InstallAttempt("apt", updated, pkgs, runs);
      a.commands == (if updated then [] else [Refresh("apt")]) + [Install("apt", pkgs), AptInstallAllowDowngrades(pkgs)]
      && (a.outcome == Installed <==> runs(AptInstallAllowDowngrades(pkgs)))
  {
  }

  /** A successful first apt install is not retried. */
  lemma AptNoRetryOnSuccess(pkgs: seq<string>, runs: Command -> bool, updated: bool)
    requires updated || runs(Refresh("apt"))
    requires runs(Install("apt", pkgs))
    ensures InstallAttempt("apt", updated, pkgs, runs).outcome == Installed
    ensures AptInstallAllowDowngrades(pkgs) !in InstallAttempt("apt", updated, pkgs, runs).commands
  {
  }

  /** yum installs exactly as dnf does. */
  lemma YumIsDnf(updated: bool, pkgs: seq<string>, runs: Command -> bool)
    ensures InstallAttempt("yum", updated, pkgs, runs) == InstallAttempt("dnf", updated, pkgs, runs)
  {
  }

  /** An unknown manager runs nothing and ends the run; a known one always issues a command. */
  lemma UnsupportedRunsNothing(pm: string, updated: bool, pkgs: seq<string>, runs: Command -> bool)
    ensures InstallAttempt(pm, updated, pkgs, runs).outcome.Unsupported? <==> pm !in ["apt", "dnf", "yum", "pacman", "zypper"]
    ensures InstallAttempt(pm, updated, pkgs, runs).commands == [] <==> pm !in ["apt", "dnf", "yum", "pacman", "zypper"]
  {
  }

  /** An installer for one host. `log` lists the commands it has issued. */
  class PackageInstaller {
    const pm: string
    const runs: Command -> bool
    var updated: bool
    var log: seq<Command>

    /** The refresh flag is set exactly when a refresh has succeeded, and that happened at most once. */
    predicate Valid()
      reads this
    {
      SuccessfulRefreshes(log, runs) == (if updated then 1 else 0)
    }

    constructor(pm: string, runs: Command -> bool)
      ensures this.pm == pm && this.runs == runs && !updated && log == []
      ensures Valid()
    {
      this.pm := pm;
      this.runs := runs;
      updated := false;
      log := [];
    }

    /** Issue one command and report whether it succeeded. */
    method Run(c: Command) returns (ok: bool)
      modifies this
      ensures log == old(log) + [c] && updated == old(updated) && ok == runs(c)
    {
      log := log + [c];
      ok := runs(c);
    }

    /** `apt_install` and its siblings: refresh first if not yet done, then install. */
    method RefreshAndInstall(install: Command) returns (out: InstallOutcome)
      modifies this
      ensures var a := RefreshThenInstall(pm, old(updated), install, runs);
        log == old(log) + a.commands && updated == a.updated && out == a.outcome
    {
      if !updated {
        var ok := Run(Refresh(pm));
        if !ok {
          return CommandFailed(Refresh(pm));
        }
        updated := true;
      }
      var ok := Run(install);
      out := if ok then Installed else CommandFailed(install);
    }

    /** `install_packages`: install the batch with the host's manager. */
    method InstallPackages(pkgs: seq<string>) returns (out: InstallOutcome)
      requires Valid()
      modifies this
      ensures var a := InstallAttempt(pm, old(updated), pkgs, runs);
        log == old(log) + a.commands && updated == a.updated && out == a.outcome
      ensures Valid()
    {
      ghost var before := log;
      if pm == "apt" {
        out := RefreshAndInstall(Install("apt", pkgs));
        if out == CommandFailed(Install("apt", pkgs)) {
          var ok := Run(AptInstallAllowDowngrades(pkgs));
          out := if ok then Installed else CommandFailed(AptInstallAllowDowngrades(pkgs));
        }
      } else if pm == "dnf" || pm == "yum" {
        var ok := Run(Install("dnf", pkgs));
        out := if ok then Installed else CommandFailed(Install("dnf", pkgs));
      } else if pm == "pacman" || pm == "zypper" {
        out := RefreshAndInstall(Install(pm, pkgs));
      } else {
        out := Unsupported("Unsupported package manager: " + pm);
      }
      ghost var a := InstallAttempt(pm, old(updated), pkgs, runs);
      assert log == before + a.commands;
      SuccessfulRefreshesAppend(before, a.commands, runs);
      RefreshAtMostOnce(pm, old(updated), pkgs, runs);
    }
  }
}

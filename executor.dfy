/**
 * Carrying out an install plan (`execute_install_plan`): after a summary and
 * a confirmation, the plan's dependency packages are installed in one batch,
 * then each installable item in turn, natively or from source; every tool
 * that ends up installed is recorded in the state file.
 *
 * An error while installing one item is reported and the run goes on with
 * the next one; an error in the dependency batch ends the run; an exit
 * request (an unsupported package manager, a user without root rights)
 * ends it too.
 */
module Executor {
  import opened Wrappers
  import opened Strings
  import opened Model
  import opened Installer
  import SourceInstall
  import StateStore
  import opened Planner

  const RootMessage := "ERROR: This operation requires root privileges. Please run with sudo."

  /** The items that will be installed: those planned natively or from source. */
  function Installable(items: seq<InstallPlanItem>): (r: seq<InstallPlanItem>)
    ensures forall x :: x in r <==> x in items && x.how != Skip
    ensures |r| <= |items|
    decreases |items|
  {
    if items == [] then []
    else
      var last := items[|items| - 1];
      Installable(items[..|items| - 1]) + (if last.how != Skip then [last] else [])
  }

  /** The answer to the confirmation question accepts the plan. */
  predicate Confirmed(answer: string) {
    Lower(Strip(answer)) == "y"
  }

  /** What became of one item. */
  datatype ItemResult =
    | NativeDone
    | SourceDone
    | NoMapping
    | Unavailable(package: string)
    | BuildError(message: string)
    | CommandError(command: Command)
    | StateError(message: string)
    | Exited(message: string)

  /** The results that installed their tool. */
  predicate Succeeded(r: ItemResult) {
    r == NativeDone || r == SourceDone
  }

  /** What the run can change: the installer's refresh flag, the commands issued, the state file. */
  datatype World = World(updated: bool, log: seq<Command>, file: StateStore.StateFile)

  /** Record an installed tool; a state document without an "installed" table raises, which is caught. */
  function Mark(w: World, name: string, how: string, category: string, stamp: string, done: ItemResult): (World, ItemResult) {
    match StateStore.WithInstalled(StateStore.Load(w.file), name, StateStore.Record(how, category, stamp))
    case None => (w, StateError(StateStore.InstalledKeyError))
    case Some(reg) => (w.(file := StateStore.Stored(reg)), done)
  }

  /** Build a tool from source and record it as a custom tool. */
  function FromSource(w: World, t: Tool, pm: string, runs: Command -> bool, build: SourceInstall.Builder, stamp: string): (World, ItemResult) {
    match SourceInstall.InstallFromSource(t, pm, runs, build)
    case BuildFailed(message) => (w, BuildError(message))
    case CommandRaised(c) => (w, CommandError(c))
    case ExitRequested(message) => (w, Exited(message))
    case Built => Mark(w, t.name, "source", "custom", stamp, SourceDone)
  }

  /** The world after a batch install. */
  function AfterAttempt(w: World, a: Attempt): World {
    w.(updated := a.updated, log := w.log + a.commands)
  }

  /** One pass of the item loop. */
  function ItemStep(w: World, item: InstallPlanItem, pm: string, runs: Command -> bool,
                    available: string -> bool, build: SourceInstall.Builder, stamp: string): (World, ItemResult)
  {
    if item.how == Native then
      if !Truthy(item.package) then (w, NoMapping)
      else
        var pkg := item.package.value;
        if !available(pkg) then
          if HasSource(item.tool) then FromSource(w, item.tool, pm, runs, build, stamp)
          else (w, Unavailable(pkg))
        else
          var a := InstallAttempt(pm, w.updated, [pkg], runs);
          var w' := AfterAttempt(w, a);
          match a.outcome
          case Installed => Mark(w', item.tool.name, "native", "standard", stamp, NativeDone)
          case CommandFailed(c) => (w', CommandError(c))
          case Unsupported(message) => (w', Exited(message))
    else FromSource(w, item.tool, pm, runs, build, stamp)
  }

  /** The results so far end in an exit request. */
  predicate Halted(results: seq<ItemResult>) {
    results != [] && results[|results| - 1].Exited?
  }

  /** The item loop: one result per item until an exit request stops it. */
  function RunItems(items: seq<InstallPlanItem>, w: World, pm: string, runs: Command -> bool,
                    available: string -> bool, build: SourceInstall.Builder, stamp: string): (r: (World, seq<ItemResult>))
    ensures |r.1| <= |items|
    decreases |items|
  {
    if items == [] then (w, [])
    else
      var prev := RunItems(items[..|items| - 1], w, pm, runs, available, build, stamp);
      if Halted(prev.1) then prev
      else
        var step := ItemStep(prev.0, items[|items| - 1], pm, runs, available, build, stamp);
        (step.0, prev.1 + [step.1])
  }

  /** How a run ended. */
  datatype Outcome =
    | NothingInstallable
    | Declined
    | DependenciesFailed(command: Command)
    | Stopped(message: string)
    | Completed

  /** A run: how it ended, the commands issued, the state file afterwards, and the item results. */
  datatype Execution = Execution(outcome: Outcome, commands: seq<Command>, file: StateStore.StateFile, results: seq<ItemResult>)

  /** `execute_install_plan` as a value. */
  function Execute(plan: InstallPlan, pm: string, answer: string, isRoot: bool, runs: Command -> bool,
                   available: string -> bool, build: SourceInstall.Builder, stamp: string, file: StateStore.StateFile): Execution
  {
    var installable := Installable(plan.items);
    if installable == [] then Execution(NothingInstallable, [], file, [])
    else if !Confirmed(answer) then Execution(Declined, [], file, [])
    else if !isRoot then Execution(Stopped(RootMessage), [], file, [])
    else Proceed(plan.dependencyPackages, installable, pm, runs, available, build, stamp, file)
  }

  /** The world once the dependency batch is done (nothing is run for an empty batch). */
  function AfterBatch(deps: seq<string>, pm: string, runs: Command -> bool, file: StateStore.StateFile): World {
    if deps == [] then World(false, [], file)
    else
      var a := InstallAttempt(pm, false, deps, runs);
      World(a.updated, a.commands, file)
  }

  /** A confirmed run by root: the dependency batch, then the items. */
  function Proceed(deps: seq<string>, installable: seq<InstallPlanItem>, pm: string, runs: Command -> bool,
                   available: string -> bool, build: SourceInstall.Builder, stamp: string, file: StateStore.StateFile): Execution
  {
    var a := InstallAttempt(pm, false, deps, runs);
    var w1 := AfterBatch(deps, pm, runs, file);
    if deps != [] && a.outcome.CommandFailed? then
      Execution(DependenciesFailed(a.outcome.command), w1.log, file, [])
    else if deps != [] && a.outcome.Unsupported? then
      Execution(Stopped(a.outcome.message), w1.log, file, [])
    else ItemsPhase(installable, w1, pm, runs, available, build, stamp)
  }

  /** The item loop and how it ends the run. */
  function ItemsPhase(installable: seq<InstallPlanItem>, w: World, pm: string, runs: Command -> bool,
                      available: string -> bool, build: SourceInstall.Builder, stamp: string): Execution
  {
    var r := RunItems(installable, w, pm, runs, available, build, stamp);
    var outcome := if Halted(r.1) then Stopped(r.1[|r.1| - 1].message) else Completed;
    Execution(outcome, r.0.log, r.0.file, r.1)
  }

  // ---- Properties of a run ----

  /** Without anything to install, or without a "y", nothing is run and nothing is written. */
  lemma NothingHappensUnconfirmed(plan: InstallPlan, pm: string, answer: string, isRoot: bool, runs: Command -> bool,
                                  available: string -> bool, build: SourceInstall.Builder, stamp: string, file: StateStore.StateFile)
    requires Installable(plan.items) == [] || !Confirmed(answer) || !isRoot
    ensures var e := Execute(plan, pm, answer, isRoot, runs, available, build, stamp, file);
      e.commands == [] && e.file == file && e.results == [] && e.outcome != Completed
  {
  }

  /** Nothing is installable exactly when every planned item is skipped. */
  lemma {:induction false} NothingInstallableIffAllSkipped(items: seq<InstallPlanItem>)
    ensures Installable(items) == [] <==> forall x :: x in items ==> x.how == Skip
  {
    var installable := Installable(items);
    if installable != [] {
      assert installable[0] in installable;
    }
  }

  /** The dependency batch is the first thing installed, with the index not yet refreshed. */
  lemma DependenciesFirst(plan: InstallPlan, pm: string, answer: string, isRoot: bool, runs: Command -> bool,
                          available: string -> bool, build: SourceInstall.Builder, stamp: string, file: StateStore.StateFile)
    requires Installable(plan.items) != [] && Confirmed(answer) && isRoot && plan.dependencyPackages != []
    ensures var e := Execute(plan, pm, answer, isRoot, runs, available, build, stamp, file);
      var a := InstallAttempt(pm, false, plan.dependencyPackages, runs);
      && a.commands <= e.commands
      && (a.outcome.CommandFailed? ==> e.outcome == DependenciesFailed(a.outcome.command) && e.results == [] && e.file == file)
  {
    var a := InstallAttempt(pm, false, plan.dependencyPackages, runs);
    if a.outcome.Installed? {
      ExecuteReachesItems(plan, pm, answer, isRoot, runs, available, build, stamp, file);
      RunItemsExtendsLog(Installable(plan.items), AfterBatch(plan.dependencyPackages, pm, runs, file), pm, runs, available, build, stamp);
    } else {
      ExecuteBatchStops(plan, pm, answer, isRoot, runs, available, build, stamp, file);
    }
  }

  /** A failed or refused dependency batch ends the run with the batch's commands only. */
  lemma ExecuteBatchStops(plan: InstallPlan, pm: string, answer: string, isRoot: bool, runs: Command -> bool,
                          available: string -> bool, build: SourceInstall.Builder, stamp: string, file: StateStore.StateFile)
    requires Installable(plan.items) != [] && Confirmed(answer) && isRoot && plan.dependencyPackages != []
    requires !InstallAttempt(pm, false, plan.dependencyPackages, runs).outcome.Installed?
    ensures var a := InstallAttempt(pm, false, plan.dependencyPackages, runs);
      Execute(plan, pm, answer, isRoot, runs, available, build, stamp, file)
        == Execution(if a.outcome.CommandFailed? then DependenciesFailed(a.outcome.command) else Stopped(a.outcome.message),
                     a.commands, file, [])
  {
  }

  /** The loop only appends to the command log. */
  lemma {:induction false} RunItemsExtendsLog(items: seq<InstallPlanItem>, w: World, pm: string, runs: Command -> bool,
                                              available: string -> bool, build: SourceInstall.Builder, stamp: string)
    ensures w.log <= RunItems(items, w, pm, runs, available, build, stamp).0.log
    decreases |items|
  {
    if items != [] {
      var init := items[..|items| - 1];
      RunItemsExtendsLog(init, w, pm, runs, available, build, stamp);
      var prev := RunItems(init, w, pm, runs, available, build, stamp);
      if !Halted(prev.1) {
        ItemStepExtendsLog(prev.0, items[|items| - 1], pm, runs, available, build, stamp);
      }
    }
  }

  /** One item only appends to the command log. */
  lemma ItemStepExtendsLog(w: World, item: InstallPlanItem, pm: string, runs: Command -> bool,
                           available: string -> bool, build: SourceInstall.Builder, stamp: string)
    ensures w.log <= ItemStep(w, item, pm, runs, available, build, stamp).0.log
  {
    if item.how == Native && Truthy(item.package) && available(item.package.value) {
      var a := InstallAttempt(pm, w.updated, [item.package.value], runs);
      assert w.log <= AfterAttempt(w, a).log;
    }
  }

  /** A source item installs through no package manager: the log and the refresh flag are left alone. */
  lemma SourceItemRunsNoCommand(w: World, item: InstallPlanItem, pm: string, runs: Command -> bool,
                                available: string -> bool, build: SourceInstall.Builder, stamp: string)
    requires item.how == Source
    ensures var r := ItemStep(w, item, pm, runs, available, build, stamp);
      r.0.log == w.log && r.0.updated == w.updated
      && (r.1 == SourceDone <==> SourceInstall.InstallFromSource(item.tool, pm, runs, build) == SourceInstall.Built
                                 && StateStore.Load(w.file).installed.Some?)
  {
  }

  /**
   * A native item whose package the probe cannot find falls back to a source
   * build when the tool has a source specification, and is skipped otherwise;
   * neither case runs the package manager.
   */
  lemma UnavailableFallsBack(w: World, item: InstallPlanItem, pm: string, runs: Command -> bool,
                             available: string -> bool, build: SourceInstall.Builder, stamp: string)
    requires item.how == Native && Truthy(item.package) && !available(item.package.value)
    ensures var r := ItemStep(w, item, pm, runs, available, build, stamp);
      && r.0.log == w.log
      && (HasSource(item.tool) ==> r == FromSource(w, item.tool, pm, runs, build, stamp))
      && (!HasSource(item.tool) ==> r == (w, Unavailable(item.package.value)))
  {
  }

  /** A native item with no package name is reported and changes nothing. */
  lemma MissingMappingChangesNothing(w: World, item: InstallPlanItem, pm: string, runs: Command -> bool,
                                     available: string -> bool, build: SourceInstall.Builder, stamp: string)
    requires item.how == Native && !Truthy(item.package)
    ensures ItemStep(w, item, pm, runs, available, build, stamp) == (w, NoMapping)
  {
  }

  /** The names of the tools whose result says they were installed, minus any stopped item. */
  function InstalledNames(items: seq<InstallPlanItem>, results: seq<ItemResult>): (names: set<string>)
    requires |results| <= |items|
    ensures forall n :: n in names <==> exists i :: 0 <= i < |results| && Succeeded(results[i]) && items[i].tool.name == n
    decreases |results|
  {
    if results == [] then {}
    else
      var k := |results| - 1;
      var prev := InstalledNames(items, results[..k]);
      assert forall i :: 0 <= i < k ==> results[..k][i] == results[i];
      prev + (if Succeeded(results[k]) then {items[k].tool.name} else {})
  }

  /** The "installed" table of a state file as `load_state` reads it; empty when the table is missing. */
  function InstalledTable(f: StateStore.StateFile): map<string, StateStore.Record> {
    var t := StateStore.Load(f).installed;
    if t.Some? then t.value else map[]
  }

  /** `name` is recorded in the "installed" table of `f` with `rec`. */
  predicate Holds(f: StateStore.StateFile, name: string, rec: StateStore.Record) {
    name in InstalledTable(f) && InstalledTable(f)[name] == rec
  }

  /** The record a successful item leaves: native tools as standard ones, source builds as custom ones. */
  function RecordFor(r: ItemResult, stamp: string): StateStore.Record {
    if r == NativeDone then StateStore.Record("native", "standard", stamp)
    else StateStore.Record("source", "custom", stamp)
  }

  /**
   * A step from `w` to `r` adds `name` to the "installed" table exactly when
   * it succeeds, and then with `rec`; every other entry keeps its record, a
   * failed step writes nothing, and the "custom" table is kept.
   */
  predicate RecordsOnly(w: World, r: (World, ItemResult), name: string, rec: StateStore.Record) {
    && StateStore.KeysOrNone(StateStore.Load(r.0.file).installed)
       == StateStore.KeysOrNone(StateStore.Load(w.file).installed) + (if Succeeded(r.1) then {name} else {})
    && (r.0.file != w.file ==> StateStore.Load(r.0.file).custom == StateStore.Load(w.file).custom)
    && (Succeeded(r.1) ==> StateStore.Load(w.file).installed.Some? && Holds(r.0.file, name, rec))
    && (!Succeeded(r.1) ==> r.0.file == w.file)
    && (forall n :: n != name && n in InstalledTable(w.file) ==> Holds(r.0.file, n, InstalledTable(w.file)[n]))
  }

  /** Recording a success. */
  lemma MarkRecords(w: World, name: string, how: string, category: string, stamp: string, done: ItemResult)
    requires Succeeded(done)
    ensures RecordsOnly(w, Mark(w, name, how, category, stamp, done), name, StateStore.Record(how, category, stamp))
  {
    var reg := StateStore.Load(w.file);
    if reg.installed.Some? {
      StateStore.WithInstalledKeys(reg, name, StateStore.Record(how, category, stamp));
    }
  }

  /** A source build records the tool, as a custom one, only when it is built. */
  lemma FromSourceRecords(w: World, t: Tool, pm: string, runs: Command -> bool, build: SourceInstall.Builder, stamp: string)
    ensures var r := FromSource(w, t, pm, runs, build, stamp);
      && RecordsOnly(w, r, t.name, StateStore.Record("source", "custom", stamp))
      && (r.1 == SourceDone <==> SourceInstall.InstallFromSource(t, pm, runs, build) == SourceInstall.Built && StateStore.Load(w.file).installed.Some?)
      && r.1 != NativeDone
  {
    if SourceInstall.InstallFromSource(t, pm, runs, build) == SourceInstall.Built {
      MarkRecords(w, t.name, "source", "custom", stamp, SourceDone);
    }
  }

  /**
   * One item adds its name to the "installed" table exactly when it succeeds:
   * an available native package as "native"/"standard", a source build (of a
   * source item, or of a native item whose package is unavailable) as
   * "source"/"custom", both stamped with the run's time. Other entries and
   * the "custom" table are kept.
   */
  lemma ItemStepRecords(w: World, item: InstallPlanItem, pm: string, runs: Command -> bool,
                        available: string -> bool, build: SourceInstall.Builder, stamp: string)
    ensures var r := ItemStep(w, item, pm, runs, available, build, stamp);
      && RecordsOnly(w, r, item.tool.name, RecordFor(r.1, stamp))
      && (r.1 == NativeDone ==> item.how == Native && Truthy(item.package) && available(item.package.value)
                                && Holds(r.0.file, item.tool.name, StateStore.Record("native", "standard", stamp)))
      && (r.1 == SourceDone ==> (item.how != Native || (Truthy(item.package) && !available(item.package.value) && HasSource(item.tool)))
                                && SourceInstall.InstallFromSource(item.tool, pm, runs, build) == SourceInstall.Built
                                && Holds(r.0.file, item.tool.name, StateStore.Record("source", "custom", stamp)))
  {
    if item.how != Native {
      FromSourceRecords(w, item.tool, pm, runs, build, stamp);
    } else if Truthy(item.package) {
      var pkg := item.package.value;
      if !available(pkg) {
        if HasSource(item.tool) {
          FromSourceRecords(w, item.tool, pm, runs, build, stamp);
        }
      } else {
        var a := InstallAttempt(pm, w.updated, [pkg], runs);
        if a.outcome.Installed? {
          MarkRecords(AfterAttempt(w, a), item.tool.name, "native", "standard", stamp, NativeDone);
        }
      }
    }
  }

  /** Result `i` is the last success among `results` for its item's tool name. */
  predicate LastSuccess(items: seq<InstallPlanItem>, results: seq<ItemResult>, i: nat)
    requires i < |results| <= |items|
  {
    forall j :: i < j < |results| && Succeeded(results[j]) ==> items[j].tool.name != items[i].tool.name
  }

  /**
   * The item loop leaves in the "installed" table exactly what was there
   * before plus the tools it reports as installed.
   */
  lemma {:induction false} RunItemsRecords(items: seq<InstallPlanItem>, w: World, pm: string, runs: Command -> bool,
                                           available: string -> bool, build: SourceInstall.Builder, stamp: string)
    ensures var r := RunItems(items, w, pm, runs, available, build, stamp);
      StateStore.KeysOrNone(StateStore.Load(r.0.file).installed)
        == StateStore.KeysOrNone(StateStore.Load(w.file).installed) + InstalledNames(items, r.1)
    decreases |items|
  {
    if items != [] {
      var init := items[..|items| - 1];
      RunItemsRecords(init, w, pm, runs, available, build, stamp);
      var prev := RunItems(init, w, pm, runs, available, build, stamp);
      InstalledNamesPrefix(items, init, prev.1);
      if !Halted(prev.1) {
        RunItemsLength(init, w, pm, runs, available, build, stamp);
        ItemStepRecords(prev.0, items[|items| - 1], pm, runs, available, build, stamp);
        var step := ItemStep(prev.0, items[|items| - 1], pm, runs, available, build, stamp);
        InstalledNamesSnoc(items, prev.1, step.1);
      }
    }
  }

  /**
   * Each tool the item loop installs holds the record of its last success
   * ("native"/"standard" or "source"/"custom", with the run's stamp), and
   * every entry of a tool it does not install keeps its record.
   */
  lemma {:induction false} RunItemsRecordValues(items: seq<InstallPlanItem>, w: World, pm: string, runs: Command -> bool,
                                                available: string -> bool, build: SourceInstall.Builder, stamp: string)
    ensures var r := RunItems(items, w, pm, runs, available, build, stamp);
      forall i :: 0 <= i < |r.1| && Succeeded(r.1[i]) && LastSuccess(items, r.1, i) ==>
        Holds(r.0.file, items[i].tool.name, RecordFor(r.1[i], stamp))
    ensures var r := RunItems(items, w, pm, runs, available, build, stamp);
      forall n :: n !in InstalledNames(items, r.1) && n in InstalledTable(w.file) ==> Holds(r.0.file, n, InstalledTable(w.file)[n])
    decreases |items|
  {
    if items != [] {
      var init := items[..|items| - 1];
      RunItemsRecordValues(init, w, pm, runs, available, build, stamp);
      var prev := RunItems(init, w, pm, runs, available, build, stamp);
      if !Halted(prev.1) {
        RunItemsLength(init, w, pm, runs, available, build, stamp);
        ItemStepRecords(prev.0, items[|items| - 1], pm, runs, available, build, stamp);
        var step := ItemStep(prev.0, items[|items| - 1], pm, runs, available, build, stamp);
        RecordsExtend(items, init, prev.1, w.file, prev.0, step, stamp);
      }
    }
  }

  /** One more result adds its item's name exactly when it is a success. */
  lemma InstalledNamesSnoc(items: seq<InstallPlanItem>, results: seq<ItemResult>, res: ItemResult)
    requires |results| < |items|
    ensures InstalledNames(items, results + [res])
      == InstalledNames(items, results) + (if Succeeded(res) then {items[|results|].tool.name} else {})
  {
    assert (results + [res])[..|results|] == results;
  }

  /** One more step of the item loop keeps the record statements of `RunItemsRecordValues`. */
  lemma RecordsExtend(items: seq<InstallPlanItem>, init: seq<InstallPlanItem>, results: seq<ItemResult>,
                      before: StateStore.StateFile, mid: World, step: (World, ItemResult), stamp: string)
    requires |items| == |results| + 1 && init == items[..|results|]
    requires forall i :: 0 <= i < |results| && Succeeded(results[i]) && LastSuccess(init, results, i) ==>
      Holds(mid.file, init[i].tool.name, RecordFor(results[i], stamp))
    requires forall n :: n !in InstalledNames(init, results) && n in InstalledTable(before) ==> Holds(mid.file, n, InstalledTable(before)[n])
    requires RecordsOnly(mid, step, items[|results|].tool.name, RecordFor(step.1, stamp))
    ensures var rs := results + [step.1];
      forall i :: 0 <= i < |rs| && Succeeded(rs[i]) && LastSuccess(items, rs, i) ==>
        Holds(step.0.file, items[i].tool.name, RecordFor(rs[i], stamp))
    ensures var rs := results + [step.1];
      forall n :: n !in InstalledNames(items, rs) && n in InstalledTable(before) ==> Holds(step.0.file, n, InstalledTable(before)[n])
  {
    var k := |results|;
    var rs := results + [step.1];
    var name := items[k].tool.name;
    forall i | 0 <= i < |rs| && Succeeded(rs[i]) && LastSuccess(items, rs, i)
      ensures Holds(step.0.file, items[i].tool.name, RecordFor(rs[i], stamp))
    {
      if i < k {
        assert rs[i] == results[i] && init[i] == items[i];
        forall j | i < j < k && Succeeded(results[j])
          ensures init[j].tool.name != init[i].tool.name
        {
          assert rs[j] == results[j] && init[j] == items[j];
        }
        assert LastSuccess(init, results, i);
        assert Succeeded(step.1) ==> name != items[i].tool.name by {
          assert k < |rs| && rs[k] == step.1;
        }
      }
    }
    InstalledNamesPrefix(items, init, results);
    InstalledNamesSnoc(items, results, step.1);
  }

  /** The names depend only on the items that have results. */
  lemma InstalledNamesPrefix(items: seq<InstallPlanItem>, init: seq<InstallPlanItem>, results: seq<ItemResult>)
    requires |results| <= |init| <= |items| && init == items[..|init|]
    ensures InstalledNames(items, results) == InstalledNames(init, results)
  {
    forall n ensures n in InstalledNames(items, results) <==> n in InstalledNames(init, results) {
      if n in InstalledNames(items, results) {
        var i :| 0 <= i < |results| && Succeeded(results[i]) && items[i].tool.name == n;
        assert init[i] == items[i];
      }
      if n in InstalledNames(init, results) {
        var i :| 0 <= i < |results| && Succeeded(results[i]) && init[i].tool.name == n;
        assert init[i] == items[i];
      }
    }
  }

  /** Until an exit request, the loop yields one result per item. */
  lemma {:induction false} RunItemsLength(items: seq<InstallPlanItem>, w: World, pm: string, runs: Command -> bool,
                                          available: string -> bool, build: SourceInstall.Builder, stamp: string)
    ensures var r := RunItems(items, w, pm, runs, available, build, stamp);
      !Halted(r.1) ==> |r.1| == |items|
    ensures var r := RunItems(items, w, pm, runs, available, build, stamp);
      forall i :: 0 <= i < |r.1| - 1 ==> !r.1[i].Exited?
    decreases |items|
  {
    if items != [] {
      RunItemsLength(items[..|items| - 1], w, pm, runs, available, build, stamp);
    }
  }

  /** Once an exit request is among the results, the remaining items are not looked at. */
  lemma {:induction false} HaltedStays(items: seq<InstallPlanItem>, k: nat, w: World, pm: string, runs: Command -> bool,
                                       available: string -> bool, build: SourceInstall.Builder, stamp: string)
    requires k <= |items|
    requires Halted(RunItems(items[..k], w, pm, runs, available, build, stamp).1)
    ensures RunItems(items, w, pm, runs, available, build, stamp) == RunItems(items[..k], w, pm, runs, available, build, stamp)
    decreases |items| - k
  {
    if k < |items| {
      assert items[..k + 1][..k] == items[..k];
      HaltedStays(items, k + 1, w, pm, runs, available, build, stamp);
    } else {
      assert items[..k] == items;
    }
  }

  /** A run that gets to the items runs them from the world left by the dependency batch. */
  lemma ExecuteReachesItems(plan: InstallPlan, pm: string, answer: string, isRoot: bool, runs: Command -> bool,
                            available: string -> bool, build: SourceInstall.Builder, stamp: string, file: StateStore.StateFile)
    requires Installable(plan.items) != [] && Confirmed(answer) && isRoot
    requires plan.dependencyPackages == [] || InstallAttempt(pm, false, plan.dependencyPackages, runs).outcome.Installed?
    ensures Execute(plan, pm, answer, isRoot, runs, available, build, stamp, file)
      == ItemsPhase(Installable(plan.items), AfterBatch(plan.dependencyPackages, pm, runs, file), pm, runs, available, build, stamp)
  {
  }

  /** A run that does not get to the items has no item results and leaves the state file alone. */
  lemma ExecuteStopsEarly(plan: InstallPlan, pm: string, answer: string, isRoot: bool, runs: Command -> bool,
                          available: string -> bool, build: SourceInstall.Builder, stamp: string, file: StateStore.StateFile)
    requires !(Installable(plan.items) != [] && Confirmed(answer) && isRoot
               && (plan.dependencyPackages == [] || InstallAttempt(pm, false, plan.dependencyPackages, runs).outcome.Installed?))
    ensures var e := Execute(plan, pm, answer, isRoot, runs, available, build, stamp, file);
      e.results == [] && e.file == file && e.outcome != Completed
  {
    if Installable(plan.items) != [] && Confirmed(answer) && isRoot {
      ExecuteBatchStops(plan, pm, answer, isRoot, runs, available, build, stamp, file);
    }
  }

  /**
   * A run records in the "installed" table exactly the tools it reports as
   * installed, added to those recorded before; each holds the record of its
   * last success, and every other entry keeps its record.
   */
  lemma ExecuteRecords(plan: InstallPlan, pm: string, answer: string, isRoot: bool, runs: Command -> bool,
                       available: string -> bool, build: SourceInstall.Builder, stamp: string, file: StateStore.StateFile)
    ensures var e := Execute(plan, pm, answer, isRoot, runs, available, build, stamp, file);
      |e.results| <= |Installable(plan.items)|
      && StateStore.KeysOrNone(StateStore.Load(e.file).installed)
         == StateStore.KeysOrNone(StateStore.Load(file).installed) + InstalledNames(Installable(plan.items), e.results)
    ensures var e := Execute(plan, pm, answer, isRoot, runs, available, build, stamp, file);
      var items := Installable(plan.items);
      |e.results| <= |items|
      && (forall i :: 0 <= i < |e.results| && Succeeded(e.results[i]) && LastSuccess(items, e.results, i) ==>
            Holds(e.file, items[i].tool.name, RecordFor(e.results[i], stamp)))
      && (forall n :: n !in InstalledNames(items, e.results) && n in InstalledTable(file) ==> Holds(e.file, n, InstalledTable(file)[n]))
  {
    var deps := plan.dependencyPackages;
    if Installable(plan.items) != [] && Confirmed(answer) && isRoot
       && (deps == [] || InstallAttempt(pm, false, deps, runs).outcome.Installed?) {
      ExecuteReachesItems(plan, pm, answer, isRoot, runs, available, build, stamp, file);
      RunItemsRecords(Installable(plan.items), AfterBatch(deps, pm, runs, file), pm, runs, available, build, stamp);
      RunItemsRecordValues(Installable(plan.items), AfterBatch(deps, pm, runs, file), pm, runs, available, build, stamp);
    } else {
      ExecuteStopsEarly(plan, pm, answer, isRoot, runs, available, build, stamp, file);
    }
  }

  /** A completed run has looked at every installable item and none asked to exit. */
  lemma CompletedCoversAll(plan: InstallPlan, pm: string, answer: string, isRoot: bool, runs: Command -> bool,
                           available: string -> bool, build: SourceInstall.Builder, stamp: string, file: StateStore.StateFile)
    ensures var e := Execute(plan, pm, answer, isRoot, runs, available, build, stamp, file);
      e.outcome == Completed ==> |e.results| == |Installable(plan.items)| && forall i :: 0 <= i < |e.results| ==> !e.results[i].Exited?
  {
    var deps := plan.dependencyPackages;
    if Installable(plan.items) != [] && Confirmed(answer) && isRoot
       && (deps == [] || InstallAttempt(pm, false, deps, runs).outcome.Installed?) {
      ExecuteReachesItems(plan, pm, answer, isRoot, runs, available, build, stamp, file);
      ItemsPhaseCompleted(Installable(plan.items), AfterBatch(deps, pm, runs, file), pm, runs, available, build, stamp);
    } else {
      ExecuteStopsEarly(plan, pm, answer, isRoot, runs, available, build, stamp, file);
    }
  }

  /** An item loop that completes has one result per item and no exit request. */
  lemma ItemsPhaseCompleted(installable: seq<InstallPlanItem>, w: World, pm: string, runs: Command -> bool,
                            available: string -> bool, build: SourceInstall.Builder, stamp: string)
    ensures var e := ItemsPhase(installable, w, pm, runs, available, build, stamp);
      e.outcome == Completed ==> |e.results| == |installable| && forall i :: 0 <= i < |e.results| ==> !e.results[i].Exited?
  {
    RunItemsLength(installable, w, pm, runs, available, build, stamp);
  }

  // ---- The procedure ----

  /** Install one item with the run's installer and record it in the store. */
  method InstallItem(installer: PackageInstaller, store: StateStore.StateManager, item: InstallPlanItem,
                     available: string -> bool, build: SourceInstall.Builder, stamp: string) returns (result: ItemResult)
    requires installer.Valid()
    modifies installer, store
    ensures installer.Valid()
    ensures var r := ItemStep(World(old(installer.updated), old(installer.log), old(store.file)), item,
                              installer.pm, installer.runs, available, build, stamp);
      World(installer.updated, installer.log, store.file) == r.0 && result == r.1
  {
    if item.how == Native {
      if !Truthy(item.package) {
        return NoMapping;
      }
      var pkg := item.package.value;
      if !available(pkg) {
        if HasSource(item.tool) {
          result := BuildAndRecord(store, item.tool, installer.pm, installer.runs, build, stamp);
        } else {
          result := Unavailable(pkg);
        }
        return;
      }
      var out := installer.InstallPackages([pkg]);
      match out
      case Installed =>
        var stored := store.MarkInstalled(item.tool.name, "native", "standard", stamp);
        result := if stored == StateStore.Done then NativeDone else StateError(stored.message);
      case CommandFailed(c) =>
        result := CommandError(c);
      case Unsupported(message) =>
        result := Exited(message);
    } else {
      result := BuildAndRecord(store, item.tool, installer.pm, installer.runs, build, stamp);
    }
  }

  /** `install_from_source`, then `mark_installed` as a custom tool. */
  method BuildAndRecord(store: StateStore.StateManager, t: Tool, pm: string, runs: Command -> bool,
                        build: SourceInstall.Builder, stamp: string) returns (result: ItemResult)
    modifies store
    ensures var r := FromSource(World(false, [], old(store.file)), t, pm, runs, build, stamp);
      store.file == r.0.file && result == r.1
  {
    var built := SourceInstall.BuildFromSource(t, pm, runs, build);
    match built
    case BuildFailed(message) =>
      result := BuildError(message);
    case CommandRaised(c) =>
      result := CommandError(c);
    case ExitRequested(message) =>
      result := Exited(message);
    case Built =>
      var stored := store.MarkInstalled(t.name, "source", "custom", stamp);
      result := if stored == StateStore.Done then SourceDone else StateError(stored.message);
  }

  /** The item loop of `execute_install_plan`: install each item until an exit request. */
  method InstallItems(installer: PackageInstaller, store: StateStore.StateManager, installable: seq<InstallPlanItem>,
                      available: string -> bool, build: SourceInstall.Builder, stamp: string) returns (results: seq<ItemResult>)
    requires installer.Valid()
    modifies installer, store
    ensures installer.Valid()
    ensures var r := RunItems(installable, World(old(installer.updated), old(installer.log), old(store.file)),
                              installer.pm, installer.runs, available, build, stamp);
      World(installer.updated, installer.log, store.file) == r.0 && results == r.1
  {
    ghost var w := World(installer.updated, installer.log, store.file);
    ghost var pm := installer.pm;
    ghost var runs := installer.runs;
    results := [];
    var i := 0;
    while i < |installable| && !Halted(results)
      invariant 0 <= i <= |installable|
      invariant installer.Valid() && installer.pm == pm && installer.runs == runs
      invariant RunItems(installable[..i], w, pm, runs, available, build, stamp)
        == (World(installer.updated, installer.log, store.file), results)
      decreases |installable| - i
    {
      var result := InstallItem(installer, store, installable[i], available, build, stamp);
      assert installable[..i + 1][..i] == installable[..i];
      results := results + [result];
      i := i + 1;
    }
    if i < |installable| {
      HaltedStays(installable, i, w, pm, runs, available, build, stamp);
    } else {
      assert installable[..i] == installable;
    }
  }

  /** The part of `execute_install_plan` after the confirmation: the dependency batch, then the items. */
  method InstallConfirmed(deps: seq<string>, installable: seq<InstallPlanItem>, pm: string, runs: Command -> bool,
                          available: string -> bool, build: SourceInstall.Builder, stamp: string, store: StateStore.StateManager)
    returns (outcome: Outcome, commands: seq<Command>, results: seq<ItemResult>)
    modifies store
    ensures Proceed(deps, installable, pm, runs, available, build, stamp, old(store.file))
      == Execution(outcome, commands, store.file, results)
  {
    var installer := new PackageInstaller(pm, runs);
    if deps != [] {
      var out := installer.InstallPackages(deps);
      if out.CommandFailed? {
        return DependenciesFailed(out.command), installer.log, [];
      }
      if out.Unsupported? {
        return Stopped(out.message), installer.log, [];
      }
      assert [] + installer.log == installer.log;
    }
    ghost var w1 := World(installer.updated, installer.log, store.file);
    assert w1 == AfterBatch(deps, pm, runs, store.file);
    assert Proceed(deps, installable, pm, runs, available, build, stamp, store.file)
      == ItemsPhase(installable, w1, pm, runs, available, build, stamp);
    results := InstallItems(installer, store, installable, available, build, stamp);
    outcome := if Halted(results) then Stopped(results[|results| - 1].message) else Completed;
    commands := installer.log;
  }

  /**
   * `execute_install_plan`: ask, install the dependency batch, then each
   * installable item. Returns how the run ended, the commands its installer
   * issued and the item results; the store holds the state file.
   */
  method ExecuteInstallPlan(plan: InstallPlan, pm: string, answer: string, isRoot: bool, runs: Command -> bool,
                            available: string -> bool, build: SourceInstall.Builder, stamp: string, store: StateStore.StateManager)
    returns (outcome: Outcome, commands: seq<Command>, results: seq<ItemResult>)
    modifies store
    ensures Execute(plan, pm, answer, isRoot, runs, available, build, stamp, old(store.file))
      == Execution(outcome, commands, store.file, results)
  {
    var installable := Installable(plan.items);
    if installable == [] {
      return NothingInstallable, [], [];
    }
    if !Confirmed(answer) {
      return Declined, [], [];
    }
    if !isRoot {
      return Stopped(RootMessage), [], [];
    }
    outcome, commands, results := InstallConfirmed(plan.dependencyPackages, installable, pm, runs, available, build, stamp, store);
  }
}

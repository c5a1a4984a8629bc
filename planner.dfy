/**
 * The preflight pass over the selected tools that builds an install plan:
 * one item per tool in input order (native, source or skip, with its
 * package, dependency packages and skip reason), the skip, low-RAM and
 * insufficient-disk buckets, and the deduplicated, availability-filtered
 * list of dependency packages to install first.
 */
module Planner {
  import opened Wrappers
  import opened Model
  import opened Collections
  import opened Resolver
  import Probe

  datatype PlanMethod = Native | Source | Skip

  datatype InstallPlanItem = InstallPlanItem(
    tool: Tool,
    how: PlanMethod,
    package: Option<string>,
    dependencies: seq<string>,
    reason: Option<string>)

  datatype InstallPlan = InstallPlan(
    items: seq<InstallPlanItem>,
    dependencyPackages: seq<string>,
    skipped: seq<InstallPlanItem>,
    lowRam: seq<InstallPlanItem>,
    insufficientDisk: seq<InstallPlanItem>)

  const InsufficientDisk := "insufficient disk"
  const NoSupportedMethod := "no supported install method for this system"

  /** The item of a tool that does not fit on the disk. */
  function DiskSkipItem(t: Tool): InstallPlanItem {
    InstallPlanItem(t, Skip, None, [], Some(InsufficientDisk))
  }

  predicate DiskOk(t: Tool, sys: SystemInfo) {
    CheckResources(t, sys).diskOk
  }

  predicate RamOk(t: Tool, sys: SystemInfo) {
    CheckResources(t, sys).ramOk
  }

  /**
   * The availability check the planner is given: `is_package_available` of an
   * installer for the host's manager, whose command runs are `probe`.
   */
  function AvailabilityOf(pm: string, probe: Probe.Query -> Probe.ProbeResult): string -> bool {
    pkg => Probe.IsPackageAvailable(pm, pkg, probe)
  }

  /** A package is declared for the manager and the probe finds it. */
  predicate NativeAvailable(t: Tool, pm: string, available: string -> bool) {
    var pkg := DeclaredPackage(t, pm);
    Truthy(pkg) && available(pkg.value)
  }

  /** Native when the package is there, else source when the tool has a source specification, else skip. */
  function ChooseMethod(t: Tool, pm: string, available: string -> bool): (m: PlanMethod)
    ensures m == Native <==> NativeAvailable(t, pm, available)
    ensures m == Source <==> !NativeAvailable(t, pm, available) && HasSource(t)
    ensures m == Skip <==> !NativeAvailable(t, pm, available) && !HasSource(t)
  {
    if NativeAvailable(t, pm, available) then Native
    else if HasSource(t) then Source
    else Skip
  }

  /** Why a tool with no usable method is skipped: its declared package is unavailable, or it has no method at all. */
  function SkipReason(t: Tool, pm: string, available: string -> bool): string {
    var pkg := DeclaredPackage(t, pm);
    if Truthy(pkg) && !available(pkg.value) then
      "package '" + pkg.value + "' not available via " + pm
    else NoSupportedMethod
  }

  /** The base packages of a tool's kind of source build. */
  function SourceBase(t: Tool, pm: string): seq<string> {
    match TruthySourceType(t)
    case None => []
    case Some(kind) => MappedPackages(BaseTokens(kind), pm)
  }

  /** `[d for d in deps if d]`. */
  function NonEmptyOnly(deps: seq<string>): seq<string>
    decreases |deps|
  {
    if deps == [] then []
    else NonEmptyOnly(deps[..|deps| - 1]) + (if deps[|deps| - 1] != "" then [deps[|deps| - 1]] else [])
  }

  /** The filter keeps exactly the non-empty names. */
  lemma {:induction false} NonEmptyOnlyMembers(deps: seq<string>)
    ensures forall d :: d in NonEmptyOnly(deps) <==> d in deps && d != ""
    decreases |deps|
  {
    if deps != [] {
      NonEmptyOnlyMembers(deps[..|deps| - 1]);
      assert deps == deps[..|deps| - 1] + [deps[|deps| - 1]];
    }
  }

  /** The loop's running state: items, raw dependency packages, buckets, and the resolver's cache. */
  datatype Acc = Acc(
    items: seq<InstallPlanItem>,
    deps: seq<string>,
    skipped: seq<InstallPlanItem>,
    lowRam: seq<InstallPlanItem>,
    insufficientDisk: seq<InstallPlanItem>,
    cache: set<string>)

  /** One pass of the loop for tool `t`. */
  function Step(acc: Acc, t: Tool, sys: SystemInfo, which: string -> bool, available: string -> bool): Acc {
    if !DiskOk(t, sys) then
      var item := DiskSkipItem(t);
      acc.(items := acc.items + [item], skipped := acc.skipped + [item], insufficientDisk := acc.insufficientDisk + [item])
    else
      var pm := sys.packageManager;
      var how := ChooseMethod(t, pm, available);
      var r := Resolve(t.dependencies, acc.cache, pm, which);
      var deps := NonEmptyOnly(r.packages + (if how == Source then SourceBase(t, pm) else []));
      var reason := if how == Skip then Some(SkipReason(t, pm, available)) else None;
      var item := InstallPlanItem(t, how, DeclaredPackage(t, pm), deps, reason);
      Acc(
        acc.items + [item],
        acc.deps + deps,
        if how == Skip then acc.skipped + [item] else acc.skipped,
        if how != Skip && !RamOk(t, sys) then acc.lowRam + [item] else acc.lowRam,
        acc.insufficientDisk,
        r.cache)
  }

  /** The state after the loop has seen `tools`. */
  function Accumulate(tools: seq<Tool>, sys: SystemInfo, which: string -> bool, available: string -> bool): Acc
    decreases |tools|
  {
    if tools == [] then Acc([], [], [], [], [], {})
    else Step(Accumulate(tools[..|tools| - 1], sys, which, available), tools[|tools| - 1], sys, which, available)
  }

  /** The deduplication pass: packages kept so far and names seen so far. */
  datatype Dedup = Dedup(out: seq<string>, seen: set<string>)

  /** Each package considered once, at its first occurrence, and kept if the probe finds it. */
  function UniqueAvailable(deps: seq<string>, pm: string, available: string -> bool): Dedup
    decreases |deps|
  {
    if deps == [] then Dedup([], {})
    else
      var prev := UniqueAvailable(deps[..|deps| - 1], pm, available);
      var d := deps[|deps| - 1];
      if d in prev.seen then prev
      else Dedup(if available(d) then prev.out + [d] else prev.out, prev.seen + {d})
  }

  /** `build_install_plan` as a value. */
  function PlanOf(tools: seq<Tool>, sys: SystemInfo, which: string -> bool, available: string -> bool): InstallPlan {
    var acc := Accumulate(tools, sys, which, available);
    InstallPlan(acc.items, UniqueAvailable(acc.deps, sys.packageManager, available).out, acc.skipped, acc.lowRam, acc.insufficientDisk)
  }

  // ---- The buckets as filters of the item list ----

  function SkippedOf(items: seq<InstallPlanItem>): seq<InstallPlanItem>
    decreases |items|
  {
    if items == [] then []
    else SkippedOf(items[..|items| - 1]) + (if items[|items| - 1].how == Skip then [items[|items| - 1]] else [])
  }

  function LowRamOf(items: seq<InstallPlanItem>, sys: SystemInfo): seq<InstallPlanItem>
    decreases |items|
  {
    if items == [] then []
    else
      var it := items[|items| - 1];
      LowRamOf(items[..|items| - 1], sys) + (if it.how != Skip && !RamOk(it.tool, sys) then [it] else [])
  }

  function DiskSkippedOf(items: seq<InstallPlanItem>, sys: SystemInfo): seq<InstallPlanItem>
    decreases |items|
  {
    if items == [] then []
    else
      var it := items[|items| - 1];
      DiskSkippedOf(items[..|items| - 1], sys) + (if !DiskOk(it.tool, sys) then [it] else [])
  }

  /** The dependency lists of the items, concatenated in order. */
  function ConcatDeps(items: seq<InstallPlanItem>): seq<string>
    decreases |items|
  {
    if items == [] then [] else ConcatDeps(items[..|items| - 1]) + items[|items| - 1].dependencies
  }

  /** How the item of a tool looks, whatever the resolver's cache was. */
  predicate ItemFits(item: InstallPlanItem, t: Tool, sys: SystemInfo, available: string -> bool) {
    var pm := sys.packageManager;
    && item.tool == t
    && (!DiskOk(t, sys) ==> item == DiskSkipItem(t))
    && (DiskOk(t, sys) ==>
          && item.how == ChooseMethod(t, pm, available)
          && item.package == DeclaredPackage(t, pm)
          && item.reason == (if item.how == Skip then Some(SkipReason(t, pm, available)) else None))
  }

  // ---- Properties of the pass ----

  /** One item per tool, in input order, each of the shape its tool calls for. */
  lemma {:induction false} ItemsFollowTools(tools: seq<Tool>, sys: SystemInfo, which: string -> bool, available: string -> bool)
    ensures var acc := Accumulate(tools, sys, which, available);
      |acc.items| == |tools| && forall i :: 0 <= i < |tools| ==> ItemFits(acc.items[i], tools[i], sys, available)
    decreases |tools|
  {
    if tools != [] {
      var init := tools[..|tools| - 1];
      ItemsFollowTools(init, sys, which, available);
      var prev := Accumulate(init, sys, which, available);
      StepItemFits(prev, tools[|tools| - 1], sys, which, available);
      var acc := Accumulate(tools, sys, which, available);
      assert acc.items == prev.items + [acc.items[|tools| - 1]];
      forall i | 0 <= i < |init|
        ensures ItemFits(acc.items[i], tools[i], sys, available)
      {
        assert acc.items[i] == prev.items[i] && tools[i] == init[i];
      }
    }
  }

  /** A pass appends one item, and it fits its tool. */
  lemma StepItemFits(acc: Acc, t: Tool, sys: SystemInfo, which: string -> bool, available: string -> bool)
    ensures var next := Step(acc, t, sys, which, available);
      |next.items| == |acc.items| + 1 && next.items[..|acc.items|] == acc.items
      && ItemFits(next.items[|acc.items|], t, sys, available)
  {
  }

  /** The buckets are exactly the skipped items, the low-RAM installable items and the disk-skipped items. */
  lemma {:induction false} BucketsAreFilters(tools: seq<Tool>, sys: SystemInfo, which: string -> bool, available: string -> bool)
    ensures var acc := Accumulate(tools, sys, which, available);
      && acc.skipped == SkippedOf(acc.items)
      && acc.lowRam == LowRamOf(acc.items, sys)
      && acc.insufficientDisk == DiskSkippedOf(acc.items, sys)
      && acc.deps == ConcatDeps(acc.items)
    decreases |tools|
  {
    if tools != [] {
      var init := tools[..|tools| - 1];
      BucketsAreFilters(init, sys, which, available);
      var prev := Accumulate(init, sys, which, available);
      var acc := Accumulate(tools, sys, which, available);
      assert acc.items[..|acc.items| - 1] == prev.items;
    }
  }

  /** A disk-skipped item is also a skipped item. */
  lemma {:induction false} DiskSkippedAreSkipped(items: seq<InstallPlanItem>, sys: SystemInfo, x: InstallPlanItem)
    requires forall i :: 0 <= i < |items| && !DiskOk(items[i].tool, sys) ==> items[i].how == Skip
    requires x in DiskSkippedOf(items, sys)
    ensures x in SkippedOf(items)
    decreases |items|
  {
    var init := items[..|items| - 1];
    if x in DiskSkippedOf(init, sys) {
      assert forall i :: 0 <= i < |init| ==> init[i] == items[i];
      DiskSkippedAreSkipped(init, sys, x);
    }
  }

  /** Every item of the insufficient-disk bucket is in the skipped bucket. */
  lemma InsufficientDiskWithinSkipped(tools: seq<Tool>, sys: SystemInfo, which: string -> bool, available: string -> bool)
    ensures var plan := PlanOf(tools, sys, which, available);
      forall x :: x in plan.insufficientDisk ==> x in plan.skipped && x.reason == Some(InsufficientDisk)
  {
    var acc := Accumulate(tools, sys, which, available);
    ItemsFollowTools(tools, sys, which, available);
    BucketsAreFilters(tools, sys, which, available);
    forall i | 0 <= i < |acc.items| && !DiskOk(acc.items[i].tool, sys)
      ensures acc.items[i].how == Skip
    {
      assert ItemFits(acc.items[i], tools[i], sys, available);
    }
    forall x | x in acc.insufficientDisk
      ensures x in acc.skipped && x.reason == Some(InsufficientDisk)
    {
      DiskSkippedAreSkipped(acc.items, sys, x);
      DiskSkippedReason(acc.items, sys, x);
    }
  }

  lemma {:induction false} DiskSkippedReason(items: seq<InstallPlanItem>, sys: SystemInfo, x: InstallPlanItem)
    requires forall i :: 0 <= i < |items| && !DiskOk(items[i].tool, sys) ==> items[i] == DiskSkipItem(items[i].tool)
    requires x in DiskSkippedOf(items, sys)
    ensures x.reason == Some(InsufficientDisk)
    decreases |items|
  {
    var init := items[..|items| - 1];
    if x in DiskSkippedOf(init, sys) {
      assert forall i :: 0 <= i < |init| ==> init[i] == items[i];
      DiskSkippedReason(init, sys, x);
    }
  }

  /** The resolver only ever sees tools that fit on the disk: every cached name is a dependency of one. */
  lemma {:induction false} CacheFromDiskOkTools(tools: seq<Tool>, sys: SystemInfo, which: string -> bool, available: string -> bool)
    ensures forall d :: d in Accumulate(tools, sys, which, available).cache ==>
      exists i :: 0 <= i < |tools| && DiskOk(tools[i], sys) && d in tools[i].dependencies
    decreases |tools|
  {
    if tools != [] {
      var init := tools[..|tools| - 1];
      var t := tools[|tools| - 1];
      CacheFromDiskOkTools(init, sys, which, available);
      var prev := Accumulate(init, sys, which, available);
      ResolveSound(t.dependencies, prev.cache, sys.packageManager, which);
      forall d | d in Accumulate(tools, sys, which, available).cache
        ensures exists i :: 0 <= i < |tools| && DiskOk(tools[i], sys) && d in tools[i].dependencies
      {
        if d in prev.cache {
          var i :| 0 <= i < |init| && DiskOk(init[i], sys) && d in init[i].dependencies;
          assert tools[i] == init[i];
        } else {
          assert DiskOk(tools[|tools| - 1], sys) && d in tools[|tools| - 1].dependencies;
        }
      }
    }
  }

  /**
   * The deduplication pass keeps each package at most once and keeps exactly
   * the available ones.
   */
  lemma {:induction false} UniqueAvailableSound(deps: seq<string>, pm: string, available: string -> bool)
    ensures var u := UniqueAvailable(deps, pm, available);
      && (forall x :: x in u.seen <==> x in deps)
      && NoDuplicates(u.out)
      && (forall x :: x in u.out <==> x in deps && available(x))
    decreases |deps|
  {
    if deps != [] {
      var n := |deps| - 1;
      var init := deps[..n];
      UniqueAvailableSound(init, pm, available);
      assert deps == init + [deps[n]];
    }
  }

  /** The kept packages appear in the order of their first occurrence in the dependency list. */
  lemma {:induction false} UniqueAvailableOrdered(deps: seq<string>, pm: string, available: string -> bool)
    ensures var u := UniqueAvailable(deps, pm, available);
      && (forall x :: x in u.out ==> x in deps)
      && forall i, j :: 0 <= i < j < |u.out| ==> FirstIndex(deps, u.out[i]) < FirstIndex(deps, u.out[j])
    decreases |deps|
  {
    UniqueAvailableSound(deps, pm, available);
    if deps != [] {
      var n := |deps| - 1;
      var init := deps[..n];
      UniqueAvailableSound(init, pm, available);
      UniqueAvailableOrdered(init, pm, available);
      var prev := UniqueAvailable(init, pm, available);
      var d := deps[n];
      assert deps == init + [d];
      forall x | x in prev.out
        ensures FirstIndex(deps, x) == FirstIndex(init, x) < n
      {
        FirstIndexInPrefix(deps, n, x);
      }
      if d !in prev.seen {
        assert d !in init;
        assert FirstIndex(deps, d) == n;
      }
    }
  }

  /**
   * The plan's dependency packages: no duplicates, first-occurrence order,
   * each one available and each taken from some item's dependency list; and
   * every available dependency of every item is among them, including those
   * of items skipped for want of a method.
   */
  lemma PlanDependencies(tools: seq<Tool>, sys: SystemInfo, which: string -> bool, available: string -> bool)
    ensures var plan := PlanOf(tools, sys, which, available);
      && NoDuplicates(plan.dependencyPackages)
      && (forall x :: x in plan.dependencyPackages ==>
            available(x) && exists i :: 0 <= i < |plan.items| && x in plan.items[i].dependencies)
      && (forall i, x :: 0 <= i < |plan.items| && x in plan.items[i].dependencies && available(x) ==>
            x in plan.dependencyPackages)
  {
    var acc := Accumulate(tools, sys, which, available);
    BucketsAreFilters(tools, sys, which, available);
    UniqueAvailableSound(acc.deps, sys.packageManager, available);
    ConcatDepsMembers(acc.items);
  }

  /** A package is in the concatenated lists exactly when it is in one of the items' lists. */
  lemma {:induction false} ConcatDepsMembers(items: seq<InstallPlanItem>)
    ensures forall x :: x in ConcatDeps(items) <==> exists i :: 0 <= i < |items| && x in items[i].dependencies
    decreases |items|
  {
    if items != [] {
      var init := items[..|items| - 1];
      ConcatDepsMembers(init);
      assert forall i :: 0 <= i < |init| ==> init[i] == items[i];
    }
  }

  /** Disk-skipped items carry no dependencies, so they contribute none to the plan. */
  lemma DiskSkippedContributeNothing(tools: seq<Tool>, sys: SystemInfo, which: string -> bool, available: string -> bool, i: nat)
    requires i < |tools| && !DiskOk(tools[i], sys)
    ensures var plan := PlanOf(tools, sys, which, available);
      i < |plan.items| && plan.items[i] == DiskSkipItem(tools[i]) && plan.items[i].dependencies == []
  {
    ItemsFollowTools(tools, sys, which, available);
  }

  // ---- The imperative pass ----

  /** The deduplication loop with its `seen` set. */
  method DedupAvailable(deps: seq<string>, pm: string, available: string -> bool) returns (unique: seq<string>)
    ensures unique == UniqueAvailable(deps, pm, available).out
  {
    unique := [];
    var seen: set<string> := {};
    var k := 0;
    while k < |deps|
      invariant k <= |deps|
      invariant UniqueAvailable(deps[..k], pm, available) == Dedup(unique, seen)
    {
      assert deps[..k + 1][..k] == deps[..k];
      var d := deps[k];
      if d !in seen {
        seen := seen + {d};
        if available(d) {
          unique := unique + [d];
        }
      }
      k := k + 1;
    }
    assert deps[..k] == deps;
  }

  /** `tool.packages.get(pm) if tool.packages else None` is plain `get`. */
  lemma NoPackagesNoneDeclared(t: Tool, pm: string)
    ensures |t.packages| == 0 ==> DeclaredPackage(t, pm) == None
  {
    if |t.packages| == 0 {
      assert t.packages == map[];
    }
  }

  /** A pass over a tool that fits on the disk appends its planned item and its dependency packages. */
  lemma StepWhenDiskOk(acc: Acc, t: Tool, sys: SystemInfo, which: string -> bool, available: string -> bool)
    requires DiskOk(t, sys)
    ensures var pm := sys.packageManager;
      var how := ChooseMethod(t, pm, available);
      var r := Resolve(t.dependencies, acc.cache, pm, which);
      var deps := NonEmptyOnly(r.packages + (if how == Source then SourceBase(t, pm) else []));
      var item := InstallPlanItem(t, how, DeclaredPackage(t, pm), deps, if how == Skip then Some(SkipReason(t, pm, available)) else None);
      var next := Step(acc, t, sys, which, available);
      && next.items == acc.items + [item]
      && next.deps == acc.deps + deps
      && next.skipped == (if how == Skip then acc.skipped + [item] else acc.skipped)
      && next.lowRam == (if how != Skip && !RamOk(t, sys) then acc.lowRam + [item] else acc.lowRam)
      && next.insufficientDisk == acc.insufficientDisk
      && next.cache == r.cache
  {
  }

  /** One pass of the loop: plan tool `t`, appending to the lists and the buckets. */
  method PlanTool(resolver: DependencyResolver, acc: Acc, t: Tool, sys: SystemInfo, available: string -> bool)
    returns (next: Acc)
    requires resolver.pm == sys.packageManager && resolver.resolvedCache == acc.cache
    modifies resolver
    ensures next == Step(acc, t, sys, resolver.which, available) && resolver.resolvedCache == next.cache
  {
    var pm := sys.packageManager;
    var resources := CheckResources(t, sys);
    if !resources.diskOk {
      var item := InstallPlanItem(t, Skip, None, [], Some(InsufficientDisk));
      return acc.(items := acc.items + [item], skipped := acc.skipped + [item], insufficientDisk := acc.insufficientDisk + [item]);
    }
    var pkg := if |t.packages| > 0 then DeclaredPackage(t, pm) else None;
    NoPackagesNoneDeclared(t, pm);
    assert pkg == DeclaredPackage(t, pm);
    var how := ChooseMethod(t, pm, available);
    var deps := resolver.ResolveDependencies(t);
    if how == Source {
      var base := resolver.SourceBaseDependencies(t);
      deps := deps + base;
    }
    ghost var r := Resolve(t.dependencies, acc.cache, pm, resolver.which);
    assert deps == r.packages + (if how == Source then SourceBase(t, pm) else []);
    deps := NonEmptyOnly(deps);
    var depPackages := acc.deps;
    if deps != [] {
      depPackages := depPackages + deps;
    }
    StepWhenDiskOk(acc, t, sys, resolver.which, available);
    if how == Skip {
      var item := InstallPlanItem(t, how, pkg, deps, Some(SkipReason(t, pm, available)));
      next := Acc(acc.items + [item], depPackages, acc.skipped + [item], acc.lowRam, acc.insufficientDisk, resolver.resolvedCache);
    } else {
      var item := InstallPlanItem(t, how, pkg, deps, None);
      var lowRam := acc.lowRam;
      if !resources.ramOk {
        lowRam := lowRam + [item];
      }
      next := Acc(acc.items + [item], depPackages, acc.skipped, lowRam, acc.insufficientDisk, resolver.resolvedCache);
    }
  }

  /** `build_install_plan`: the loop over the tools with a fresh resolver, then deduplication. */
  method BuildInstallPlan(tools: seq<Tool>, sys: SystemInfo, which: string -> bool, available: string -> bool)
    returns (plan: InstallPlan)
    ensures plan == PlanOf(tools, sys, which, available)
  {
    var resolver := new DependencyResolver(sys.packageManager, which);
    var acc := Acc([], [], [], [], [], {});
    var i := 0;
    while i < |tools|
      invariant i <= |tools|
      invariant resolver.pm == sys.packageManager && resolver.which == which
      invariant Accumulate(tools[..i], sys, which, available) == acc && resolver.resolvedCache == acc.cache
    {
      assert tools[..i + 1][..i] == tools[..i];
      acc := PlanTool(resolver, acc, tools[i], sys, available);
      i := i + 1;
    }
    assert tools[..i] == tools;
    var unique := DedupAvailable(acc.deps, sys.packageManager, available);
    plan := InstallPlan(acc.items, unique, acc.skipped, acc.lowRam, acc.insufficientDisk);
  }
}

/**
 * Dependency resolution for a host: a fixed table from logical dependency
 * names to the package each manager calls them, a per-resolver cache of
 * names already dealt with, the base packages each kind of source build
 * needs, and the resource check.
 */
module Resolver {
  import opened Wrappers
  import opened Model
  import opened Collections
  import Scorer

  /** The logical dependency names and their package on apt, dnf, pacman and zypper. */
  const PkgMap: map<string, map<string, string>> := map[
    "python3" := map["apt" := "python3", "dnf" := "python3", "pacman" := "python", "zypper" := "python3"],
    "python3-pip" := map["apt" := "python3-pip", "dnf" := "python3-pip", "pacman" := "python-pip", "zypper" := "python3-pip"],
    "python3-venv" := map["apt" := "python3-venv", "dnf" := "python3-virtualenv", "pacman" := "python-virtualenv", "zypper" := "python3-virtualenv"],
    "ruby" := map["apt" := "ruby-full", "dnf" := "ruby", "pacman" := "ruby", "zypper" := "ruby"],
    "ruby-bundler" := map["apt" := "ruby-bundler", "dnf" := "rubygem-bundler", "pacman" := "ruby-bundler", "zypper" := "rubygem-bundler"],
    "java" := map["apt" := "default-jdk", "dnf" := "java-11-openjdk", "pacman" := "jdk-openjdk", "zypper" := "java-11-openjdk"],
    "perl" := map["apt" := "perl", "dnf" := "perl", "pacman" := "perl", "zypper" := "perl"],
    "wine" := map["apt" := "wine", "dnf" := "wine", "pacman" := "wine", "zypper" := "wine"],
    "postgresql" := map["apt" := "postgresql", "dnf" := "postgresql-server", "pacman" := "postgresql", "zypper" := "postgresql-server"],
    "git" := map["apt" := "git", "dnf" := "git", "pacman" := "git", "zypper" := "git"],
    "golang" := map["apt" := "golang", "dnf" := "golang", "pacman" := "go", "zypper" := "go"],
    "wget" := map["apt" := "wget", "dnf" := "wget", "pacman" := "wget", "zypper" := "wget"],
    "curl" := map["apt" := "curl", "dnf" := "curl", "pacman" := "curl", "zypper" := "curl"],
    "unzip" := map["apt" := "unzip", "dnf" := "unzip", "pacman" := "unzip", "zypper" := "unzip"]
  ]

  /** `map_dependency_package`: the table entry for the dependency and the manager, when both exist. */
  function MapDependencyPackage(dep: string, pm: string): (r: Option<string>)
    ensures r.Some? <==> dep in PkgMap && pm in PkgMap[dep]
    ensures r.Some? ==> r.value == PkgMap[dep][pm]
  {
    if dep in PkgMap && pm in PkgMap[dep] then Some(PkgMap[dep][pm]) else None
  }

  /** Every package in the table has a non-empty name. */
  lemma MappedNamesNonEmpty(dep: string, pm: string)
    requires MapDependencyPackage(dep, pm).Some?
    ensures MapDependencyPackage(dep, pm).value != ""
  {
  }

  /** The table has no column for yum, so on yum no dependency maps to a package. */
  lemma NothingMapsOnYum(dep: string)
    ensures MapDependencyPackage(dep, "yum") == None
  {
  }

  /** The table covers exactly the four managers it names, for every dependency. */
  lemma TableColumns(dep: string, pm: string)
    requires dep in PkgMap
    ensures pm in PkgMap[dep] <==> pm in ["apt", "dnf", "pacman", "zypper"]
  {
  }

  /**
   * What resolving a list of dependency names does: the packages emitted, the
   * names that emitted them, and the resulting cache. A name already cached is
   * passed over; one found on PATH is cached without a package; a mapped one
   * emits its package and is cached; an unmapped one is neither.
   */
  datatype Resolution = Resolution(packages: seq<string>, tokens: seq<string>, cache: set<string>)

  function Resolve(deps: seq<string>, cache: set<string>, pm: string, which: string -> bool): Resolution
    decreases |deps|
  {
    if deps == [] then Resolution([], [], cache)
    else
      var prev := Resolve(deps[..|deps| - 1], cache, pm, which);
      var dep := deps[|deps| - 1];
      if dep in prev.cache then prev
      else if which(dep) then prev.(cache := prev.cache + {dep})
      else match MapDependencyPackage(dep, pm)
        case Some(pkg) => Resolution(prev.packages + [pkg], prev.tokens + [dep], prev.cache + {dep})
        case None => prev
  }

  /**
   * The meaning of a resolution: the cache only grows; each emitted package is
   * the mapping of its name; the names are distinct, were not cached before,
   * are not on PATH and are cached afterwards; one emits at least every
   * uncached, unfound, mapped name of the list.
   */
  lemma {:induction false} ResolveSound(deps: seq<string>, cache: set<string>, pm: string, which: string -> bool)
    ensures var r := Resolve(deps, cache, pm, which);
      && cache <= r.cache
      && |r.packages| == |r.tokens|
      && (forall i :: 0 <= i < |r.tokens| ==>
            MapDependencyPackage(r.tokens[i], pm) == Some(r.packages[i])
            && r.tokens[i] !in cache && !which(r.tokens[i]) && r.tokens[i] in r.cache && r.tokens[i] in deps)
      && NoDuplicates(r.tokens)
      && (forall d :: d in r.cache ==> d in cache || d in deps)
      && (forall d :: d in deps && d !in cache && !which(d) && MapDependencyPackage(d, pm).Some? ==> d in r.tokens)
    decreases |deps|
  {
    if deps != [] {
      var init := deps[..|deps| - 1];
      ResolveSound(init, cache, pm, which);
      var prev := Resolve(init, cache, pm, which);
      var dep := deps[|deps| - 1];
      assert forall d :: d in deps ==> d in init || d == dep;
      if dep !in prev.cache && !which(dep) && MapDependencyPackage(dep, pm).Some? {
        assert dep !in prev.tokens;
      }
    }
  }

  /**
   * The names are emitted in the order of the list: by their first
   * occurrence. A name the list mentions is cached afterwards when it is on
   * PATH or mapped.
   */
  lemma {:induction false} ResolveOrdered(deps: seq<string>, cache: set<string>, pm: string, which: string -> bool)
    ensures var r := Resolve(deps, cache, pm, which);
      && (forall i :: 0 <= i < |r.tokens| ==> r.tokens[i] in deps)
      && forall i, j :: 0 <= i < j < |r.tokens| ==> FirstIndex(deps, r.tokens[i]) < FirstIndex(deps, r.tokens[j])
    ensures var r := Resolve(deps, cache, pm, which);
      forall d :: d in deps && (which(d) || MapDependencyPackage(d, pm).Some?) ==> d in r.cache
    decreases |deps|
  {
    ResolveSound(deps, cache, pm, which);
    if deps != [] {
      var n := |deps| - 1;
      var init := deps[..n];
      ResolveSound(init, cache, pm, which);
      ResolveOrdered(init, cache, pm, which);
      var prev := Resolve(init, cache, pm, which);
      var dep := deps[n];
      assert deps == init + [dep];
      forall x | x in prev.tokens
        ensures FirstIndex(deps, x) == FirstIndex(init, x) < n
      {
        FirstIndexInPrefix(deps, n, x);
      }
      if dep !in prev.cache && !which(dep) && MapDependencyPackage(dep, pm).Some? {
        assert dep !in init;
        assert FirstIndex(deps, dep) == n;
      }
    }
  }

  /** The packages emitted are distinct because their names are and each name maps to one package. */
  lemma ResolveEmitsEachNameOnce(deps: seq<string>, cache: set<string>, pm: string, which: string -> bool, i: nat, j: nat)
    requires i < j < |Resolve(deps, cache, pm, which).tokens|
    ensures Resolve(deps, cache, pm, which).tokens[i] != Resolve(deps, cache, pm, which).tokens[j]
  {
    ResolveSound(deps, cache, pm, which);
  }

  /** On yum every resolution emits nothing. */
  lemma {:induction false} ResolveOnYum(deps: seq<string>, cache: set<string>, which: string -> bool)
    ensures Resolve(deps, cache, "yum", which).packages == []
    decreases |deps|
  {
    if deps != [] {
      ResolveOnYum(deps[..|deps| - 1], cache, which);
      NothingMapsOnYum(deps[|deps| - 1]);
    }
  }

  /** Resolving against the cache left by an earlier resolution emits no name the earlier one emitted. */
  lemma SecondResolutionDisjoint(a: seq<string>, b: seq<string>, cache: set<string>, pm: string, which: string -> bool)
    ensures var first := Resolve(a, cache, pm, which);
      var second := Resolve(b, first.cache, pm, which);
      forall x :: x in first.tokens ==> x !in second.tokens
  {
    var first := Resolve(a, cache, pm, which);
    ResolveSound(a, cache, pm, which);
    ResolveSound(b, first.cache, pm, which);
  }

  /** The logical base dependencies of each kind of source build. */
  function BaseTokens(sourceType: string): seq<string> {
    match sourceType
    case "python-git" => ["python3", "python3-venv", "python3-pip", "git"]
    case "ruby-git" => ["ruby", "ruby-bundler", "git"]
    case "go" => ["golang", "git"]
    case "git-bash" => ["git"]
    case "git" => ["git"]
    case "pip" => ["python3", "python3-pip"]
    case "deb" => ["wget"]
    case "wine-binary" => ["wine", "wget", "unzip"]
    case _ => []
  }

  /** The mapped packages of a list of names, in order, unmapped names dropped. */
  function MappedPackages(tokens: seq<string>, pm: string): (r: seq<string>)
    ensures |r| <= |tokens|
    ensures forall p :: p in r ==> exists d :: d in tokens && MapDependencyPackage(d, pm) == Some(p)
    decreases |tokens|
  {
    if tokens == [] then []
    else
      var rest := MappedPackages(tokens[..|tokens| - 1], pm);
      match MapDependencyPackage(tokens[|tokens| - 1], pm)
      case Some(p) => rest + [p]
      case None => rest
  }

  /** A list of names that are all mapped maps one to one. */
  lemma {:induction false} AllMapped(tokens: seq<string>, pm: string)
    requires forall k :: 0 <= k < |tokens| ==> MapDependencyPackage(tokens[k], pm).Some?
    ensures |MappedPackages(tokens, pm)| == |tokens|
    decreases |tokens|
  {
    if tokens != [] {
      AllMapped(tokens[..|tokens| - 1], pm);
    }
  }

  /** Every base dependency is a name of the table. */
  lemma BaseTokensInTable(sourceType: string)
    ensures forall k :: 0 <= k < |BaseTokens(sourceType)| ==> BaseTokens(sourceType)[k] in PkgMap
  {
  }

  /** On the four table managers the base list of every kind of build maps one to one. */
  lemma BaseTokensAllMapped(sourceType: string, pm: string)
    requires pm in ["apt", "dnf", "pacman", "zypper"]
    ensures |MappedPackages(BaseTokens(sourceType), pm)| == |BaseTokens(sourceType)|
  {
    var b := BaseTokens(sourceType);
    BaseTokensInTable(sourceType);
    forall k | 0 <= k < |b|
      ensures MapDependencyPackage(b[k], pm).Some?
    {
      TableColumns(b[k], pm);
    }
    AllMapped(b, pm);
  }

  /** The truthy `type` of a tool's source specification, if any. */
  function TruthySourceType(t: Tool): Option<string> {
    if HasSource(t) && Truthy(SourceType(t)) then SourceType(t) else None
  }

  /** Size and RAM checks of a tool on the host, with the figures compared. */
  datatype ResourceCheck = ResourceCheck(
    diskOk: bool, ramOk: bool,
    diskAvailable: real, diskRequired: real,
    ramAvailable: int, ramRequired: int)

  /** `check_resources`: enough when the free amount is at least the need (non-strict). */
  function CheckResources(t: Tool, sys: SystemInfo): (r: ResourceCheck)
    ensures r.diskOk <==> sys.availableDiskGb >= TotalSizeGb(t)
    ensures r.ramOk <==> sys.availableRamMb >= t.metrics.ramRequiredMb
    ensures r.diskRequired == TotalSizeMb(t) / 1024.0 && r.diskAvailable == sys.availableDiskGb
    ensures r.ramRequired == t.metrics.ramRequiredMb && r.ramAvailable == sys.availableRamMb
  {
    var needGb := (t.metrics.estimatedSizeMb + t.metrics.dependenciesSizeMb) / 1024.0;
    ResourceCheck(
      sys.availableDiskGb >= needGb, sys.availableRamMb >= t.metrics.ramRequiredMb,
      sys.availableDiskGb, needGb, sys.availableRamMb, t.metrics.ramRequiredMb)
  }

  /**
   * The preflight check is looser than the score: a tool that earns any disk
   * or RAM points passes it, and one that fails it earns none of those points.
   */
  lemma ChecksAgreeWithScore(t: Tool, sys: SystemInfo)
    requires TotalSizeMb(t) >= 0.0 && t.metrics.ramRequiredMb >= 0
    ensures Scorer.DiskPoints(t, sys) > 0 ==> CheckResources(t, sys).diskOk
    ensures !CheckResources(t, sys).diskOk ==> Scorer.DiskPoints(t, sys) == 0
    ensures Scorer.RamPoints(t, sys) > 0 ==> CheckResources(t, sys).ramOk
    ensures !CheckResources(t, sys).ramOk ==> Scorer.RamPoints(t, sys) == 0
  {
  }

  /** A resolver for one host: its manager, its PATH, and the names it has dealt with. */
  class DependencyResolver {
    const pm: string
    const which: string -> bool
    var resolvedCache: set<string>

    constructor(pm: string, which: string -> bool)
      ensures this.pm == pm && this.which == which && resolvedCache == {}
    {
      this.pm := pm;
      this.which := which;
      resolvedCache := {};
    }

    /** `resolve_dependencies`: the packages still to install for the tool's dependency list. */
    method ResolveDependencies(t: Tool) returns (deps: seq<string>)
      modifies this
      ensures var r := Resolve(t.dependencies, old(resolvedCache), pm, which);
        deps == r.packages && resolvedCache == r.cache
    {
      deps := [];
      ghost var tokens: seq<string> := [];
      var k := 0;
      while k < |t.dependencies|
        invariant k <= |t.dependencies|
        invariant Resolve(t.dependencies[..k], old(resolvedCache), pm, which) == Resolution(deps, tokens, resolvedCache)
      {
        assert t.dependencies[..k + 1][..k] == t.dependencies[..k];
        var dep := t.dependencies[k];
        if dep !in resolvedCache {
          if which(dep) {
            resolvedCache := resolvedCache + {dep};
          } else {
            var pkg := MapDependencyPackage(dep, pm);
            if pkg.Some? && pkg.value != "" {
              deps := deps + [pkg.value];
              tokens := tokens + [dep];
              resolvedCache := resolvedCache + {dep};
            } else if pkg.Some? {
              MappedNamesNonEmpty(dep, pm);
              assert false;
            }
          }
        }
        k := k + 1;
      }
      assert t.dependencies[..k] == t.dependencies;
    }

    /** `source_base_dependencies`: the mapped base packages of the tool's kind of source build. */
    method SourceBaseDependencies(t: Tool) returns (packages: seq<string>)
      ensures TruthySourceType(t).None? ==> packages == []
      ensures TruthySourceType(t).Some? ==> packages == MappedPackages(BaseTokens(TruthySourceType(t).value), pm)
    {
      packages := [];
      if !HasSource(t) {
        return;
      }
      var sourceType := SourceType(t);
      if !Truthy(sourceType) {
        return;
      }
      var base := BaseTokens(sourceType.value);
      var k := 0;
      while k < |base|
        invariant k <= |base|
        invariant packages == MappedPackages(base[..k], pm)
      {
        assert base[..k + 1][..k] == base[..k];
        var pkg := MapDependencyPackage(base[k], pm);
        if pkg.Some? && pkg.value != "" {
          packages := packages + [pkg.value];
        } else if pkg.Some? {
          MappedNamesNonEmpty(base[k], pm);
          assert false;
        }
        k := k + 1;
      }
      assert base[..k] == base;
    }
  }
}

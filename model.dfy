/**
 * The records the v3 planning engine passes around: a tool of the catalogue,
 * its resource metrics and the snapshot of the host it is planned for.
 */
module Model {
  import opened Wrappers

  /** Where a tool belongs in the menus. */
  datatype ToolCategory = Standard | Custom | Installed

  /** Resource requirements of a tool; sizes in MB. */
  datatype ToolMetrics = ToolMetrics(
    estimatedSizeMb: real,
    dependenciesSizeMb: real,
    ramRequiredMb: int,
    compatibilityScore: int)

  /**
   * A catalogue tool. `packages` maps a package-manager name to the package to
   * install with it. `source` is the source-build specification; an absent
   * specification and an empty one behave alike everywhere in the engine
   * (only its truthiness and its keys are consulted), so both are the empty map.
   */
  datatype Tool = Tool(
    name: string,
    binary: string,
    category: ToolCategory,
    description: string,
    packages: map<string, string>,
    source: map<string, string>,
    dependencies: seq<string>,
    metrics: ToolMetrics,
    kaliMetapackage: Option<string>,
    tags: seq<string>)

  /** A snapshot of the host; RAM in MB, disk in GB. */
  datatype SystemInfo = SystemInfo(
    osName: string,
    osVersion: string,
    osId: string,
    osIdLike: string,
    kernel: string,
    architecture: string,
    cpuCount: int,
    totalRamMb: int,
    availableRamMb: int,
    totalDiskGb: real,
    availableDiskGb: real,
    packageManager: string)

  /** A source specification is usable when it is present and not empty. */
  predicate HasSource(t: Tool) {
    |t.source| > 0
  }

  /** Package plus dependency size of a tool, in MB. */
  function TotalSizeMb(t: Tool): real {
    t.metrics.estimatedSizeMb + t.metrics.dependenciesSizeMb
  }

  /** The same size in GB, as the engine compares it with free disk space. */
  function TotalSizeGb(t: Tool): real {
    TotalSizeMb(t) / 1024.0
  }

  /** The `type` entry of the source specification, when there is one. */
  function SourceType(t: Tool): Option<string> {
    if "type" in t.source then Some(t.source["type"]) else None
  }

  /** `tool.packages.get(pm)`: the package declared for a manager, if any. */
  function DeclaredPackage(t: Tool, pm: string): Option<string> {
    if pm in t.packages then Some(t.packages[pm]) else None
  }

  /** Python truthiness of an optional string: present and not empty. */
  predicate Truthy(o: Option<string>) {
    o.Some? && o.value != ""
  }
}

/**
 * The v2 command-line installer: package-manager detection, the `list`
 * lines, `install` (automatic method choice, native or source install, the
 * state update) and `uninstall` (removal and state update), and the exit
 * codes of `main`.
 *
 * The host is a set of oracles: PATH lookup, whether a shell command
 * succeeds, where a binary was found, and how a source build ended. The
 * state file is a value held by a `StateDir` object that the commands update.
 */
module HakPak2 {
  import opened Wrappers
  import opened Strings
  import opened OsDetector
  import SourceInstall

  /** A tool of the v2 tools map: its native packages, its optional source block and binary name. */
  datatype V2Tool = V2Tool(packages: map<string, string>, source: Option<map<string, string>>, binary: Option<string>)

  /** A record of the state file's "installed" table, e.g. {"method": "native", "path": "/usr/bin/nmap"}. */
  type Meta = map<string, string>

  /** The state document; `installed` is None when the key is absent. */
  datatype V2Registry = V2Registry(installed: Option<map<string, Meta>>)

  /** The state file on disk. */
  datatype V2File = NoFile | Corrupt | Saved(registry: V2Registry)

  /** How a command function ended: returned, asked to exit, raised, or was interrupted. */
  datatype Ending = Returned | Exited(message: string) | Raised(message: string) | Interrupted

  /** The shell commands the v2 installer issues. */
  datatype Cmd =
    | Refresh(pm: string)
    | Install(pm: string, packages: seq<string>)
    | Remove(pm: string, package: string)
    | AutoRemove

  /** The host: root rights, os-release, PATH, /etc/debian_version, commands, binaries found, source builds. */
  datatype Host = Host(
    isRoot: bool,
    osRelease: map<string, string>,
    which: string -> bool,
    debianVersionExists: bool,
    runs: Cmd -> bool,
    locate: string -> Option<string>,
    build: string -> Ending)

  const RootMessage := "This command must be run as root (sudo)"
  const CommandError := "CalledProcessError: command returned non-zero exit status"
  const BinLinkDir := "/usr/local/bin"
  const NativeManagers := ["apt", "dnf", "pacman", "zypper"]
  const Installers := ["apt", "dnf", "yum", "pacman", "zypper"]

  // ---- detect_pm ----

  /** The v2 manager order for a lower-cased distribution ID. */
  function V2Order(distroId: string): (r: seq<string>)
    ensures |r| >= 1
  {
    if distroId in ["ubuntu", "debian", "raspbian", "linuxmint", "pop"] then ["apt"]
    else if distroId in ["fedora", "rhel", "centos", "rocky", "almalinux"] then ["dnf", "yum"]
    else if distroId in ["arch", "manjaro"] then ["pacman"]
    else if distroId in ["opensuse", "opensuse-tumbleweed", "sles"] then ["zypper"]
    else ["apt", "dnf", "yum", "pacman", "zypper"]
  }

  /** v2 orders managers as v3 does, except that it does not know Kali, which gets the full list. */
  lemma V2OrderMatchesV3(distroId: string)
    ensures V2Order(distroId) == (if distroId == "kali" then ["apt", "dnf", "yum", "pacman", "zypper"] else PriorityOrder(distroId))
  {
  }

  /** The manager `detect_pm` settles on, or its exit message. */
  function DetectedPm(h: Host): Result<string> {
    var order := V2Order(DistroId(h.osRelease));
    match FirstOnPath(order, h.which)
    case Some(i) => Success(order[i])
    case None => if h.debianVersionExists then Success("apt") else Failure(NoManagerMessage)
  }

  /** Whatever the host, a detected manager is one the installer table knows. */
  lemma DetectedPmKnown(h: Host)
    requires DetectedPm(h).Success?
    ensures DetectedPm(h).value in Installers
  {
  }

  /** `detect_pm`: the detection loop over the v2 order. */
  method DetectPm(h: Host) returns (r: Result<string>)
    ensures r == DetectedPm(h)
  {
    r := FirstManager(V2Order(DistroId(h.osRelease)), h.which, h.debianVersionExists);
  }

  // ---- cmd_list ----

  /** Some native manager has a package entry (`any(k in packages for k in ...)`). */
  predicate HasNativeEntry(spec: V2Tool) {
    "apt" in spec.packages || "dnf" in spec.packages || "pacman" in spec.packages || "zypper" in spec.packages
  }

  /** The install methods `list` shows for a tool, in order. */
  function Methods(spec: V2Tool): seq<string> {
    var native := if HasNativeEntry(spec) then ["native"] else [];
    native + (if spec.source.Some? then ["source"] else [])
  }

  /**
   * "native" is listed exactly when some native manager has an entry and
   * "source" exactly when a source recipe exists, "native" first, each once.
   */
  lemma MethodsOfTool(spec: V2Tool)
    ensures var r := Methods(spec);
      && ("native" in r <==> exists k :: k in NativeManagers && k in spec.packages)
      && ("source" in r <==> spec.source.Some?)
      && |r| <= 2 && (r != [] && r[0] == "source" ==> |r| == 1)
      && forall k :: 0 <= k < |r| ==> r[k] == "native" || r[k] == "source"
  {
  }

  /** The joined methods, or "unknown" when there are none. */
  function MethodsText(methods: seq<string>): string {
    var joined := Join(methods, ",");
    if joined == "" then "unknown" else joined
  }

  /** One `list` line. */
  function ListLine(name: string, spec: V2Tool): string {
    name + ": methods=" + MethodsText(Methods(spec))
  }

  /** The text after "methods=" is "unknown" exactly when the tool has no method. */
  lemma UnknownIffNoMethod(spec: V2Tool)
    ensures MethodsText(Methods(spec)) == "unknown" <==> Methods(spec) == []
  {
    var m := Methods(spec);
    if m != [] {
      assert Join(m, ",") != "unknown";
    }
  }

  /** `cmd_list`: one line per tool, in increasing name order. */
  method CmdList(tools: map<string, V2Tool>) returns (names: seq<string>, lines: seq<string>)
    ensures StrictlySorted(names) && (forall n :: n in names <==> n in tools) && |names| == |tools|
    ensures |lines| == |names| && forall i :: 0 <= i < |names| ==> names[i] in tools && lines[i] == ListLine(names[i], tools[names[i]])
  {
    names := SortStrings(tools.Keys);
    lines := ListLines(names, tools);
  }

  /** The loop of `cmd_list` over the sorted names. */
  method ListLines(names: seq<string>, tools: map<string, V2Tool>) returns (lines: seq<string>)
    requires forall j :: 0 <= j < |names| ==> names[j] in tools
    ensures |lines| == |names| && forall i :: 0 <= i < |names| ==> lines[i] == ListLine(names[i], tools[names[i]])
  {
    lines := [];
    var i := 0;
    while i < |names|
      invariant 0 <= i <= |names|
      invariant |lines| == i && forall j :: 0 <= j < i ==> lines[j] == ListLine(names[j], tools[names[j]])
    {
      var spec := tools[names[i]];
      var methods := [];
      if HasNativeEntry(spec) {
        methods := methods + ["native"];
      }
      if spec.source.Some? {
        methods := methods + ["source"];
      }
      var line := names[i] + ": methods=" + MethodsText(methods);
      assert line == ListLine(names[i], tools[names[i]]);
      ghost var prev := lines;
      lines := lines + [line];
      forall j | 0 <= j < i + 1
        ensures lines[j] == ListLine(names[j], tools[names[j]])
      {
        if j < i {
          assert lines[j] == prev[j];
        }
      }
      i := i + 1;
    }
  }

  // ---- State file ----

  /** `load_state`: a missing file is an empty registry; an unreadable one raises. */
  function LoadState(f: V2File): (r: Result<V2Registry>)
    ensures f.NoFile? ==> r == Success(V2Registry(Some(map[])))
    ensures f.Corrupt? ==> r.Failure?
    ensures f.Saved? ==> r == Success(f.registry)
  {
    match f
    case NoFile => Success(V2Registry(Some(map[])))
    case Corrupt => Failure("JSONDecodeError")
    case Saved(reg) => Success(reg)
  }

  /** The "installed" table, empty when the key is absent (`state.get("installed", {})`). */
  function InstalledOf(reg: V2Registry): map<string, Meta> {
    reg.installed.GetOr(map[])
  }

  /** `state.setdefault("installed", {})[name] = meta`. */
  function Put(reg: V2Registry, name: string, meta: Meta): (r: V2Registry)
    ensures r.installed.Some? && name in r.installed.value && r.installed.value[name] == meta
    ensures forall n :: n != name ==> (n in InstalledOf(r) <==> n in InstalledOf(reg))
    ensures forall n :: n != name && n in InstalledOf(reg) ==> InstalledOf(r)[n] == InstalledOf(reg)[n]
  {
    V2Registry(Some(InstalledOf(reg)[name := meta]))
  }

  // ---- install_native / install_source ----

  /** What an install step yields: how it ended, the commands that ran, and the record on success. */
  datatype Step = Step(ending: Ending, executed: seq<Cmd>, meta: Option<Meta>)

  /** The commands of `PM_INSTALLERS[pm]`; yum installs with dnf, and every run but dnf's refreshes first. */
  function InstallCommands(pm: string, pkgs: seq<string>): seq<Cmd>
    requires pm in Installers
  {
    if pm == "dnf" || pm == "yum" then [Install("dnf", pkgs)]
    else [Refresh(pm), Install(pm, pkgs)]
  }

  /** The index of the first command that fails. */
  function FirstFailure(cmds: seq<Cmd>, runs: Cmd -> bool): (r: Option<nat>)
    ensures r.Some? ==> r.value < |cmds| && !runs(cmds[r.value]) && forall j :: 0 <= j < r.value ==> runs(cmds[j])
    ensures r.None? ==> forall j :: 0 <= j < |cmds| ==> runs(cmds[j])
    decreases |cmds|
  {
    if cmds == [] then None
    else if !runs(cmds[0]) then Some(0)
    else match FirstFailure(cmds[1..], runs)
      case None => None
      case Some(i) => Some(i + 1)
  }

  /** Run commands in order until one fails (a dry run only prints them). */
  function RunAll(cmds: seq<Cmd>, runs: Cmd -> bool, dryRun: bool): (r: (Ending, seq<Cmd>))
    ensures r.0 == Returned || r.0 == Raised(CommandError)
    ensures r.1 <= cmds
  {
    if dryRun then (Returned, [])
    else match FirstFailure(cmds, runs)
      case None => (Returned, cmds)
      case Some(i) => (Raised(CommandError), cmds[..i + 1])
  }

  /** The binary a tool installs: its `binary` field, else its name. */
  function BinaryOf(name: string, spec: V2Tool): string {
    spec.binary.GetOr(name)
  }

  /** `install_native`. */
  function InstallNative(pm: string, name: string, spec: V2Tool, h: Host, dryRun: bool): (r: Step)
    ensures r.meta.Some? <==> r.ending == Returned
    ensures r.ending == Returned ==> "method" in r.meta.value && r.meta.value["method"] == "native"
    ensures (pm !in spec.packages || spec.packages[pm] == "") ==>
      r == Step(Exited("No native package mapping for " + name + " on " + pm), [], None)
  {
    var pkg := if pm in spec.packages then spec.packages[pm] else "";
    if pkg == "" then Step(Exited("No native package mapping for " + name + " on " + pm), [], None)
    else if pm !in Installers then Step(Raised("KeyError: '" + pm + "'"), [], None)
    else
      var run := RunAll(InstallCommands(pm, [pkg]), h.runs, dryRun);
      if run.0 != Returned then Step(run.0, run.1, None)
      else
        var binary := BinaryOf(name, spec);
        var path := match h.locate(binary) case Some(p) => p case None => "/usr/bin/" + binary;
        Step(Returned, run.1, Some(map["method" := "native", "path" := path]))
  }

  /** The `type` of a source block, if any (`spec.get("source", {}).get("type")`). */
  function KindOf(spec: V2Tool): Option<string> {
    var src := spec.source.GetOr(map[]);
    if "type" in src then Some(src["type"]) else None
  }

  /** `install_source`: go and python-git builds; any other kind exits. */
  function InstallSource(name: string, spec: V2Tool, h: Host): (r: Step)
    ensures r.executed == []
    ensures r.meta.Some? <==> r.ending == Returned
    ensures r.ending == Returned ==>
              && "method" in r.meta.value
              && (r.meta.value["method"] == "source-go" <==> KindOf(spec) == Some("go"))
              && (r.meta.value["method"] == "source-python" <==> KindOf(spec) == Some("python-git"))
    ensures KindOf(spec) != Some("go") && KindOf(spec) != Some("python-git") ==>
      r.ending == Exited("Unsupported source type for " + name + ": " + SourceInstall.TypeText(KindOf(spec)))
  {
    var src := spec.source.GetOr(map[]);
    var kind := KindOf(spec);
    var binary := BinaryOf(name, spec);
    if kind == Some("go") then
      if "module" !in src then Step(Raised("KeyError: 'module'"), [], None)
      else if h.build(name) != Returned then Step(h.build(name), [], None)
      else Step(Returned, [], Some(map["method" := "source-go", "path" := BinLinkDir + "/" + binary]))
    else if kind == Some("python-git") then
      if "repo" !in src then Step(Raised("KeyError: 'repo'"), [], None)
      else if h.build(name) != Returned then Step(h.build(name), [], None)
      else Step(Returned, [], Some(map["method" := "source-python", "path" := BinLinkDir + "/" + binary]))
    else Step(Exited("Unsupported source type for " + name + ": " + SourceInstall.TypeText(kind)), [], None)
  }

  // ---- cmd_install ----

  /** The arguments of `install`. */
  datatype InstallArgs = InstallArgs(tool: string, how: string, dryRun: bool)

  /** The "auto" choice: native when the manager has a package entry, else source when declared, else none. */
  function AutoMethod(pm: string, spec: V2Tool): (r: Option<string>)
    ensures r == Some("native") <==> pm in spec.packages
    ensures r == Some("source") <==> pm !in spec.packages && spec.source.Some?
    ensures r.None? <==> pm !in spec.packages && spec.source.None?
  {
    if pm in spec.packages then Some("native")
    else if spec.source.Some? then Some("source")
    else None
  }

  /** A command's effect: how it ended, the state file afterwards, and the commands that ran. */
  datatype Run = Run(ending: Ending, file: V2File, executed: seq<Cmd>)

  /** `cmd_install` as a value. */
  function InstallRun(a: InstallArgs, h: Host, tools: map<string, V2Tool>, file: V2File): Run {
    if !h.isRoot then Run(Exited(RootMessage), file, [])
    else match DetectedPm(h)
      case Failure(m) => Run(Exited(m), file, [])
      case Success(pm) =>
        if a.tool !in tools then Run(Exited("Unknown tool: " + a.tool + ". Try 'hakpak2 list'."), file, [])
        else
          var spec := tools[a.tool];
          var how := if a.how == "auto" then AutoMethod(pm, spec) else Some(a.how);
          if how.None? then Run(Exited("No install method for " + a.tool + " on this system"), file, [])
          else match LoadState(file)
            case Failure(m) => Run(Raised(m), file, [])
            case Success(state) =>
              var step :=
                if how.value == "native" then InstallNative(pm, a.tool, spec, h, a.dryRun)
                else if how.value == "source" then InstallSource(a.tool, spec, h)
                else Step(Exited("method must be auto|native|source"), [], None);
              if step.ending != Returned then Run(step.ending, file, step.executed)
              else if a.dryRun then Run(Returned, file, step.executed)
              else Run(Returned, Saved(Put(state, a.tool, step.meta.value)), step.executed)
  }

  /** A dry run, or any run that does not finish, leaves the state file as it was. */
  lemma InstallWritesOnlyOnSuccess(a: InstallArgs, h: Host, tools: map<string, V2Tool>, file: V2File)
    ensures var r := InstallRun(a, h, tools, file);
      (a.dryRun || r.ending != Returned) ==> r.file == file
  {
  }

  /** A finished install records only the tool, leaving every other record as it was. */
  lemma InstallRecordsOnlyTheTool(a: InstallArgs, h: Host, tools: map<string, V2Tool>, file: V2File)
    requires !a.dryRun && InstallRun(a, h, tools, file).ending == Returned
    ensures var r := InstallRun(a, h, tools, file);
      r.file.Saved? && file != Corrupt && a.tool in InstalledOf(r.file.registry)
      && var before := InstalledOf(LoadState(file).value);
         var after := InstalledOf(r.file.registry);
         forall n :: n != a.tool ==> (n in after <==> n in before) && (n in before ==> after[n] == before[n])
  {
    var r := InstallRun(a, h, tools, file);
    var pm := DetectedPm(h).value;
    var spec := tools[a.tool];
    var how := if a.how == "auto" then AutoMethod(pm, spec) else Some(a.how);
    var step :=
      if how.value == "native" then InstallNative(pm, a.tool, spec, h, a.dryRun)
      else if how.value == "source" then InstallSource(a.tool, spec, h)
      else Step(Exited("method must be auto|native|source"), [], None);
    assert r.file == Saved(Put(LoadState(file).value, a.tool, step.meta.value));
  }

  /** The recorded method of a finished "auto" install follows the automatic choice. */
  lemma AutoInstallRecordsChoice(a: InstallArgs, h: Host, tools: map<string, V2Tool>, file: V2File)
    requires a.how == "auto" && !a.dryRun && InstallRun(a, h, tools, file).ending == Returned
    ensures var r := InstallRun(a, h, tools, file);
      var pm := DetectedPm(h).value;
      var m := InstalledOf(r.file.registry)[a.tool]["method"];
      (m == "native" <==> pm in tools[a.tool].packages)
      && (m != "native" ==> m == "source-go" || m == "source-python")
  {
  }

  /** Without root rights nothing runs and nothing is written. */
  lemma InstallNeedsRoot(a: InstallArgs, h: Host, tools: map<string, V2Tool>, file: V2File)
    requires !h.isRoot
    ensures InstallRun(a, h, tools, file) == Run(Exited(RootMessage), file, [])
  {
  }

  // ---- cmd_uninstall ----

  /** The removal commands for a package; dnf and yum remove with themselves, apt also cleans up. */
  function RemoveCommands(pm: string, pkg: string): seq<Cmd> {
    if pm == "apt" then [Remove("apt", pkg), AutoRemove]
    else if pm in ["dnf", "yum", "pacman", "zypper"] then [Remove(pm, pkg)]
    else []
  }

  /** `cmd_uninstall` as a value. */
  function UninstallRun(name: string, h: Host, tools: map<string, V2Tool>, file: V2File): Run {
    if !h.isRoot then Run(Exited(RootMessage), file, [])
    else match DetectedPm(h)
      case Failure(m) => Run(Exited(m), file, [])
      case Success(pm) =>
        if name !in tools then Run(Exited("Unknown tool: " + name), file, [])
        else
          var spec := tools[name];
          match LoadState(file)
          case Failure(m) => Run(Raised(m), file, [])
          case Success(state) =>
            var installed := InstalledOf(state);
            var meta := if name in installed then installed[name] else map[];
            var recorded := if "method" in meta then Some(meta["method"]) else None;
            var pkg := if pm in spec.packages then spec.packages[pm] else "";
            var removal :=
              if (recorded == Some("native") || pm in spec.packages) && pkg != "" then RunAll(RemoveCommands(pm, pkg), h.runs, false)
              else (Returned, []);
            if removal.0 != Returned then Run(removal.0, file, removal.1)
            else if name in installed then Run(Returned, Saved(V2Registry(Some(installed - {name}))), removal.1)
            else Run(Returned, file, removal.1)
  }

  /** A finished uninstall leaves the tool unrecorded and every other record as it was. */
  lemma UninstallForgetsOnlyTheTool(name: string, h: Host, tools: map<string, V2Tool>, file: V2File)
    requires UninstallRun(name, h, tools, file).ending == Returned
    ensures var r := UninstallRun(name, h, tools, file);
      file != Corrupt
      && var before := InstalledOf(LoadState(file).value);
         && (name in before <==> r.file != file)
         && (r.file != file ==>
               && r.file.Saved? && name !in InstalledOf(r.file.registry)
               && forall n :: n != name ==> (n in InstalledOf(r.file.registry) <==> n in before))
  {
  }

  /** Uninstalling again after a finished uninstall writes nothing. */
  lemma UninstallIdempotent(name: string, h: Host, tools: map<string, V2Tool>, file: V2File)
    requires UninstallRun(name, h, tools, file).ending == Returned
    ensures var once := UninstallRun(name, h, tools, file);
      UninstallRun(name, h, tools, once.file).file == once.file
  {
    var once := UninstallRun(name, h, tools, file);
    var before := InstalledOf(LoadState(file).value);
    if name in before {
      assert name !in InstalledOf(once.file.registry);
    }
  }

  /** A failed removal command leaves the state file as it was. */
  lemma UninstallFailureWritesNothing(name: string, h: Host, tools: map<string, V2Tool>, file: V2File)
    requires UninstallRun(name, h, tools, file).ending != Returned
    ensures UninstallRun(name, h, tools, file).file == file
  {
  }

  // ---- The commands on a state file ----

  /** The directory holding the v2 state file. */
  class StateDir {
    var file: V2File

    constructor(f: V2File)
      ensures file == f
    {
      file := f;
    }

    /** `cmd_install`. */
    method CmdInstall(a: InstallArgs, h: Host, tools: map<string, V2Tool>) returns (ending: Ending, executed: seq<Cmd>)
      modifies this
      ensures InstallRun(a, h, tools, old(file)) == Run(ending, file, executed)
    {
      if !h.isRoot {
        return Exited(RootMessage), [];
      }
      var detected := DetectPm(h);
      if detected.Failure? {
        return Exited(detected.error), [];
      }
      var pm := detected.value;
      if a.tool !in tools {
        return Exited("Unknown tool: " + a.tool + ". Try 'hakpak2 list'."), [];
      }
      var spec := tools[a.tool];
      var how := a.how;
      if how == "auto" {
        var chosen := AutoMethod(pm, spec);
        if chosen.None? {
          return Exited("No install method for " + a.tool + " on this system"), [];
        }
        how := chosen.value;
      }
      var loaded := LoadState(file);
      if loaded.Failure? {
        return Raised(loaded.error), [];
      }
      var step: Step;
      if how == "native" {
        step := InstallNative(pm, a.tool, spec, h, a.dryRun);
      } else if how == "source" {
        step := InstallSource(a.tool, spec, h);
      } else {
        step := Step(Exited("method must be auto|native|source"), [], None);
      }
      if step.ending != Returned {
        return step.ending, step.executed;
      }
      if !a.dryRun {
        file := Saved(Put(loaded.value, a.tool, step.meta.value));
      }
      return Returned, step.executed;
    }

    /** `cmd_uninstall`. */
    method CmdUninstall(name: string, h: Host, tools: map<string, V2Tool>) returns (ending: Ending, executed: seq<Cmd>)
      modifies this
      ensures UninstallRun(name, h, tools, old(file)) == Run(ending, file, executed)
    {
      if !h.isRoot {
        return Exited(RootMessage), [];
      }
      var detected := DetectPm(h);
      if detected.Failure? {
        return Exited(detected.error), [];
      }
      var pm := detected.value;
      if name !in tools {
        return Exited("Unknown tool: " + name), [];
      }
      var spec := tools[name];
      var loaded := LoadState(file);
      if loaded.Failure? {
        return Raised(loaded.error), [];
      }
      var installed := InstalledOf(loaded.value);
      var meta := if name in installed then installed[name] else map[];
      var recorded := if "method" in meta then Some(meta["method"]) else None;
      var pkg := if pm in spec.packages then spec.packages[pm] else "";
      executed := [];
      if (recorded == Some("native") || pm in spec.packages) && pkg != "" {
        var removal := RunAll(RemoveCommands(pm, pkg), h.runs, false);
        executed := removal.1;
        if removal.0 != Returned {
          return removal.0, executed;
        }
      }
      if name in installed {
        file := Saved(V2Registry(Some(installed - {name})));
      }
      ending := Returned;
    }
  }

  // ---- main ----

  /** What `main` does with a command's ending: an exit code, or the exit request passed on. */
  datatype MainResult = ExitCode(code: int) | ExitRequest(message: string)

  /** `main`: 0 on return, 130 when interrupted, 1 on any other error; exit requests propagate. */
  function Main(e: Ending): (r: MainResult)
    ensures r == ExitCode(0) <==> e == Returned
    ensures r == ExitCode(130) <==> e == Interrupted
    ensures r == ExitCode(1) <==> e.Raised?
    ensures r.ExitRequest? <==> e.Exited?
    ensures e.Exited? ==> r.message == e.message
  {
    match e
    case Returned => ExitCode(0)
    case Exited(m) => ExitRequest(m)
    case Raised(_) => ExitCode(1)
    case Interrupted => ExitCode(130)
  }
}

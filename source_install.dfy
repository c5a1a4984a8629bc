/**
 * Building a tool from source: the dispatch on the specification's `type`
 * and the fields each kind of build requires. The build itself (cloning,
 * virtual environments, downloads, wrappers, links) is the oracle `build`.
 */
module SourceInstall {
  import opened Wrappers
  import opened Model
  import Resolver
  import opened Installer

  /** The kinds of source build the installer knows. */
  const KnownTypes: seq<string> := ["go", "python-git", "ruby-git", "git-bash", "git", "pip", "deb", "wine-binary"]

  /** A specification field with a non-empty value (Python truthiness of `source.get(key)`). */
  predicate Field(t: Tool, key: string) {
    key in t.source && t.source[key] != ""
  }

  /** The error a kind of build raises for a missing required field, checked in the source's order. */
  function MissingField(t: Tool, kind: string): (r: Option<string>)
    ensures kind == "go" ==> (r.None? <==> Field(t, "module"))
    ensures kind in ["python-git", "ruby-git", "git"] ==> (r.None? <==> Field(t, "repo"))
    ensures kind == "git-bash" ==> (r.None? <==> Field(t, "repo") && Field(t, "entry"))
    ensures kind == "pip" ==> (r.None? <==> Field(t, "package") || Field(t, "module"))
    ensures kind == "deb" ==> (r.None? <==> Field(t, "url"))
    ensures kind == "wine-binary" ==> (r.None? <==> Field(t, "url") && Field(t, "file") && Field(t, "binary_path"))
  {
    match kind
    case "go" => if Field(t, "module") then None else Some("Missing Go module for source install")
    case "python-git" => if Field(t, "repo") then None else Some("Missing repo for python-git source install")
    case "ruby-git" => if Field(t, "repo") then None else Some("Missing repo for ruby-git source install")
    case "git-bash" =>
      if !Field(t, "repo") then Some("Missing repo for git-bash source install")
      else if !Field(t, "entry") then Some("Missing entry for git-bash source install")
      else None
    case "git" => if Field(t, "repo") then None else Some("Missing repo for git source install")
    case "pip" => if Field(t, "package") || Field(t, "module") then None else Some("Missing package for pip source install")
    case "deb" => if Field(t, "url") then None else Some("Missing URL for deb source install")
    case "wine-binary" =>
      if Field(t, "url") && Field(t, "file") && Field(t, "binary_path") then None
      else Some("Missing fields for wine-binary source install")
    case _ => None
  }

  /**
   * How a source build ended: built; failed with a message; a package
   * command of the go toolchain install failed (the command error); or the
   * toolchain install asked to exit (an unsupported package manager).
   */
  datatype BuildOutcome = Built | BuildFailed(message: string) | CommandRaised(command: Command) | ExitRequested(message: string)

  /** What a source build consults on the host: PATH lookup, and whether the build proper ends without an exception. */
  datatype Builder = Builder(which: string -> bool, builds: Tool -> bool)

  const NoSourceMessage := "No source installation method defined"

  /** Python's rendering of the optional type in the "unknown type" message. */
  function TypeText(o: Option<string>): string {
    if o.Some? then o.value else "None"
  }

  /** The go toolchain package per manager; any other manager gets "golang". */
  function GoPackage(pm: string): (r: string)
    ensures r == (if pm in {"pacman", "zypper"} then "go" else "golang")
  {
    var table := map["apt" := "golang", "dnf" := "golang", "pacman" := "go", "zypper" := "go"];
    if pm in table then table[pm] else "golang"
  }

  /**
   * The go toolchain step of a go build: nothing to do when `go` is on PATH;
   * otherwise a fresh installer (index not yet refreshed) installs the
   * toolchain package.
   */
  function GoToolchain(pm: string, runs: Command -> bool, b: Builder): (r: InstallOutcome)
    ensures b.which("go") ==> r == InstallOutcome.Installed
  {
    if b.which("go") then InstallOutcome.Installed
    else InstallAttempt(pm, false, [GoPackage(pm)], runs).outcome
  }

  /** The step that precedes the field check: the go toolchain for a go build, nothing for the other kinds. */
  function Preparation(kind: string, pm: string, runs: Command -> bool, b: Builder): InstallOutcome {
    if kind == "go" then GoToolchain(pm, runs, b) else InstallOutcome.Installed
  }

  /**
   * `install_from_source`: no specification fails; an unknown type fails
   * naming it; a go build installs the toolchain first when `go` is not on
   * PATH, and a failure there ends the build; a known type with a missing
   * field fails with that field's message; otherwise the build decides.
   */
  function InstallFromSource(t: Tool, pm: string, runs: Command -> bool, b: Builder): (r: BuildOutcome)
    ensures r == Built ==> HasSource(t) && SourceType(t).Some? && SourceType(t).value in KnownTypes
    ensures r == Built ==> Preparation(SourceType(t).value, pm, runs, b) == InstallOutcome.Installed
                           && MissingField(t, SourceType(t).value).None? && b.builds(t)
    ensures !HasSource(t) ==> r == BuildFailed(NoSourceMessage)
    ensures HasSource(t) && (SourceType(t).None? || SourceType(t).value !in KnownTypes) ==>
      r == BuildFailed("Unknown source type: " + TypeText(SourceType(t)))
    ensures HasSource(t) && SourceType(t).Some? && SourceType(t).value in KnownTypes ==>
      var prep := Preparation(SourceType(t).value, pm, runs, b);
      && (prep.CommandFailed? ==> r == CommandRaised(prep.command))
      && (prep.Unsupported? ==> r == ExitRequested(prep.message))
      && (prep == InstallOutcome.Installed && MissingField(t, SourceType(t).value).Some? ==> r == BuildFailed(MissingField(t, SourceType(t).value).value))
    ensures r.CommandRaised? || r.ExitRequested? ==> SourceType(t) == Some("go") && !b.which("go")
  {
    if !HasSource(t) then BuildFailed(NoSourceMessage)
    else
      var kind := SourceType(t);
      if kind.None? || kind.value !in KnownTypes then BuildFailed("Unknown source type: " + TypeText(kind))
      else match Preparation(kind.value, pm, runs, b)
        case CommandFailed(c) => CommandRaised(c)
        case Unsupported(message) => ExitRequested(message)
        case Installed =>
          match MissingField(t, kind.value)
          case Some(msg) => BuildFailed(msg)
          case None => if b.builds(t) then Built else BuildFailed("build failed")
  }

  /**
   * `install_from_source` as a procedure: the go toolchain goes through an
   * installer of its own, then the field check, then the build.
   */
  method BuildFromSource(t: Tool, pm: string, runs: Command -> bool, b: Builder) returns (r: BuildOutcome)
    ensures r == InstallFromSource(t, pm, runs, b)
  {
    if !HasSource(t) {
      return BuildFailed(NoSourceMessage);
    }
    var kind := SourceType(t);
    if kind.None? || kind.value !in KnownTypes {
      return BuildFailed("Unknown source type: " + TypeText(kind));
    }
    if kind.value == "go" && !b.which("go") {
      var installer := new PackageInstaller(pm, runs);
      var out := installer.InstallPackages([GoPackage(pm)]);
      if out.CommandFailed? {
        return CommandRaised(out.command);
      }
      if out.Unsupported? {
        return ExitRequested(out.message);
      }
    }
    var missing := MissingField(t, kind.value);
    if missing.Some? {
      return BuildFailed(missing.value);
    }
    r := if b.builds(t) then Built else BuildFailed("build failed");
  }

  /**
   * A go build without `go` on PATH installs the toolchain before it looks at
   * `module`: when that install fails, the build fails with the command error
   * even though the module is missing.
   */
  lemma ToolchainBeforeModule(t: Tool, pm: string, runs: Command -> bool, b: Builder)
    requires HasSource(t) && SourceType(t) == Some("go") && !b.which("go")
    requires InstallAttempt(pm, false, [GoPackage(pm)], runs).outcome.CommandFailed?
    ensures InstallFromSource(t, pm, runs, b) == CommandRaised(InstallAttempt(pm, false, [GoPackage(pm)], runs).outcome.command)
  {
  }

  /** Only a go build uses the package manager, and only when `go` is not on PATH. */
  lemma OtherKindsUseNoManager(t: Tool, pm: string, runs: Command -> bool, runs': Command -> bool, b: Builder)
    requires SourceType(t) != Some("go") || b.which("go")
    ensures InstallFromSource(t, pm, runs, b) == InstallFromSource(t, pm, runs', b)
  {
  }

  /** The kinds of build that can succeed are exactly those with base dependencies. */
  lemma KnownTypesHaveBaseDependencies(kind: string)
    ensures kind in KnownTypes <==> Resolver.BaseTokens(kind) != []
  {
  }

  /** A complete specification of a known kind builds exactly when the build succeeds. */
  lemma CompleteSpecificationBuilds(t: Tool, pm: string, runs: Command -> bool, b: Builder)
    requires HasSource(t) && SourceType(t).Some? && SourceType(t).value in KnownTypes
    requires MissingField(t, SourceType(t).value).None? && Preparation(SourceType(t).value, pm, runs, b) == InstallOutcome.Installed
    ensures InstallFromSource(t, pm, runs, b) == Built <==> b.builds(t)
  {
  }
}

/**
 * Whether a package can be installed, decided from what the manager's query
 * command prints and returns. The command runs are an oracle `probe` from a
 * query to its captured output.
 */
module Probe {
  import opened Strings

  /** The query commands: `apt-cache policy`, `apt-cache show`, `dnf|yum list available`, `pacman -Si`, `zypper info`. */
  datatype Query =
    | AptPolicy(pkg: string)
    | AptShow(pkg: string)
    | ListAvailable(pm: string, pkg: string)
    | PacmanInfo(pkg: string)
    | ZypperInfo(pkg: string)

  /** Captured standard output, standard error (empty when there was none) and exit status. */
  datatype ProbeResult = ProbeResult(stdout: string, stderr: string, returnCode: int)

  /** Both streams, output first, as the classifier reads them. */
  function Output(r: ProbeResult): string {
    r.stdout + r.stderr
  }

  const UnableToLocate := "Unable to locate package"

  /** The verdict of `apt-cache show` when `apt-cache policy` named no candidate. */
  predicate AptShowSaysAvailable(show: ProbeResult) {
    var out := Output(show);
    if Contains(out, "No packages found") || Contains(out, UnableToLocate) then false
    else show.returnCode == 0 && Strip(out) != ""
  }

  /** The apt verdict: the policy output decides when it names a candidate or an error, else `apt-cache show` decides. */
  predicate AptAvailable(policy: ProbeResult, show: ProbeResult) {
    var out := Output(policy);
    if Contains(out, UnableToLocate) || Contains(out, "N: " + UnableToLocate) then false
    else if Contains(out, "Candidate: (none)") then false
    else if Contains(out, "Candidate:") then true
    else AptShowSaysAvailable(show)
  }

  /** `is_package_available` for the host's manager. */
  predicate IsPackageAvailable(pm: string, pkg: string, probe: Query -> ProbeResult) {
    if pm == "apt" then AptAvailable(probe(AptPolicy(pkg)), probe(AptShow(pkg)))
    else if pm == "dnf" || pm == "yum" then
      var r := probe(ListAvailable(pm, pkg));
      !Contains(Output(r), "No matching Packages") && r.returnCode == 0
    else if pm == "pacman" then
      var r := probe(PacmanInfo(pkg));
      !(Contains(Output(r), "error: package") && Contains(Output(r), "was not found")) && r.returnCode == 0
    else if pm == "zypper" then
      var r := probe(ZypperInfo(pkg));
      !Contains(Lower(Output(r)), "not found") && r.returnCode == 0
    else true
  }

  /** The apt verdict in one statement: neither negative phrase, and either a candidate line or a positive `apt-cache show`. */
  lemma {:induction false} AptAvailableIff(policy: ProbeResult, show: ProbeResult)
    ensures AptAvailable(policy, show) <==>
      && !Contains(Output(policy), UnableToLocate)
      && !Contains(Output(policy), "Candidate: (none)")
      && (Contains(Output(policy), "Candidate:") || AptShowSaysAvailable(show))
  {
    var out := Output(policy);
    if Contains(out, "N: " + UnableToLocate) {
      ContainsSuffixPart(out, "N: ", UnableToLocate);
    }
  }

  /** A candidate line answers without consulting `apt-cache show`. */
  lemma AptCandidateDecides(policy: ProbeResult, show1: ProbeResult, show2: ProbeResult)
    requires Contains(Output(policy), "Candidate:")
    ensures AptAvailable(policy, show1) == AptAvailable(policy, show2)
  {
  }

  /** On the managers that check a status, a package counts as available only when the query succeeded. */
  lemma AvailableNeedsSuccess(pm: string, pkg: string, probe: Query -> ProbeResult)
    requires pm in ["dnf", "yum", "pacman", "zypper"]
    requires IsPackageAvailable(pm, pkg, probe)
    ensures pm in ["dnf", "yum"] ==> probe(ListAvailable(pm, pkg)).returnCode == 0
    ensures pm == "pacman" ==> probe(PacmanInfo(pkg)).returnCode == 0
    ensures pm == "zypper" ==> probe(ZypperInfo(pkg)).returnCode == 0
  {
  }

  /** zypper's "not found" is matched in any letter case. */
  lemma {:induction false} ZypperNotFoundAnyCase(pkg: string, probe: Query -> ProbeResult, phrase: string)
    requires Lower(phrase) == "not found"
    requires Contains(Output(probe(ZypperInfo(pkg))), phrase)
    ensures !IsPackageAvailable("zypper", pkg, probe)
  {
    ContainsLower(Output(probe(ZypperInfo(pkg))), phrase);
  }

  /** pacman's negative verdict needs both phrases; one alone leaves the status to decide. */
  lemma PacmanNeedsBothPhrases(pkg: string, probe: Query -> ProbeResult)
    requires !Contains(Output(probe(PacmanInfo(pkg))), "was not found")
    ensures IsPackageAvailable("pacman", pkg, probe) <==> probe(PacmanInfo(pkg)).returnCode == 0
  {
  }

  /** A manager the classifier does not know is assumed to have every package. */
  lemma UnknownManagerAvailable(pm: string, pkg: string, probe: Query -> ProbeResult)
    requires pm !in ["apt", "dnf", "yum", "pacman", "zypper"]
    ensures IsPackageAvailable(pm, pkg, probe)
  {
  }
}

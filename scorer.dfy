/**
 * The compatibility score of a tool on a host: a 0 to 100 point sum of a
 * package-manager part (40), a distribution part (30), a RAM part (15) and a
 * disk part (15), and its colour tier on screen.
 */
module Scorer {
  import opened Model

  /** 40 if the active manager has a package, else 20 if the tool builds from source, else 0. */
  function PackageManagerPoints(t: Tool, sys: SystemInfo): (p: int)
    ensures p == 40 <==> sys.packageManager in t.packages
    ensures p == 20 <==> sys.packageManager !in t.packages && HasSource(t)
    ensures p == 0 <==> sys.packageManager !in t.packages && !HasSource(t)
  {
    if sys.packageManager in t.packages then 40
    else if HasSource(t) then 20
    else 0
  }

  /** The manager whose package earns a mainstream distribution its bonus, if the distribution has one. */
  function NativeManagerOf(osId: string): string {
    if osId == "ubuntu" || osId == "debian" then "apt"
    else if osId == "arch" || osId == "manjaro" then "pacman"
    else if osId == "fedora" || osId == "rhel" || osId == "centos" then "dnf"
    else ""
  }

  predicate SecurityDistro(osId: string) {
    osId == "kali" || osId == "parrot"
  }

  /**
   * 30 on a security distribution; 25 on a mainstream distribution when its
   * own manager's key is among the packages; otherwise 0.
   */
  function OsPoints(t: Tool, sys: SystemInfo): (p: int)
    ensures SecurityDistro(sys.osId) ==> p == 30
    ensures !SecurityDistro(sys.osId) ==>
      (p == 25 <==> NativeManagerOf(sys.osId) != "" && NativeManagerOf(sys.osId) in t.packages)
    ensures p == 30 || p == 25 || p == 0
  {
    var id := sys.osId;
    if id == "kali" || id == "parrot" then 30
    else if id == "ubuntu" || id == "debian" then (if "apt" in t.packages then 25 else 0)
    else if id == "arch" || id == "manjaro" then (if "pacman" in t.packages then 25 else 0)
    else if id == "fedora" || id == "rhel" || id == "centos" then (if "dnf" in t.packages then 25 else 0)
    else 0
  }

  /** 15 if free RAM exceeds twice the requirement, 10 if it exceeds it, else 0 (strict comparisons). */
  function RamPoints(t: Tool, sys: SystemInfo): (p: int)
    ensures p == 15 <==> sys.availableRamMb > 2 * t.metrics.ramRequiredMb
    ensures p == 10 <==> t.metrics.ramRequiredMb < sys.availableRamMb <= 2 * t.metrics.ramRequiredMb
    ensures p == 0 <==> sys.availableRamMb <= t.metrics.ramRequiredMb && sys.availableRamMb <= 2 * t.metrics.ramRequiredMb
  {
    var req := t.metrics.ramRequiredMb;
    if sys.availableRamMb > req * 2 then 15
    else if sys.availableRamMb > req then 10
    else 0
  }

  /** 15 if free disk exceeds three times the need in GB, 10 if it exceeds it, else 0 (strict comparisons). */
  function DiskPoints(t: Tool, sys: SystemInfo): (p: int)
    ensures p == 15 <==> sys.availableDiskGb > 3.0 * TotalSizeGb(t)
    ensures p == 10 <==> TotalSizeGb(t) < sys.availableDiskGb <= 3.0 * TotalSizeGb(t)
    ensures p == 0 <==> sys.availableDiskGb <= TotalSizeGb(t) && sys.availableDiskGb <= 3.0 * TotalSizeGb(t)
  {
    var needGb := TotalSizeGb(t);
    if sys.availableDiskGb > needGb * 3.0 then 15
    else if sys.availableDiskGb > needGb then 10
    else 0
  }

  /** `score_tool`: the four parts summed, capped at 100. */
  function ScoreTool(t: Tool, sys: SystemInfo): (score: int)
    ensures 0 <= score <= 100
    ensures score == PackageManagerPoints(t, sys) + OsPoints(t, sys) + RamPoints(t, sys) + DiskPoints(t, sys)
  {
    var sum := PackageManagerPoints(t, sys) + OsPoints(t, sys) + RamPoints(t, sys) + DiskPoints(t, sys);
    if sum < 100 then sum else 100
  }

  /** Exactly matching the requirement earns no resource points when the requirement is not negative. */
  lemma ExactResourcesEarnNothing(t: Tool, sys: SystemInfo)
    requires t.metrics.ramRequiredMb >= 0 && TotalSizeMb(t) >= 0.0
    requires sys.availableRamMb == t.metrics.ramRequiredMb
    requires sys.availableDiskGb == TotalSizeGb(t)
    ensures RamPoints(t, sys) == 0 && DiskPoints(t, sys) == 0
  {
  }

  /** More free RAM never lowers the score. */
  lemma ScoreMonotoneInRam(t: Tool, sys: SystemInfo, more: int)
    requires more >= sys.availableRamMb
    ensures ScoreTool(t, sys) <= ScoreTool(t, sys.(availableRamMb := more))
  {
  }

  /** More free disk never lowers the score. */
  lemma ScoreMonotoneInDisk(t: Tool, sys: SystemInfo, more: real)
    requires more >= sys.availableDiskGb
    ensures ScoreTool(t, sys) <= ScoreTool(t, sys.(availableDiskGb := more))
  {
  }

  /** Declaring a package for one more manager never lowers the score. */
  lemma ScoreMonotoneInPackages(t: Tool, sys: SystemInfo, pm: string, pkg: string)
    ensures ScoreTool(t, sys) <= ScoreTool(t.(packages := t.packages[pm := pkg]), sys)
  {
  }

  /** The score depends on nothing but the packages' keys, the source's presence, the metrics and the host. */
  lemma ScoreIgnoresDescription(t: Tool, sys: SystemInfo, name: string, descr: string, tags: seq<string>)
    ensures ScoreTool(t, sys) == ScoreTool(t.(name := name, description := descr, tags := tags), sys)
  {
  }

  /** The top score of 100 needs a native package, a good distribution and ample resources. */
  lemma FullScore(t: Tool, sys: SystemInfo)
    requires ScoreTool(t, sys) == 100
    ensures sys.packageManager in t.packages
    ensures SecurityDistro(sys.osId)
    ensures sys.availableRamMb > 2 * t.metrics.ramRequiredMb
    ensures sys.availableDiskGb > 3.0 * TotalSizeGb(t)
  {
  }

  /** The colour a score is shown in. */
  datatype Tier = Green | Yellow | Red

  function TierOf(score: int): (r: Tier)
    ensures r == Green <==> score >= 80
    ensures r == Yellow <==> 60 <= score < 80
    ensures r == Red <==> score < 60
  {
    if score >= 80 then Green else if score >= 60 then Yellow else Red
  }

  /** The terminal colour code of a tier (bold green, bold yellow, bold red). */
  function ColourCode(tier: Tier): string {
    match tier
    case Green => "1;32"
    case Yellow => "1;33"
    case Red => "1;31"
  }

  /** The decimal numeral of a natural number. */
  function NatToString(n: nat): (r: string)
    ensures |r| >= 1
    ensures forall i :: 0 <= i < |r| ==> '0' <= r[i] <= '9'
    decreases n
  {
    var d := ['0' + (n % 10) as char];
    if n < 10 then d else NatToString(n / 10) + d
  }

  /** The value a decimal numeral denotes. */
  function NumeralValue(s: string): int
    decreases |s|
  {
    if s == [] then 0 else 10 * NumeralValue(s[..|s| - 1]) + (s[|s| - 1] as int - '0' as int)
  }

  /** Printing a number and reading it back gives the number. */
  lemma {:induction false} NatToStringRoundTrip(n: nat)
    ensures NumeralValue(NatToString(n)) == n
    decreases n
  {
    var r := NatToString(n);
    if n >= 10 {
      NatToStringRoundTrip(n / 10);
      assert r[..|r| - 1] == NatToString(n / 10);
    }
  }

  /** Python's `f"{n}"` for an integer. */
  function IntToString(n: int): (r: string)
    ensures n >= 0 ==> r == NatToString(n)
    ensures n < 0 ==> r == "-" + NatToString(-n)
  {
    if n >= 0 then NatToString(n) else "-" + NatToString(-n)
  }

  /** A non-negative number printed with `IntToString` reads back as itself. */
  lemma IntToStringRoundTrip(n: int)
    ensures n >= 0 ==> NumeralValue(IntToString(n)) == n
  {
    if n >= 0 {
      NatToStringRoundTrip(n);
    }
  }

  /** `format_compatibility`: the score and a percent sign between a tier colour escape and a reset. */
  function FormatCompatibility(score: int): (r: string)
    ensures |r| >= 12 && r[..2] == "\U{1B}[" && r[6] == 'm' && r[|r| - 5..] == "%\U{1B}[0m"
    ensures r[2..6] == ColourCode(TierOf(score))
    ensures score >= 0 ==> NumeralValue(r[7..|r| - 5]) == score
  {
    IntToStringRoundTrip(score);
    EscapeShape(ColourCode(TierOf(score)), IntToString(score));
    "\U{1B}[" + ColourCode(TierOf(score)) + "m" + IntToString(score) + "%\U{1B}[0m"
  }

  /** Where the colour code and the text sit in an escape-wrapped string. */
  lemma EscapeShape(code: string, text: string)
    requires |code| == 4 && |text| >= 1
    ensures var r := "\U{1B}[" + code + "m" + text + "%\U{1B}[0m";
      && |r| >= 12 && r[..2] == "\U{1B}[" && r[6] == 'm' && r[|r| - 5..] == "%\U{1B}[0m"
      && r[2..6] == code && r[7..|r| - 5] == text
  {
    var r := "\U{1B}[" + code + "m" + text + "%\U{1B}[0m";
    assert r[7..|r| - 5] == text;
    assert r[2..6] == code;
  }
}

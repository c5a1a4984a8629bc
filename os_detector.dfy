/**
 * Reading `/etc/os-release` into a key/value table and choosing the package
 * manager from the distribution ID and what is on PATH.
 */
module OsDetector {
  import opened Wrappers
  import opened Strings

  /**
   * One line of os-release: stripped; blank lines, comments and lines without
   * `=` give nothing; otherwise the key is the text before the first `=` and
   * the value the rest with surrounding double quotes stripped.
   */
  function ParseLine(line: string): (r: Option<(string, string)>)
    ensures r.Some? ==> var l := Strip(line);
      exists i :: 0 <= i < |l| && l[i] == '=' && '=' !in l[..i] && r.value == (l[..i], StripChars(l[i + 1..], {'"'}))
    ensures r.None? <==> (Strip(line) == [] || Strip(line)[0] == '#' || '=' !in Strip(line))
  {
    var l := Strip(line);
    if l == [] || l[0] == '#' then None
    else if '=' in l then
      var i := IndexOfChar(l, '=');
      assert l[i] == '=' && '=' !in l[..i];
      Some((l[..i], StripChars(l[i + 1..], {'"'})))
    else None
  }

  /** The assignments made in order: a later one for a key overwrites an earlier one. */
  function Assign(entries: seq<Option<(string, string)>>): map<string, string>
    decreases |entries|
  {
    if entries == [] then map[]
    else
      var d := Assign(entries[..|entries| - 1]);
      match entries[|entries| - 1]
      case None => d
      case Some(kv) => d[kv.0 := kv.1]
  }

  /** Each line parsed. */
  function ParsedLines(lines: seq<string>): (r: seq<Option<(string, string)>>)
    ensures |r| == |lines| && forall i :: 0 <= i < |lines| ==> r[i] == ParseLine(lines[i])
  {
    seq(|lines|, i requires 0 <= i < |lines| => ParseLine(lines[i]))
  }

  /** The table os-release lines describe. */
  function OsReleaseOf(lines: seq<string>): map<string, string> {
    Assign(ParsedLines(lines))
  }

  /** Entry `i` of `entries` assigns key `k`. */
  predicate Assigns(entries: seq<Option<(string, string)>>, i: int, k: string) {
    0 <= i < |entries| && entries[i].Some? && entries[i].value.0 == k
  }

  /** A key is in the table exactly when some entry assigns it. */
  lemma {:induction false} AssignKeys(entries: seq<Option<(string, string)>>, k: string)
    ensures k in Assign(entries) <==> exists i :: Assigns(entries, i, k)
    decreases |entries|
  {
    if entries != [] {
      var init := entries[..|entries| - 1];
      AssignKeys(init, k);
      assert forall i :: Assigns(init, i, k) ==> Assigns(entries, i, k);
      if Assigns(entries, |entries| - 1, k) {
        assert k in Assign(entries);
      } else {
        assert forall i :: Assigns(entries, i, k) ==> Assigns(init, i, k);
      }
    }
  }

  /** The value of a key is the one given by the last entry that assigns it. */
  lemma {:induction false} AssignLastWins(entries: seq<Option<(string, string)>>, i: int, k: string)
    requires Assigns(entries, i, k)
    requires forall j :: i < j < |entries| ==> !Assigns(entries, j, k)
    ensures k in Assign(entries) && Assign(entries)[k] == entries[i].value.1
    decreases |entries|
  {
    var init := entries[..|entries| - 1];
    if i < |entries| - 1 {
      assert !Assigns(entries, |entries| - 1, k);
      forall j | i < j < |init|
        ensures !Assigns(init, j, k)
      {
        assert !Assigns(entries, j, k);
        assert init[j] == entries[j];
      }
      AssignLastWins(init, i, k);
    }
  }

  /** Line `i` of `lines` defines key `k`. */
  predicate Defines(lines: seq<string>, i: int, k: string) {
    0 <= i < |lines| && ParseLine(lines[i]).Some? && ParseLine(lines[i]).value.0 == k
  }

  /** A key is in the os-release table exactly when some line defines it. */
  lemma OsReleaseKeys(lines: seq<string>, k: string)
    ensures k in OsReleaseOf(lines) <==> exists i :: Defines(lines, i, k)
  {
    var e := ParsedLines(lines);
    AssignKeys(e, k);
    assert forall i :: Defines(lines, i, k) <==> Assigns(e, i, k);
  }

  /** The value of a key is the one on the last line that defines it. */
  lemma OsReleaseLastWins(lines: seq<string>, i: int, k: string)
    requires Defines(lines, i, k)
    requires forall j :: i < j < |lines| ==> !Defines(lines, j, k)
    ensures k in OsReleaseOf(lines) && OsReleaseOf(lines)[k] == ParseLine(lines[i]).value.1
  {
    var e := ParsedLines(lines);
    assert forall j :: Defines(lines, j, k) <==> Assigns(e, j, k);
    AssignLastWins(e, i, k);
  }

  /**
   * `read_os_release`: `file` is the content of /etc/os-release split into
   * lines, or `None` when the file does not exist, which gives an empty table.
   */
  method ReadOsRelease(file: Option<seq<string>>) returns (data: map<string, string>)
    ensures file.None? ==> data == map[]
    ensures file.Some? ==> data == OsReleaseOf(file.value)
  {
    data := map[];
    if file.None? {
      return;
    }
    var lines := file.value;
    var n := 0;
    while n < |lines|
      invariant n <= |lines|
      invariant data == Assign(ParsedLines(lines)[..n])
    {
      assert ParsedLines(lines)[..n + 1][..n] == ParsedLines(lines)[..n];
      var parsed := ParseLine(lines[n]);
      if parsed.Some? {
        data := data[parsed.value.0 := parsed.value.1];
      }
      n := n + 1;
    }
    assert ParsedLines(lines)[..n] == ParsedLines(lines);
  }

  /** The first manager of `order` that `which` finds. */
  function FirstOnPath(order: seq<string>, which: string -> bool): (r: Option<nat>)
    ensures r.Some? ==>
      r.value < |order| && which(order[r.value]) && forall j :: 0 <= j < r.value ==> !which(order[j])
    ensures r.None? ==> forall j :: 0 <= j < |order| ==> !which(order[j])
    decreases |order|
  {
    if order == [] then None
    else if which(order[0]) then Some(0)
    else match FirstOnPath(order[1..], which)
      case None => None
      case Some(i) => Some(i + 1)
  }

  /** The v3 manager order for a lower-cased distribution ID. */
  function PriorityOrder(distroId: string): (r: seq<string>)
    ensures |r| >= 1
  {
    if distroId in ["ubuntu", "debian", "raspbian", "linuxmint", "pop", "kali"] then ["apt"]
    else if distroId in ["fedora", "rhel", "centos", "rocky", "almalinux"] then ["dnf", "yum"]
    else if distroId in ["arch", "manjaro"] then ["pacman"]
    else if distroId in ["opensuse", "opensuse-tumbleweed", "sles"] then ["zypper"]
    else ["apt", "dnf", "yum", "pacman", "zypper"]
  }

  const NoManagerMessage := "No supported package manager found (apt/dnf/pacman/zypper)"

  /** The lower-cased `ID` of an os-release table, empty when absent. */
  function DistroId(osr: map<string, string>): string {
    Lower(if "ID" in osr then osr["ID"] else "")
  }

  /**
   * The detection loop: the first manager of `order` found on PATH; failing
   * that "apt" when /etc/debian_version exists; failing that the run exits
   * with `NoManagerMessage`.
   */
  method FirstManager(order: seq<string>, which: string -> bool, debianVersionExists: bool) returns (r: Result<string>)
    ensures match FirstOnPath(order, which)
      case Some(i) => r == Success(order[i])
      case None => r == (if debianVersionExists then Success("apt") else Failure(NoManagerMessage))
  {
    var k := 0;
    while k < |order|
      invariant k <= |order|
      invariant forall j :: 0 <= j < k ==> !which(order[j])
    {
      if which(order[k]) {
        return Success(order[k]);
      }
      k := k + 1;
    }
    if debianVersionExists {
      return Success("apt");
    }
    return Failure(NoManagerMessage);
  }

  /** `detect_package_manager`: the detection loop over the distribution's order. */
  method DetectPackageManager(osr: map<string, string>, which: string -> bool, debianVersionExists: bool)
    returns (r: Result<string>)
    ensures var order := PriorityOrder(DistroId(osr));
      match FirstOnPath(order, which)
      case Some(i) => r == Success(order[i])
      case None => r == (if debianVersionExists then Success("apt") else Failure(NoManagerMessage))
  {
    r := FirstManager(PriorityOrder(DistroId(osr)), which, debianVersionExists);
  }

  /** Whatever the host, a detected manager is one of the five the engine knows. */
  lemma DetectedManagerKnown(osr: map<string, string>, which: string -> bool, i: nat)
    requires FirstOnPath(PriorityOrder(DistroId(osr)), which) == Some(i)
    ensures PriorityOrder(DistroId(osr))[i] in ["apt", "dnf", "yum", "pacman", "zypper"]
  {
  }

  /** On Kali the only candidate is apt. */
  lemma KaliUsesApt(osr: map<string, string>)
    requires "ID" in osr && osr["ID"] == "kali"
    ensures PriorityOrder(DistroId(osr)) == ["apt"]
  {
    assert Lower("kali") == "kali";
  }
}

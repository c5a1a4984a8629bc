/**
 * The tool catalogue: a configuration tree (as the YAML loader produces it)
 * from category names to either one tool specification or a mapping of tool
 * names to specifications, flattened into a table from tool name to tool.
 */
module Catalog {
  import opened Wrappers
  import opened Model
  import StateStore

  /**
   * A loaded configuration value. Mappings keep their entries in document
   * order; a mapping stands for a loaded dictionary, so its keys are distinct
   * (nothing here relies on it except the correspondence with the loader).
   */
  datatype Node =
    | Mapping(entries: seq<Entry>)
    | Sequence(items: seq<Node>)
    | Text(text: string)
    | Int(i: int)
    | Real(r: real)
    | Bool(b: bool)
    | Null

  datatype Entry = Entry(key: string, value: Node)

  /** `d.get(key)`: the value of the last entry with that key (the one a loader keeps). */
  function Get(entries: seq<Entry>, key: string): (r: Option<Node>)
    ensures r.Some? <==> exists i :: 0 <= i < |entries| && entries[i].key == key
    ensures r.Some? ==> exists i :: 0 <= i < |entries| && entries[i].key == key && entries[i].value == r.value
    decreases |entries|
  {
    if entries == [] then None
    else if entries[|entries| - 1].key == key then Some(entries[|entries| - 1].value)
    else Get(entries[..|entries| - 1], key)
  }

  predicate HasKey(entries: seq<Entry>, key: string) {
    Get(entries, key).Some?
  }

  /** The keys whose presence marks a category value as a single tool specification. */
  const BareSpecKeys: seq<string> := ["binary", "description", "packages", "metrics", "tags"]

  predicate IsBareSpec(entries: seq<Entry>) {
    exists k :: k in BareSpecKeys && HasKey(entries, k)
  }

  /** A text field, or `default` when absent or not text. */
  function TextField(spec: seq<Entry>, key: string, default: string): string {
    match Get(spec, key)
    case Some(Text(s)) => s
    case _ => default
  }

  /** The text items of a list field; absent or not a list gives []. */
  function TextList(spec: seq<Entry>, key: string): seq<string> {
    match Get(spec, key)
    case Some(Sequence(items)) => TextItems(items)
    case _ => []
  }

  function TextItems(items: seq<Node>): (r: seq<string>)
    ensures |r| <= |items|
    ensures forall s :: s in r ==> Text(s) in items
  {
    if items == [] then []
    else (if items[0].Text? then [items[0].text] else []) + TextItems(items[1..])
  }

  /** The text-valued entries of a mapping field; absent or not a mapping gives the empty map. */
  function TextMap(spec: seq<Entry>, key: string): map<string, string> {
    match Get(spec, key)
    case Some(Mapping(es)) => TextEntries(es)
    case _ => map[]
  }

  function TextEntries(es: seq<Entry>): map<string, string>
    decreases |es|
  {
    if es == [] then map[]
    else
      var m := TextEntries(es[..|es| - 1]);
      match es[|es| - 1].value
      case Text(s) => m[es[|es| - 1].key := s]
      case _ => m
  }

  /** A number field read as MB; absent or not a number gives `default`. */
  function RealField(metrics: seq<Entry>, key: string, default: real): real {
    match Get(metrics, key)
    case Some(Real(r)) => r
    case Some(Int(i)) => i as real
    case _ => default
  }

  /** An integer field; absent or not an integer gives `default`. */
  function IntField(metrics: seq<Entry>, key: string, default: int): int {
    match Get(metrics, key)
    case Some(Int(i)) => i
    case _ => default
  }

  const MetricsNotMapping := "metrics is not a mapping"

  /**
   * A tool from its specification, with the defaults binary = name, empty
   * description, packages, dependencies and tags, no source, and metrics
   * 10.0 MB / 5.0 MB / 128 MB. A `metrics` value that is not a mapping makes
   * loading fail (the lookup on it raises).
   */
  function ToolFrom(name: string, spec: seq<Entry>): (r: Result<Tool>)
    ensures r.Failure? <==> HasKey(spec, "metrics") && !Get(spec, "metrics").value.Mapping?
    ensures r.Success? ==>
      r.value.name == name && r.value.category == Standard && r.value.metrics.compatibilityScore == 0
    ensures r.Success? && !HasKey(spec, "binary") ==> r.value.binary == name
    ensures r.Success? && !HasKey(spec, "metrics") ==>
      r.value.metrics == ToolMetrics(10.0, 5.0, 128, 0)
    ensures r.Success? && !HasKey(spec, "source") ==> !HasSource(r.value)
    ensures r.Success? && !HasKey(spec, "packages") ==> r.value.packages == map[]
  {
    var metrics := match Get(spec, "metrics")
      case None => Some([])
      case Some(Mapping(es)) => Some(es)
      case Some(_) => None;
    if metrics.None? then Failure(MetricsNotMapping)
    else
      var m := metrics.value;
      Success(Tool(
        name := name,
        binary := TextField(spec, "binary", name),
        category := Standard,
        description := TextField(spec, "description", ""),
        packages := TextMap(spec, "packages"),
        source := TextMap(spec, "source"),
        dependencies := TextList(spec, "dependencies"),
        metrics := ToolMetrics(
          RealField(m, "estimated_size_mb", 10.0),
          RealField(m, "dependencies_size_mb", 5.0),
          IntField(m, "ram_required_mb", 128),
          0),
        kaliMetapackage := match Get(spec, "kali_metapackage") case Some(Text(s)) => Some(s) case _ => None,
        tags := TextList(spec, "tags")))
  }

  /** The remaining defaults of a specification: no dependencies, no tags, no description, no metapackage. */
  lemma ToolFromDefaults(name: string, spec: seq<Entry>)
    ensures var r := ToolFrom(name, spec);
      && (r.Success? && !HasKey(spec, "dependencies") ==> r.value.dependencies == [])
      && (r.Success? && !HasKey(spec, "tags") ==> r.value.tags == [])
      && (r.Success? && !HasKey(spec, "description") ==> r.value.description == "")
      && (r.Success? && !HasKey(spec, "kali_metapackage") ==> r.value.kaliMetapackage == None)
  {
  }

  /** Text fields that are given are taken as they are. */
  lemma ToolFromGiven(name: string, spec: seq<Entry>)
    ensures var r := ToolFrom(name, spec);
      && (r.Success? ==> forall s :: Get(spec, "binary") == Some(Text(s)) ==> r.value.binary == s)
      && (r.Success? ==> forall s :: Get(spec, "description") == Some(Text(s)) ==> r.value.description == s)
      && (r.Success? ==> forall s :: Get(spec, "kali_metapackage") == Some(Text(s)) ==> r.value.kaliMetapackage == Some(s))
  {
  }

  /** Each metric of a `metrics` mapping defaults on its own: 10.0, 5.0 and 128 MB; a given number is kept. */
  lemma ToolFromMetrics(name: string, spec: seq<Entry>)
    requires HasKey(spec, "metrics") && Get(spec, "metrics").value.Mapping?
    ensures var r := ToolFrom(name, spec);
      var m := Get(spec, "metrics").value.entries;
      && r.Success?
      && (!HasKey(m, "estimated_size_mb") ==> r.value.metrics.estimatedSizeMb == 10.0)
      && (!HasKey(m, "dependencies_size_mb") ==> r.value.metrics.dependenciesSizeMb == 5.0)
      && (!HasKey(m, "ram_required_mb") ==> r.value.metrics.ramRequiredMb == 128)
      && (forall i :: Get(m, "ram_required_mb") == Some(Int(i)) ==> r.value.metrics.ramRequiredMb == i)
      && (forall x :: Get(m, "estimated_size_mb") == Some(Real(x)) ==> r.value.metrics.estimatedSizeMb == x)
      && (forall x :: Get(m, "dependencies_size_mb") == Some(Real(x)) ==> r.value.metrics.dependenciesSizeMb == x)
  {
  }

  /** Add the dict-valued entries of a category mapping, in order, as tools. */
  function AddEntries(acc: map<string, Tool>, es: seq<Entry>): Result<map<string, Tool>>
    decreases |es|
  {
    if es == [] then Success(acc)
    else match AddEntries(acc, es[..|es| - 1])
      case Failure(e) => Failure(e)
      case Success(m) =>
        var e := es[|es| - 1];
        if e.value.Mapping? then
          match ToolFrom(e.key, e.value.entries)
          case Failure(err) => Failure(err)
          case Success(t) => Success(m[e.key := t])
        else Success(m)
  }

  /** Add one category: skipped unless a mapping; one tool if it is a bare specification; else its entries. */
  function AddCategory(acc: map<string, Tool>, cat: Entry): Result<map<string, Tool>> {
    if !cat.value.Mapping? then Success(acc)
    else if IsBareSpec(cat.value.entries) then
      match ToolFrom(cat.key, cat.value.entries)
      case Failure(err) => Failure(err)
      case Success(t) => Success(acc[cat.key := t])
    else AddEntries(acc, cat.value.entries)
  }

  /** The categories added in document order; the first failure ends loading. */
  function Flatten(cats: seq<Entry>): Result<map<string, Tool>>
    decreases |cats|
  {
    if cats == [] then Success(map[])
    else match Flatten(cats[..|cats| - 1])
      case Failure(e) => Failure(e)
      case Success(m) => AddCategory(m, cats[|cats| - 1])
  }

  /** The top-level categories: a mapping's entries, nothing for a false-like document, else loading fails. */
  function TopLevel(doc: Node): Result<seq<Entry>> {
    match doc
    case Mapping(es) => Success(es)
    case Null => Success([])
    case Sequence(items) => if items == [] then Success([]) else Failure("document is not a mapping")
    case Text(s) => if s == "" then Success([]) else Failure("document is not a mapping")
    case Int(i) => if i == 0 then Success([]) else Failure("document is not a mapping")
    case Real(r) => if r == 0.0 then Success([]) else Failure("document is not a mapping")
    case Bool(b) => if !b then Success([]) else Failure("document is not a mapping")
  }

  /** The catalogue a document describes. */
  function Catalogue(doc: Node): Result<map<string, Tool>> {
    match TopLevel(doc)
    case Failure(e) => Failure(e)
    case Success(cats) => Flatten(cats)
  }

  /** Every tool is filed under its own name. */
  predicate KeyedByName(m: map<string, Tool>) {
    forall k :: k in m ==> m[k].name == k
  }

  lemma {:induction false} AddEntriesKeyed(acc: map<string, Tool>, es: seq<Entry>)
    requires KeyedByName(acc)
    ensures AddEntries(acc, es).Success? ==> KeyedByName(AddEntries(acc, es).value)
    decreases |es|
  {
    if es != [] {
      AddEntriesKeyed(acc, es[..|es| - 1]);
    }
  }

  /** A loaded catalogue files each tool under its name. */
  lemma {:induction false} FlattenKeyedByName(cats: seq<Entry>)
    ensures Flatten(cats).Success? ==> KeyedByName(Flatten(cats).value)
    decreases |cats|
  {
    if cats != [] {
      FlattenKeyedByName(cats[..|cats| - 1]);
      var prev := Flatten(cats[..|cats| - 1]);
      if prev.Success? {
        var cat := cats[|cats| - 1];
        if cat.value.Mapping? && !IsBareSpec(cat.value.entries) {
          AddEntriesKeyed(prev.value, cat.value.entries);
        }
      }
    }
  }

  /** A category whose value is not a mapping adds nothing. */
  lemma NonMappingCategorySkipped(cats: seq<Entry>, key: string, value: Node)
    requires !value.Mapping?
    ensures Flatten(cats + [Entry(key, value)]) == Flatten(cats)
  {
    assert (cats + [Entry(key, value)])[..|cats|] == cats;
  }

  /** A bare specification becomes one tool named after its category, replacing any earlier tool of that name. */
  lemma BareCategoryIsOneTool(cats: seq<Entry>, key: string, es: seq<Entry>)
    requires IsBareSpec(es)
    requires Flatten(cats).Success? && ToolFrom(key, es).Success?
    ensures Flatten(cats + [Entry(key, Mapping(es))]) == Success(Flatten(cats).value[key := ToolFrom(key, es).value])
  {
    assert (cats + [Entry(key, Mapping(es))])[..|cats|] == cats;
  }

  /** A category mapping's entries that are not mappings add nothing. */
  lemma NonMappingEntrySkipped(acc: map<string, Tool>, es: seq<Entry>, key: string, value: Node)
    requires !value.Mapping?
    ensures AddEntries(acc, es + [Entry(key, value)]) == AddEntries(acc, es)
  {
    assert (es + [Entry(key, value)])[..|es|] == es;
  }

  /** A tool in a category mapping replaces any earlier tool of the same name. */
  lemma LaterEntryOverwrites(acc: map<string, Tool>, es: seq<Entry>, key: string, spec: seq<Entry>)
    requires AddEntries(acc, es).Success? && ToolFrom(key, spec).Success?
    ensures AddEntries(acc, es + [Entry(key, Mapping(spec))]) == Success(AddEntries(acc, es).value[key := ToolFrom(key, spec).value])
  {
    assert (es + [Entry(key, Mapping(spec))])[..|es|] == es;
  }

  /** Once loading has failed, further categories do not change the failure. */
  lemma {:induction false} FlattenFailureSticks(cats: seq<Entry>, i: nat)
    requires i <= |cats| && Flatten(cats[..i]).Failure?
    ensures Flatten(cats) == Flatten(cats[..i])
    decreases |cats| - i
  {
    if i < |cats| {
      assert cats[..i + 1][..i] == cats[..i];
      FlattenFailureSticks(cats, i + 1);
    } else {
      assert cats[..i] == cats;
    }
  }

  lemma {:induction false} AddEntriesFailureSticks(acc: map<string, Tool>, es: seq<Entry>, i: nat)
    requires i <= |es| && AddEntries(acc, es[..i]).Failure?
    ensures AddEntries(acc, es) == AddEntries(acc, es[..i])
    decreases |es| - i
  {
    if i < |es| {
      assert es[..i + 1][..i] == es[..i];
      AddEntriesFailureSticks(acc, es, i + 1);
    } else {
      assert es[..i] == es;
    }
  }

  /** `load_kali_tools`: walk the categories and their entries, filling the table. */
  method LoadKaliTools(doc: Node) returns (r: Result<map<string, Tool>>)
    ensures r == Catalogue(doc)
  {
    var top := TopLevel(doc);
    if top.Failure? {
      return Failure(top.error);
    }
    var cats := top.value;
    var tools: map<string, Tool> := map[];
    var i := 0;
    while i < |cats|
      invariant i <= |cats|
      invariant Flatten(cats[..i]) == Success(tools)
    {
      assert cats[..i + 1][..i] == cats[..i];
      var cat := cats[i];
      if cat.value.Mapping? {
        var es := cat.value.entries;
        if IsBareSpec(es) {
          var t := ToolFrom(cat.key, es);
          if t.Failure? {
            FlattenFailureSticks(cats, i + 1);
            return Failure(t.error);
          }
          tools := tools[cat.key := t.value];
        } else {
          ghost var base := tools;
          var j := 0;
          while j < |es|
            invariant j <= |es|
            invariant AddEntries(base, es[..j]) == Success(tools)
          {
            assert es[..j + 1][..j] == es[..j];
            var e := es[j];
            if e.value.Mapping? {
              var t := ToolFrom(e.key, e.value.entries);
              if t.Failure? {
                AddEntriesFailureSticks(base, es, j + 1);
                FlattenFailureSticks(cats, i + 1);
                return Failure(t.error);
              }
              tools := tools[e.key := t.value];
            }
            j := j + 1;
          }
          assert es[..j] == es;
        }
      }
      i := i + 1;
    }
    assert cats[..i] == cats;
    r := Success(tools);
  }

  /** The tools of `all` named in `names`, in the order of `names`, names not in `all` dropped. */
  function Pick(names: seq<string>, all: map<string, Tool>): (r: seq<Tool>)
    ensures |r| <= |names|
    ensures forall t :: t in r ==> exists n :: n in names && n in all && all[n] == t
    ensures forall n :: n in names && n in all ==> all[n] in r
  {
    if names == [] then []
    else (if names[0] in all then [all[names[0]]] else []) + Pick(names[1..], all)
  }

  /** The names of the bundled core tool set. */
  const StandardNames: seq<string> := [
    "nmap", "netcat", "hydra", "john", "sqlmap", "nikto",
    "metasploit-framework", "wireshark", "aircrack-ng",
    "burpsuite", "gobuster", "ffuf", "hashcat", "ipcalc",
    "msfconsole", "scapy", "hping3", "slowloris", "wifite2",
    "responder"]

  /** `get_standard_tools`: the catalogue's tools among the standard names. */
  function GetStandardTools(all: map<string, Tool>): (r: seq<Tool>)
    ensures |r| <= 20
    ensures forall n :: n in StandardNames && n in all ==> all[n] in r
    ensures forall t :: t in r ==> exists n :: n in StandardNames && n in all && all[n] == t
  {
    Pick(StandardNames, all)
  }

  /** `get_installed_tools`: the catalogue's tools the registry lists as installed. */
  method GetInstalledTools(all: map<string, Tool>, store: StateStore.StateManager) returns (r: seq<Tool>)
    ensures forall n :: n in StateStore.KeysOrNone(store.Current().installed) && n in all ==> all[n] in r
    ensures forall t :: t in r ==> exists n :: n in StateStore.KeysOrNone(store.Current().installed) && n in all && all[n] == t
  {
    var names := store.GetInstalledTools();
    r := Pick(names, all);
  }

  /** `get_custom_tools`: the catalogue's tools the registry lists as custom. */
  method GetCustomTools(all: map<string, Tool>, store: StateStore.StateManager) returns (r: seq<Tool>)
    ensures forall n :: n in StateStore.KeysOrNone(store.Current().custom) && n in all ==> all[n] in r
    ensures forall t :: t in r ==> exists n :: n in StateStore.KeysOrNone(store.Current().custom) && n in all && all[n] == t
  {
    var names := store.GetCustomTools();
    r := Pick(names, all);
  }
}

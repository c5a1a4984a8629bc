/**
 * The web front end of the v2 installer: JSON handlers that run the
 * `hakpak2` command line and report its output. The process launcher is an
 * oracle from a command line to its exit code and output, or to a launch
 * error; a request is the decoded JSON body.
 */
module GuiServer {
  import opened Wrappers
  import opened Strings
  import opened HakPak2

  /** What launching a command gives: its exit code and combined output, or an exception. */
  datatype Launch = Finished(returnCode: int, stdout: string) | LaunchFailed(reason: string)

  /** A listed tool as the front end receives it. */
  datatype ToolEntry = ToolEntry(name: string, methods: seq<string>)

  /** The JSON body of a reply. */
  datatype Body =
    | Output(output: string, rc: Option<int>)
    | Tools(tools: seq<ToolEntry>, raw: string)
    | StateDoc(state: V2Registry)
    | ErrorBody(error: string)

  /** An HTTP reply: status code, the "ok" flag, and the rest of the body. */
  datatype Reply = Reply(status: int, ok: bool, body: Body)

  /** The fields of a request body the handlers read; `how` (the "method" key) is None when the key is absent. */
  datatype Request = Request(tool: Option<string>, how: Option<string>, dryRun: bool, action: Option<string>)

  /** `_run`: the exit code and output, or 1 and the error text when the launch itself fails. */
  function RunProcess(cmd: seq<string>, launch: seq<string> -> Launch): (r: (int, string))
    ensures launch(cmd).Finished? ==> r == (launch(cmd).returnCode, launch(cmd).stdout)
    ensures launch(cmd).LaunchFailed? ==> r == (1, "error: " + launch(cmd).reason)
  {
    match launch(cmd)
    case Finished(rc, out) => (rc, out)
    case LaunchFailed(e) => (1, "error: " + e)
  }

  /** The reply of a handler that ran a command: ok exactly when the command exited with 0. */
  function OutputReply(run: (int, string)): (r: Reply)
    ensures r.status == 200 && (r.ok <==> run.0 == 0)
    ensures r.body == Output(run.1, Some(run.0))
  {
    Reply(200, run.0 == 0, Output(run.1, Some(run.0)))
  }

  /** A launch error is reported as a failed command, never as a success. */
  lemma LaunchErrorIsNotOk(cmd: seq<string>, launch: seq<string> -> Launch)
    requires launch(cmd).LaunchFailed?
    ensures !OutputReply(RunProcess(cmd, launch)).ok
  {
  }

  /** `api_detect`. */
  function ApiDetect(launch: seq<string> -> Launch): (r: Reply)
    ensures var run := RunProcess(["hakpak2", "detect"], launch);
      r == Reply(200, run.0 == 0, Output(run.1, None))
  {
    var run := RunProcess(["hakpak2", "detect"], launch);
    Reply(200, run.0 == 0, Output(run.1, None))
  }

  // ---- Lines ----

  /** The characters at which `str.splitlines()` ends a line. */
  predicate IsLineBreak(c: char) {
    '\n' <= c <= '\r' || '\U{1C}' <= c <= '\U{1E}' || c == '\U{85}' || c == '\U{2028}' || c == '\U{2029}'
  }

  /** The index of the first line break in `s`, or `|s|`. */
  function BreakIndex(s: string): (i: nat)
    ensures i <= |s| && (i < |s| ==> IsLineBreak(s[i]))
    ensures forall j :: 0 <= j < i ==> !IsLineBreak(s[j])
  {
    if s == [] || IsLineBreak(s[0]) then 0 else 1 + BreakIndex(s[1..])
  }

  /** `s.splitlines()`: "\r\n" ends one line, and a final break gives no empty last line. */
  function SplitLines(s: string): seq<string>
    decreases |s|
  {
    if s == [] then []
    else
      var i := BreakIndex(s);
      if i == |s| then [s]
      else
        var width := if s[i] == '\r' && i + 1 < |s| && s[i + 1] == '\n' then 2 else 1;
        [s[..i]] + SplitLines(s[i + width..])
  }

  /** What a program prints with one `print` per line. */
  function Printed(lines: seq<string>): string
    decreases |lines|
  {
    if lines == [] then "" else lines[0] + "\n" + Printed(lines[1..])
  }

  /** No line break inside the line. */
  predicate OneLine(line: string) {
    forall j :: 0 <= j < |line| ==> !IsLineBreak(line[j])
  }

  /** Splitting printed lines gives the lines back. */
  lemma {:induction false} SplitPrinted(lines: seq<string>)
    requires forall k :: 0 <= k < |lines| ==> OneLine(lines[k])
    ensures SplitLines(Printed(lines)) == lines
    decreases |lines|
  {
    if lines != [] {
      SplitLinesCons(Printed(lines), lines[0], Printed(lines[1..]));
      SplitPrinted(lines[1..]);
    }
  }

  /** A line followed by "\n" splits off as the first line. */
  lemma SplitLinesCons(s: string, line: string, rest: string)
    requires s == line + "\n" + rest && OneLine(line)
    ensures SplitLines(s) == [line] + SplitLines(rest)
  {
    assert s[|line|] == '\n';
    assert forall j :: 0 <= j < |line| ==> s[j] == line[j];
    BreakIndexAt(s, |line|);
    assert s[..|line|] == line;
    assert s[|line| + 1..] == rest;
  }

  /** The first break is at `k` when `s[k]` is a break and none comes before it. */
  lemma {:induction false} BreakIndexAt(s: string, k: nat)
    requires k < |s| && IsLineBreak(s[k])
    requires forall j :: 0 <= j < k ==> !IsLineBreak(s[j])
    ensures BreakIndex(s) == k
    decreases k
  {
    if k > 0 {
      BreakIndexAt(s[1..], k - 1);
    }
  }

  // ---- api_tools ----

  /** The methods after the last "methods=" of a line, split at ","; none when that text is blank. */
  function MethodsPart(rest: string): (r: seq<string>)
    ensures Strip(LastSegment(rest, "methods=")) == "" <==> r == []
  {
    var methods := Strip(LastSegment(rest, "methods="));
    if methods == "" then [] else SplitChar(methods, ',')
  }

  /** One line of `hakpak2 list` output: the name before the first ":", the methods after the last "methods=". */
  function ParseToolLine(line: string): (r: Option<ToolEntry>)
    ensures r.None? <==> ':' !in line
    ensures r.Some? ==> r.value.name == Strip(line[..IndexOfChar(line, ':')])
  {
    if ':' !in line then None
    else
      var i := IndexOfChar(line, ':');
      Some(ToolEntry(Strip(line[..i]), MethodsPart(line[i + 1..])))
  }

  /** The entry a parse gives, if any. */
  function Entries(parsed: Option<ToolEntry>): seq<ToolEntry> {
    if parsed.Some? then [parsed.value] else []
  }

  /** The entries `parse` gives for the lines, in order. */
  function Collect(parse: string -> Option<ToolEntry>, lines: seq<string>): seq<ToolEntry>
    decreases |lines|
  {
    if lines == [] then []
    else Collect(parse, lines[..|lines| - 1]) + Entries(parse(lines[|lines| - 1]))
  }

  /** The same entries, taken from the front. */
  lemma {:induction false} CollectFront(parse: string -> Option<ToolEntry>, lines: seq<string>)
    requires lines != []
    ensures Collect(parse, lines) == Entries(parse(lines[0])) + Collect(parse, lines[1..])
    decreases |lines|
  {
    var n := |lines|;
    if n > 1 {
      var init := lines[..n - 1];
      CollectFront(parse, init);
      assert init[1..] == lines[1..][..n - 2];
      assert init[0] == lines[0];
      assert lines[1..][n - 2] == lines[n - 1];
    } else {
      assert lines[..0] == [] && lines[1..] == [];
    }
  }

  /** The entries of the lines that have a ":", in order. */
  function ParsedTools(lines: seq<string>): seq<ToolEntry> {
    Collect(ParseToolLine, lines)
  }

  /** `api_tools`: list the tools and parse the lines; ok exactly when `list` exited with 0. */
  method ApiTools(launch: seq<string> -> Launch) returns (reply: Reply)
    ensures var run := RunProcess(["hakpak2", "list"], launch);
      reply == Reply(200, run.0 == 0, Tools(ParsedTools(SplitLines(run.1)), run.1))
  {
    var run := RunProcess(["hakpak2", "list"], launch);
    var tools := ParseLines(SplitLines(run.1));
    reply := Reply(200, run.0 == 0, Tools(tools, run.1));
  }

  /** The loop of `api_tools` over the output lines. */
  method ParseLines(lines: seq<string>) returns (tools: seq<ToolEntry>)
    ensures tools == ParsedTools(lines)
  {
    tools := [];
    var i := 0;
    while i < |lines|
      invariant 0 <= i <= |lines|
      invariant tools == ParsedTools(lines[..i])
    {
      var parsed := ParseLine(lines[i]);
      assert lines[..i + 1][..i] == lines[..i];
      if parsed.Some? {
        tools := tools + [parsed.value];
      }
      i := i + 1;
    }
    assert lines[..i] == lines;
  }

  /** The body of that loop: a line with a ":" gives an entry. */
  method ParseLine(line: string) returns (parsed: Option<ToolEntry>)
    ensures parsed == ParseToolLine(line)
  {
    if ':' in line {
      var p := IndexOfChar(line, ':');
      ParseAtColon(line, p);
      return Some(ToolEntry(Strip(line[..p]), MethodsPart(line[p + 1..])));
    }
    return None;
  }

  // ---- The round trip with `hakpak2 list` ----

  /** A tool name `list` prints so that the parser reads it back. */
  predicate PlainName(name: string) {
    ':' !in name && Strip(name) == name && OneLine(name)
  }

  /** What the front end reads for a tool: its methods, or ["unknown"] when it has none. */
  function ShownMethods(spec: V2Tool): seq<string> {
    if Methods(spec) == [] then ["unknown"] else Methods(spec)
  }

  /** The methods text `list` prints for a tool: the shown methods joined by ",". */
  lemma {:induction false} MethodsTextShape(spec: V2Tool)
    ensures var text := MethodsText(Methods(spec));
      && text != ""
      && text in ["unknown", "native", "source", "native,source"]
      && text == Join(ShownMethods(spec), ",")
  {
    var m := Methods(spec);
    if HasNativeEntry(spec) && spec.source.Some? {
      assert m == ["native", "source"];
      assert Join(m, ",") == "native" + "," + Join(["source"], ",");
      assert "native" + "," + "source" == "native,source";
    } else if HasNativeEntry(spec) {
      assert m == ["native"];
    } else if spec.source.Some? {
      assert m == ["source"];
    } else {
      assert m == [];
    }
  }

  /** The methods text avoids every character that none of the method names holds. */
  lemma MethodsTextAvoids(spec: V2Tool, c: char)
    requires c != ',' && c !in "native" && c !in "source" && c !in "unknown"
    ensures c !in MethodsText(Methods(spec))
  {
    MethodsTextShape(spec);
    JoinAvoids(ShownMethods(spec), ",", c);
  }

  /** The methods text holds no line break. */
  lemma MethodsTextOneLine(spec: V2Tool)
    ensures OneLine(MethodsText(Methods(spec)))
  {
    var text := MethodsText(Methods(spec));
    forall j | 0 <= j < |text|
      ensures !IsLineBreak(text[j])
    {
      if IsLineBreak(text[j]) {
        MethodsTextAvoids(spec, text[j]);
        assert false;
      }
    }
  }

  /** The methods texts have no white space at either end. */
  lemma MethodsTextStripped(spec: V2Tool)
    ensures var text := MethodsText(Methods(spec));
      text != "" && Strip(text) == text
  {
    MethodsTextShape(spec);
    StripCharsUnchanged(MethodsText(Methods(spec)), Whitespace);
  }

  /** Splitting the methods text at "," gives the shown methods. */
  lemma SplitMethodsText(spec: V2Tool)
    ensures SplitChar(MethodsText(Methods(spec)), ',') == ShownMethods(spec)
  {
    MethodsTextShape(spec);
    var shown := ShownMethods(spec);
    assert forall k :: 0 <= k < |shown| ==> shown[k] in ["native", "source", "unknown"];
    SplitJoin(shown, ',');
  }

  /** "methods=" begins right after the blank. */
  lemma MarkerAfterBlank(b: string)
    ensures FirstOccurrence(" methods=" + b, "methods=") == Some(1)
  {
    var s := " methods=" + b;
    assert s[1..9] == "methods=";
    assert OccursAt(s, "methods=", 1);
    assert !OccursAt(s, "methods=", 0) by {
      assert s[0] == ' ';
    }
  }

  /** The piece after the last "methods=" of " methods=" + b is b when b holds no "m". */
  lemma LastSegmentAfterMarker(b: string)
    requires 'm' !in b
    ensures LastSegment(" methods=" + b, "methods=") == b
  {
    MarkerAfterBlank(b);
    var s := " methods=" + b;
    assert s[1 + |"methods="|..] == b;
    MissingCharNotContained(b, "methods=", 'm');
  }

  /** The piece after the last "methods=" of a `list` line is the methods text. */
  lemma LastSegmentOfListLine(spec: V2Tool)
    ensures var text := MethodsText(Methods(spec));
      LastSegment(" methods=" + text, "methods=") == text
  {
    MethodsTextAvoids(spec, 'm');
    LastSegmentAfterMarker(MethodsText(Methods(spec)));
  }

  /** The first `c` of `s` is at `k` when `s[k]` is one and none comes before. */
  lemma {:induction false} IndexOfCharAt(s: string, k: nat, c: char)
    requires k < |s| && s[k] == c && c !in s[..k]
    ensures c in s && IndexOfChar(s, c) == k
    decreases k
  {
    assert s[k] == c;
    if k > 0 {
      assert s[0] == s[..k][0];
      assert s[1..][..k - 1] == s[..k][1..];
      IndexOfCharAt(s[1..], k - 1, c);
    }
  }

  /** `ParseToolLine` on a line whose first ":" is at `i`. */
  lemma ParseAtColon(line: string, i: nat)
    requires i < |line| && line[i] == ':' && ':' !in line[..i]
    ensures ParseToolLine(line) == Some(ToolEntry(Strip(line[..i]), MethodsPart(line[i + 1..])))
  {
    IndexOfCharAt(line, i, ':');
  }

  /** Parsing `name: methods=text` when the name has no ":". */
  lemma ParseLineOf(name: string, text: string)
    requires ':' !in name
    ensures ParseToolLine(name + ": methods=" + text) == Some(ToolEntry(Strip(name), MethodsPart(" methods=" + text)))
  {
    var line := name + ": methods=" + text;
    assert line == name + (":" + (" methods=" + text));
    assert line[..|name|] == name;
    assert line[|name| + 1..] == " methods=" + text;
    ParseAtColon(line, |name|);
  }

  /** The methods part of a `list` line reads back as the shown methods. */
  lemma MethodsPartOfListLine(spec: V2Tool)
    ensures MethodsPart(" methods=" + MethodsText(Methods(spec))) == ShownMethods(spec)
  {
    LastSegmentOfListLine(spec);
    MethodsTextStripped(spec);
    SplitMethodsText(spec);
  }

  /** Parsing a `list` line gives back the name and the methods, ["unknown"] standing for none. */
  lemma ParseListLine(name: string, spec: V2Tool)
    requires PlainName(name)
    ensures ParseToolLine(ListLine(name, spec)) == Some(ToolEntry(name, ShownMethods(spec)))
  {
    ParseLineOf(name, MethodsText(Methods(spec)));
    MethodsPartOfListLine(spec);
  }

  /** Joining two one-line strings gives one line. */
  lemma OneLineConcat(a: string, b: string)
    requires OneLine(a) && OneLine(b)
    ensures OneLine(a + b)
  {
    forall j | 0 <= j < |a + b|
      ensures !IsLineBreak((a + b)[j])
    {
      if j < |a| {
        assert (a + b)[j] == a[j];
      } else {
        assert (a + b)[j] == b[j - |a|];
      }
    }
  }

  /** `name: methods=text` is one line when the name and the text are. */
  lemma LineOfOneLine(name: string, text: string)
    requires OneLine(name) && OneLine(text)
    ensures OneLine(name + ": methods=" + text)
  {
    assert OneLine(": methods=");
    OneLineConcat(name, ": methods=");
    OneLineConcat(name + ": methods=", text);
  }

  /** A `list` line of a one-line name holds no line break. */
  lemma ListLineOneLine(name: string, spec: V2Tool)
    requires OneLine(name)
    ensures OneLine(ListLine(name, spec))
  {
    MethodsTextOneLine(spec);
    LineOfOneLine(name, MethodsText(Methods(spec)));
  }

  /** What `list` prints for `names`, as `cmd_list` builds it. */
  predicate ListedAs(lines: seq<string>, names: seq<string>, tools: map<string, V2Tool>) {
    |lines| == |names|
    && forall k :: 0 <= k < |names| ==> names[k] in tools && lines[k] == ListLine(names[k], tools[names[k]])
  }

  /** `ParsedTools` of lines whose first line parses. */
  lemma ParsedToolsCons(lines: seq<string>, e: ToolEntry)
    requires lines != [] && ParseToolLine(lines[0]) == Some(e)
    ensures ParsedTools(lines) == [e] + ParsedTools(lines[1..])
  {
    CollectFront(ParseToolLine, lines);
  }

  /** The tail of listed lines lists the tail of the names. */
  lemma ListedAsTail(lines: seq<string>, names: seq<string>, tools: map<string, V2Tool>)
    requires ListedAs(lines, names, tools) && names != []
    ensures ListedAs(lines[1..], names[1..], tools)
  {
    forall k | 0 <= k < |names| - 1
      ensures names[1..][k] in tools && lines[1..][k] == ListLine(names[1..][k], tools[names[1..][k]])
    {
      assert names[1..][k] == names[k + 1] && lines[1..][k] == lines[k + 1];
    }
  }

  /** The entry the front end shows for a listed name. */
  function EntryOf(name: string, tools: map<string, V2Tool>): ToolEntry
    requires name in tools
  {
    ToolEntry(name, ShownMethods(tools[name]))
  }

  /** Parsing the lines one by one. */
  lemma {:induction false} ParseEach(lines: seq<string>, names: seq<string>, tools: map<string, V2Tool>)
    requires ListedAs(lines, names, tools)
    requires forall k :: 0 <= k < |names| ==> PlainName(names[k])
    ensures var parsed := ParsedTools(lines);
      |parsed| == |names|
      && forall k :: 0 <= k < |names| ==> parsed[k] == EntryOf(names[k], tools)
    decreases |names|
  {
    if names != [] {
      var e := EntryOf(names[0], tools);
      ParseListLine(names[0], tools[names[0]]);
      ParsedToolsCons(lines, e);
      ListedAsTail(lines, names, tools);
      ParseEach(lines[1..], names[1..], tools);
      EntriesCons(ParsedTools(lines), e, ParsedTools(lines[1..]), names, tools);
    }
  }

  /** Entries for the first name followed by entries for the rest are entries for all names. */
  lemma EntriesCons(parsed: seq<ToolEntry>, e: ToolEntry, rest: seq<ToolEntry>, names: seq<string>, tools: map<string, V2Tool>)
    requires names != [] && forall k :: 0 <= k < |names| ==> names[k] in tools
    requires parsed == [e] + rest && e == EntryOf(names[0], tools)
    requires |rest| == |names| - 1 && forall k :: 0 <= k < |names| - 1 ==> rest[k] == EntryOf(names[1..][k], tools)
    ensures |parsed| == |names| && forall k :: 0 <= k < |names| ==> parsed[k] == EntryOf(names[k], tools)
  {
    forall k | 0 <= k < |names|
      ensures parsed[k] == EntryOf(names[k], tools)
    {
      if k > 0 {
        assert parsed[k] == rest[k - 1];
        assert names[1..][k - 1] == names[k];
      }
    }
  }

  /**
   * The front end reads back what `hakpak2 list` prints: one entry per tool,
   * in the order printed, with its name and methods.
   */
  lemma ListRoundTrip(lines: seq<string>, names: seq<string>, tools: map<string, V2Tool>)
    requires ListedAs(lines, names, tools)
    requires forall k :: 0 <= k < |names| ==> PlainName(names[k])
    ensures var parsed := ParsedTools(SplitLines(Printed(lines)));
      |parsed| == |names|
      && forall k :: 0 <= k < |names| ==> parsed[k] == ToolEntry(names[k], ShownMethods(tools[names[k]]))
  {
    forall k | 0 <= k < |lines|
      ensures OneLine(lines[k])
    {
      ListLineOneLine(names[k], tools[names[k]]);
    }
    SplitPrinted(lines);
    ParseEach(lines, names, tools);
  }

  // ---- _read_state and api_status ----

  /** The registry the front end shows when no state can be read. */
  const EmptyState := V2Registry(Some(map[]))

  /** The index of the first candidate file that exists. */
  function FirstExisting(candidates: seq<V2File>): (r: Option<nat>)
    ensures r.Some? ==>
      && r.value < |candidates| && !candidates[r.value].NoFile?
      && forall j :: 0 <= j < r.value ==> candidates[j].NoFile?
    ensures r.None? ==> forall j :: 0 <= j < |candidates| ==> candidates[j].NoFile?
    decreases |candidates|
  {
    if candidates == [] then None
    else if !candidates[0].NoFile? then Some(0)
    else match FirstExisting(candidates[1..])
      case None => None
      case Some(i) => Some(i + 1)
  }

  /**
   * `_read_state`: the first existing file wins; if it cannot be parsed the
   * empty registry is shown without trying the next candidate.
   */
  method ReadState(candidates: seq<V2File>) returns (state: V2Registry)
    ensures match FirstExisting(candidates)
      case None => state == EmptyState
      case Some(i) => state == (if candidates[i].Saved? then candidates[i].registry else EmptyState)
  {
    var k := 0;
    while k < |candidates|
      invariant k <= |candidates|
      invariant forall j :: 0 <= j < k ==> candidates[j].NoFile?
    {
      match candidates[k] {
        case NoFile =>
        case Corrupt =>
          FirstExistingAt(candidates, k);
          return EmptyState;
        case Saved(reg) =>
          FirstExistingAt(candidates, k);
          return reg;
      }
      k := k + 1;
    }
    return EmptyState;
  }

  lemma {:induction false} FirstExistingAt(candidates: seq<V2File>, k: nat)
    requires k < |candidates| && !candidates[k].NoFile?
    requires forall j :: 0 <= j < k ==> candidates[j].NoFile?
    ensures FirstExisting(candidates) == Some(k)
    decreases k
  {
    if k > 0 {
      FirstExistingAt(candidates[1..], k - 1);
    }
  }

  /** `api_status`: always ok, with whatever state could be read. */
  method ApiStatus(candidates: seq<V2File>) returns (reply: Reply)
    ensures reply.status == 200 && reply.ok && reply.body.StateDoc?
    ensures match FirstExisting(candidates)
      case None => reply.body.state == EmptyState
      case Some(i) => reply.body.state == (if candidates[i].Saved? then candidates[i].registry else EmptyState)
  {
    var state := ReadState(candidates);
    reply := Reply(200, true, StateDoc(state));
  }

  // ---- api_install, api_uninstall, api_repo ----

  /** A request field that Python treats as true: present and non-empty. */
  predicate Given(o: Option<string>) {
    o.Some? && o.value != ""
  }

  const ToolRequired := "tool required"
  const BadAction := "action must be add|remove|status"

  /** `api_install`: the tool is required; the method defaults to "auto"; "--dry-run" is added on request. */
  method ApiInstall(req: Request, launch: seq<string> -> Launch) returns (reply: Reply)
    ensures !Given(req.tool) ==> reply == Reply(400, false, ErrorBody(ToolRequired))
    ensures Given(req.tool) ==>
      var cmd := ["hakpak2", "install", req.tool.value, "--method", req.how.GetOr("auto")]
                 + (if req.dryRun then ["--dry-run"] else []);
      reply == OutputReply(RunProcess(cmd, launch))
  {
    if !Given(req.tool) {
      return Reply(400, false, ErrorBody(ToolRequired));
    }
    var cmd := ["hakpak2", "install", req.tool.value, "--method", req.how.GetOr("auto")];
    var extra := if req.dryRun then ["--dry-run"] else [];
    cmd := cmd + extra;
    var run := RunProcess(cmd, launch);
    reply := OutputReply(run);
  }

  /** `api_uninstall`: the tool is required. */
  function ApiUninstall(req: Request, launch: seq<string> -> Launch): (r: Reply)
    ensures !Given(req.tool) <==> r == Reply(400, false, ErrorBody(ToolRequired))
    ensures Given(req.tool) ==> r == OutputReply(RunProcess(["hakpak2", "uninstall", req.tool.value], launch))
  {
    if !Given(req.tool) then Reply(400, false, ErrorBody(ToolRequired))
    else OutputReply(RunProcess(["hakpak2", "uninstall", req.tool.value], launch))
  }

  /** `api_repo`: only add, remove and status are passed on. */
  function ApiRepo(req: Request, launch: seq<string> -> Launch): (r: Reply)
    ensures r.status == 400 <==> !(req.action.Some? && req.action.value in ["add", "remove", "status"])
    ensures r.status == 400 ==> r == Reply(400, false, ErrorBody(BadAction))
    ensures r.status != 400 ==> r == OutputReply(RunProcess(["hakpak2", "repo", req.action.value], launch))
  {
    if !(req.action.Some? && req.action.value in ["add", "remove", "status"]) then Reply(400, false, ErrorBody(BadAction))
    else OutputReply(RunProcess(["hakpak2", "repo", req.action.value], launch))
  }

  /** A handler that refuses a request launches nothing: its reply does not depend on the launcher. */
  lemma RefusalLaunchesNothing(req: Request, l1: seq<string> -> Launch, l2: seq<string> -> Launch)
    requires !Given(req.tool)
    ensures ApiUninstall(req, l1) == ApiUninstall(req, l2)
  {
  }
}

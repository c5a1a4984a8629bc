/**
 * The installation filter: bounds on score, size and RAM plus tag inclusion
 * and exclusion that a tool must pass to be offered for installation.
 */
module Filter {
  import opened Wrappers
  import opened Model
  import opened Scorer

  /** Filter parameters; an absent bound is `None`, an absent tag list the empty list. */
  datatype InstallParams = InstallParams(
    minCompatibility: int,
    maxCompatibility: int,
    maxSizeMb: Option<real>,
    maxRamMb: Option<int>,
    tagsFilter: seq<string>,
    excludeTags: seq<string>,
    maxCount: Option<int>)

  /** The parameters a fresh filter starts with: scores 0 to 100 and nothing else restricted. */
  const Defaults: InstallParams := InstallParams(0, 100, None, None, [], [], None)

  /** Some tag of `wanted` is among the tool's tags. */
  predicate AnyTagIn(wanted: seq<string>, tags: seq<string>) {
    exists i :: 0 <= i < |wanted| && wanted[i] in tags
  }

  /** `InstallParams.matches`: the checks in the order the source makes them. */
  predicate Matches(p: InstallParams, t: Tool, sys: SystemInfo) {
    var score := ScoreTool(t, sys);
    if score < p.minCompatibility || score > p.maxCompatibility then false
    else if p.maxSizeMb.Some? && TotalSizeMb(t) > p.maxSizeMb.value then false
    else if p.maxRamMb.Some? && t.metrics.ramRequiredMb > p.maxRamMb.value then false
    else if |p.tagsFilter| > 0 && !AnyTagIn(p.tagsFilter, t.tags) then false
    else if |p.excludeTags| > 0 && AnyTagIn(p.excludeTags, t.tags) then false
    else true
  }

  /** The reasons a tool is rejected, each stated on its own. */
  predicate Rejected(p: InstallParams, t: Tool, sys: SystemInfo) {
    || ScoreTool(t, sys) < p.minCompatibility
    || ScoreTool(t, sys) > p.maxCompatibility
    || (p.maxSizeMb.Some? && TotalSizeMb(t) > p.maxSizeMb.value)
    || (p.maxRamMb.Some? && t.metrics.ramRequiredMb > p.maxRamMb.value)
    || (|p.tagsFilter| > 0 && !AnyTagIn(p.tagsFilter, t.tags))
    || AnyTagIn(p.excludeTags, t.tags)
  }

  /** A tool fails the filter exactly when one of the rejection reasons holds. */
  lemma MatchesIffNotRejected(p: InstallParams, t: Tool, sys: SystemInfo)
    ensures Matches(p, t, sys) <==> !Rejected(p, t, sys)
  {
  }

  /** The default parameters let every tool through. */
  lemma DefaultsAcceptAll(t: Tool, sys: SystemInfo)
    ensures Matches(Defaults, t, sys)
  {
  }

  /** `q` is at least as permissive as `p` in every check. */
  predicate Looser(p: InstallParams, q: InstallParams) {
    && q.minCompatibility <= p.minCompatibility
    && q.maxCompatibility >= p.maxCompatibility
    && (q.maxSizeMb.Some? ==> p.maxSizeMb.Some? && p.maxSizeMb.value <= q.maxSizeMb.value)
    && (q.maxRamMb.Some? ==> p.maxRamMb.Some? && p.maxRamMb.value <= q.maxRamMb.value)
    && (|q.tagsFilter| > 0 ==> |p.tagsFilter| > 0 && forall x :: x in p.tagsFilter ==> x in q.tagsFilter)
    && (forall x :: x in q.excludeTags ==> x in p.excludeTags)
  }

  /** Loosening the parameters never rejects a tool the tighter ones accepted. */
  lemma {:induction false} LooserAcceptsMore(p: InstallParams, q: InstallParams, t: Tool, sys: SystemInfo)
    requires Looser(p, q)
    requires Matches(p, t, sys)
    ensures Matches(q, t, sys)
  {
    MatchesIffNotRejected(p, t, sys);
    MatchesIffNotRejected(q, t, sys);
    if |q.tagsFilter| > 0 {
      var i :| 0 <= i < |p.tagsFilter| && p.tagsFilter[i] in t.tags;
      assert p.tagsFilter[i] in q.tagsFilter;
      var j :| 0 <= j < |q.tagsFilter| && q.tagsFilter[j] == p.tagsFilter[i];
    }
    forall i | 0 <= i < |q.excludeTags|
      ensures q.excludeTags[i] !in t.tags
    {
      assert q.excludeTags[i] in p.excludeTags;
    }
  }

  /** The maximum count plays no part in the per-tool check. */
  lemma MaxCountIrrelevant(p: InstallParams, n: Option<int>, t: Tool, sys: SystemInfo)
    ensures Matches(p, t, sys) == Matches(p.(maxCount := n), t, sys)
  {
  }

  // The host and tool of the parameter tests: an Ubuntu host with apt, 4096 MB
  // free RAM and 200 GB free disk, and a 50 + 20 MB tool needing 512 MB of RAM.

  const TestSystem: SystemInfo :=
    SystemInfo("Ubuntu", "22.04", "ubuntu", "debian", "5.15", "x86_64", 4, 8192, 4096, 500.0, 200.0, "apt")

  const TestTool: Tool :=
    Tool("test-tool", "test", Standard, "Test tool for validation", map["apt" := "test-pkg"], map[], [],
         ToolMetrics(50.0, 20.0, 512, 75), None, ["test", "network"])

  /** The test tool scores 40 + 25 + 15 + 15 on the test host. */
  lemma TestToolScore()
    ensures ScoreTool(TestTool, TestSystem) == 95
  {
  }

  /** The parameter tests: a 70 MB tool passes min 50 / max 100 MB, fails max 50 MB, passes include "network" and exclude "web". */
  lemma {:induction false} TestCases()
    ensures Matches(InstallParams(50, 100, Some(100.0), None, [], [], None), TestTool, TestSystem)
    ensures !Matches(InstallParams(0, 100, Some(50.0), None, [], [], None), TestTool, TestSystem)
    ensures Matches(InstallParams(0, 100, None, None, ["network"], [], None), TestTool, TestSystem)
    ensures Matches(InstallParams(0, 100, None, None, [], ["web"], None), TestTool, TestSystem)
  {
    TestToolScore();
    assert ["network"][0] in TestTool.tags;
  }
}

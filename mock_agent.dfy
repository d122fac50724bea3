/**
 * The front end's stand-in agent: it picks a canned response set from the
 * query and plays it back as a trace of session snapshots, one tool at a
 * time, before announcing the final answer.
 */
module MockAgent {
  import opened Wrappers
  import opened Text
  import opened ToolKeys

  /** A canned tool call: the tool's name and the text it returns. */
  datatype ToolSpec = ToolSpec(tool: string, result: string)

  /** The tools a canned answer runs, in order, and the answer itself. */
  datatype ResponseSet = ResponseSet(tools: seq<ToolSpec>, finalAnswer: string)

  /** One entry of a snapshot's results: a tool, its state and its output so far. */
  datatype ToolStatus = ToolStatus(tool: string, status: string, result: string)

  /** A session snapshot as handed to `onUpdate` (and returned at the end). */
  datatype Update = Update(sessionId: string, status: string, results: map<string, ToolStatus>, finalAnswer: Option<string>)

  /** The canned answers by kind of query (`queryResponses`). */
  datatype Catalogue = Catalogue(fallback: ResponseSet, house: ResponseSet, office: ResponseSet)

  const QUERY_RESPONSES: Catalogue := Catalogue(DEFAULT_SET, HOUSE_SET, OFFICE_SET)

  const DEFAULT_SET: ResponseSet := ResponseSet(
    [ ToolSpec("search_documents",
        "Found 3 relevant documents:\n- Document 1: Project specifications\n- Document 2: Building codes\n- Document 3: Material specifications"),
      ToolSpec("analyze_requirements",
        "Requirements analysis complete:\n- Minimum floor area: 2000 sq ft\n- Maximum height: 30 ft\n- Energy efficiency rating: A"),
      ToolSpec("generate_options",
        "Generated 4 design options with different layouts and specifications.") ],
    "Based on the requirements analysis and available documents, I've generated 4 design options that meet all specifications. Each option varies in layout, material usage, and energy efficiency approaches. Option 3 provides the best balance of space utilization and energy efficiency.")

  const HOUSE_SET: ResponseSet := ResponseSet(
    [ ToolSpec("search_building_types",
        "Found residential building types:\n- Single family home\n- Duplex\n- Townhouse\n- Apartment building"),
      ToolSpec("analyze_residential_requirements",
        "Standard residential requirements:\n- Minimum bedroom size: 70 sq ft\n- Minimum ceiling height: 7 ft\n- Egress requirements for bedrooms\n- Kitchen and bathroom ventilation"),
      ToolSpec("generate_house_design",
        "Generated basic house design with:\n- 3 bedrooms\n- 2 bathrooms\n- Open concept kitchen/living area\n- 2-car garage\n- Total area: 1,800 sq ft"),
      ToolSpec("calculate_energy_efficiency",
        "Energy efficiency calculation:\n- Insulation R-value: 19 (walls), 38 (roof)\n- Window efficiency: U-factor 0.30\n- HVAC efficiency: 16 SEER\n- Estimated energy consumption: 45 kWh/m\U{b2}/year") ],
    "I've designed a 1,800 sq ft single-family home with 3 bedrooms and 2 bathrooms. The design features an open concept living area, energy-efficient appliances, and meets all standard residential building codes. The estimated energy consumption is 45 kWh/m\U{b2}/year, which qualifies for an A energy rating.")

  const OFFICE_SET: ResponseSet := ResponseSet(
    [ ToolSpec("search_commercial_requirements",
        "Commercial building requirements:\n- Accessibility standards (ADA compliance)\n- Fire safety regulations\n- Minimum parking requirements\n- Ventilation standards for commercial spaces"),
      ToolSpec("analyze_office_space_needs",
        "Office space analysis:\n- Typical workspace: 75-150 sq ft per employee\n- Conference rooms: 25-30 sq ft per person\n- Circulation space: 25-30% of total area\n- Support spaces (kitchen, restrooms): 15-20% of total area"),
      ToolSpec("generate_office_layout",
        "Generated office building layout:\n- 5 floors, 10,000 sq ft per floor\n- Open office areas with flexible workstations\n- 8 conference rooms of varying sizes\n- Central core with elevators, stairs, and restrooms\n- Ground floor reception and caf\U{e9} area"),
      ToolSpec("calculate_construction_costs",
        "Construction cost estimate:\n- Structure: $8.5M\n- MEP systems: $3.2M\n- Interior finishes: $2.8M\n- Site work: $1.5M\n- Total estimated cost: $16M ($320 per sq ft)") ],
    "I've designed a 50,000 sq ft office building with 5 floors. The design features flexible open office areas, 8 conference rooms, and support spaces including a ground floor caf\U{e9}. The building meets all commercial building codes including ADA requirements and fire safety regulations. The estimated construction cost is $16 million ($320 per square foot).")

  /** The response set for a query: "house" anywhere in it wins, then "office", else the default. */
  function SelectResponseSet(responses: Catalogue, query: string): (r: ResponseSet)
    ensures Contains(Lower(query), "house") ==> r == responses.house
    ensures !Contains(Lower(query), "house") && Contains(Lower(query), "office") ==> r == responses.office
    ensures !Contains(Lower(query), "house") && !Contains(Lower(query), "office") ==> r == responses.fallback
  {
    var lowerQuery := Lower(query);
    if Contains(lowerQuery, "house") then responses.house
    else if Contains(lowerQuery, "office") then responses.office
    else responses.fallback
  }

  lemma LowerTwice(s: string)
    ensures Lower(Lower(s)) == Lower(s)
  {}

  /** The choice does not depend on letter case. */
  lemma SelectionIgnoresCase(responses: Catalogue, query: string)
    ensures SelectResponseSet(responses, Lower(query)) == SelectResponseSet(responses, query)
  {
    LowerTwice(query);
  }

  /** `startSession`: a snapshot that is initialising, with no results and no answer. */
  function StartSession(sessionId: string): (r: Update)
    ensures r.sessionId == sessionId && r.status == "initializing"
    ensures r.results == map[] && r.finalAnswer == None
  {
    Update(sessionId, "initializing", map[], None)
  }

  /** `simulateToolExecution` once its delay has passed: the tool, finished, with its result. */
  function SimulateToolExecution(toolName: string, result: string): (r: ToolStatus)
    ensures r.tool == toolName && r.status == "Finished" && r.result == result
  {
    ToolStatus(toolName, "Finished", result)
  }

  /** The placeholder shown while a tool runs. */
  function RunningEntry(t: ToolSpec): ToolStatus {
    ToolStatus(t.tool, "Running", "Executing...")
  }

  /** The finished entry of each tool, in order. */
  function Finished(tools: seq<ToolSpec>): (r: seq<ToolStatus>)
    ensures |r| == |tools|
  {
    seq(|tools|, k requires 0 <= k < |tools| => SimulateToolExecution(tools[k].tool, tools[k].result))
  }

  function Running(sessionId: string, results: map<string, ToolStatus>): Update {
    Update(sessionId, "running", results, None)
  }

  /** The two snapshots of tool `i`: placeholder in place, then its finished entry. */
  function ToolSnapshots(sessionId: string, tools: seq<ToolSpec>, i: nat): seq<Update>
    requires i < |tools|
  {
    var done := Keyed(Finished(tools)[..i]);
    [Running(sessionId, done[ToolKey(i) := RunningEntry(tools[i])]), Running(sessionId, Keyed(Finished(tools)[..i + 1]))]
  }

  /** The snapshots of the first `n` tools. */
  function ToolsSnapshots(sessionId: string, tools: seq<ToolSpec>, n: nat): seq<Update>
    requires n <= |tools|
  {
    if n == 0 then [] else ToolsSnapshots(sessionId, tools, n - 1) + ToolSnapshots(sessionId, tools, n - 1)
  }

  /** Every snapshot `processQuery` hands to `onUpdate` when playing back `chosen`, in order. */
  function Snapshots(sessionId: string, chosen: ResponseSet): seq<Update> {
    [Running(sessionId, map[])]
    + ToolsSnapshots(sessionId, chosen.tools, |chosen.tools|)
    + [Update(sessionId, "completed", Keyed(Finished(chosen.tools)), Some(chosen.finalAnswer))]
  }

  /**
   * `processQuery`: the snapshots passed to `onUpdate`, in order, and the
   * value returned, which is the last of them.
   */
  method ProcessQuery(responses: Catalogue, sessionId: string, query: string) returns (updates: seq<Update>, final: Update)
    ensures updates == Snapshots(sessionId, SelectResponseSet(responses, query))
    ensures final == updates[|updates| - 1]
  {
    updates := [Update(sessionId, "running", map[], None)];
    var responseSet := SelectResponseSet(responses, query);
    var tools := responseSet.tools;
    var results: map<string, ToolStatus> := map[];
    for i := 0 to |tools|
      invariant results == Keyed(Finished(tools)[..i])
      invariant updates == [Running(sessionId, map[])] + ToolsSnapshots(sessionId, tools, i)
    {
      var tool := tools[i];
      var toolKey := ToolKey(i);
      results := results[toolKey := ToolStatus(tool.tool, "Running", "Executing...")];
      updates := updates + [Update(sessionId, "running", results, None)];
      var completedTool := SimulateToolExecution(tool.tool, tool.result);
      results := results[toolKey := completedTool];
      KeyedPrefixStep(Finished(tools), i);
      updates := updates + [Update(sessionId, "running", results, None)];
    }
    assert Finished(tools)[..|tools|] == Finished(tools);
    final := Update(sessionId, "completed", results, Some(responseSet.finalAnswer));
    updates := updates + [final];
  }

  // ---------------------------------------------------------------- the trace

  lemma {:induction false} ToolsSnapshotsLength(sessionId: string, tools: seq<ToolSpec>, n: nat)
    requires n <= |tools|
    ensures |ToolsSnapshots(sessionId, tools, n)| == 2 * n
  {
    if n > 0 {
      ToolsSnapshotsLength(sessionId, tools, n - 1);
    }
  }

  /** Snapshots `2i` and `2i + 1` of the tool part belong to tool `i`. */
  lemma {:induction false} ToolsSnapshotsAt(sessionId: string, tools: seq<ToolSpec>, n: nat, i: nat)
    requires i < n <= |tools|
    ensures |ToolsSnapshots(sessionId, tools, n)| == 2 * n
    ensures ToolsSnapshots(sessionId, tools, n)[2 * i] == ToolSnapshots(sessionId, tools, i)[0]
    ensures ToolsSnapshots(sessionId, tools, n)[2 * i + 1] == ToolSnapshots(sessionId, tools, i)[1]
  {
    ToolsSnapshotsLength(sessionId, tools, n);
    ToolsSnapshotsLength(sessionId, tools, n - 1);
    if i < n - 1 {
      ToolsSnapshotsAt(sessionId, tools, n - 1, i);
    }
  }

  /** Every snapshot of the tool part is still running, with no answer. */
  lemma {:induction false} ToolsSnapshotsRunning(sessionId: string, tools: seq<ToolSpec>, n: nat)
    requires n <= |tools|
    ensures forall u :: u in ToolsSnapshots(sessionId, tools, n) ==> u.status == "running" && u.finalAnswer == None
  {
    if n > 0 {
      ToolsSnapshotsRunning(sessionId, tools, n - 1);
    }
  }

  /** Filing the finished entries of the first `m` tools gives `tool_0` .. `tool_{m-1}`, each finished. */
  lemma FinishedPrefix(tools: seq<ToolSpec>, m: nat)
    requires m <= |tools|
    ensures Keyed(Finished(tools)[..m]).Keys == ToolKeys.ToolKeys(m)
    ensures forall j :: 0 <= j < m ==>
      Keyed(Finished(tools)[..m])[ToolKey(j)] == ToolStatus(tools[j].tool, "Finished", tools[j].result)
  {
    KeyedContents(Finished(tools)[..m]);
  }

  /** For `n` tools `onUpdate` is called `2n + 2` times. */
  lemma SnapshotCount(sessionId: string, chosen: ResponseSet)
    ensures |Snapshots(sessionId, chosen)| == 2 * |chosen.tools| + 2
  {
    var tools := chosen.tools;
    ToolsSnapshotsLength(sessionId, tools, |tools|);
  }

  /** Every snapshot but the last is running, with no final answer. */
  lemma AllButLastRunning(sessionId: string, chosen: ResponseSet)
    ensures var us := Snapshots(sessionId, chosen);
      forall k :: 0 <= k < |us| - 1 ==> us[k].status == "running" && us[k].finalAnswer == None
  {
    var tools := chosen.tools;
    var us := Snapshots(sessionId, chosen);
    var middle := ToolsSnapshots(sessionId, tools, |tools|);
    ToolsSnapshotsRunning(sessionId, tools, |tools|);
    forall k | 0 <= k < |us| - 1 ensures us[k].status == "running" && us[k].finalAnswer == None {
      if k > 0 {
        assert us[k] == middle[k - 1];
      }
    }
  }

  /**
   * The last snapshot is completed: results `tool_0` .. `tool_{n-1}`, each
   * the finished entry of its tool, and the set's final answer.
   */
  lemma LastSnapshot(sessionId: string, chosen: ResponseSet)
    ensures var us := Snapshots(sessionId, chosen);
      var last := us[|us| - 1];
      && last.status == "completed"
      && last.finalAnswer == Some(chosen.finalAnswer)
      && last.results.Keys == ToolKeys.ToolKeys(|chosen.tools|)
      && forall j :: 0 <= j < |chosen.tools| ==>
           last.results[ToolKey(j)] == ToolStatus(chosen.tools[j].tool, "Finished", chosen.tools[j].result)
  {
    FinishedPrefix(chosen.tools, |chosen.tools|);
    assert Finished(chosen.tools)[..|chosen.tools|] == Finished(chosen.tools);
  }

  /**
   * Before tool `i` runs, snapshot `2i + 1` shows `tool_0` .. `tool_i`: the
   * earlier tools finished with their results and tool `i` running.
   */
  lemma PlaceholderSnapshot(sessionId: string, chosen: ResponseSet, i: nat)
    requires i < |chosen.tools|
    ensures var us := Snapshots(sessionId, chosen);
      var tools := chosen.tools;
      && 2 * i + 1 < |us|
      && us[2 * i + 1].results.Keys == ToolKeys.ToolKeys(i + 1)
      && us[2 * i + 1].results[ToolKey(i)] == ToolStatus(tools[i].tool, "Running", "Executing...")
      && forall j :: 0 <= j < i ==>
           us[2 * i + 1].results[ToolKey(j)] == ToolStatus(tools[j].tool, "Finished", tools[j].result)
  {
    var tools := chosen.tools;
    var us := Snapshots(sessionId, chosen);
    ToolsSnapshotsAt(sessionId, tools, |tools|, i);
    assert us[2 * i + 1] == ToolSnapshots(sessionId, tools, i)[0];
    PlaceholderContents(tools, i);
  }

  lemma PlaceholderContents(tools: seq<ToolSpec>, i: nat)
    requires i < |tools|
    ensures var m := Keyed(Finished(tools)[..i])[ToolKey(i) := RunningEntry(tools[i])];
      && m.Keys == ToolKeys.ToolKeys(i + 1)
      && m[ToolKey(i)] == ToolStatus(tools[i].tool, "Running", "Executing...")
      && forall j :: 0 <= j < i ==> m[ToolKey(j)] == ToolStatus(tools[j].tool, "Finished", tools[j].result)
  {
    FinishedPrefix(tools, i);
    ToolKeysStep(i);
    forall j | 0 <= j < i ensures ToolKey(j) != ToolKey(i) {
      if ToolKey(j) == ToolKey(i) { ToolKeyInjective(j, i); }
    }
  }

  /**
   * After tool `i` finishes, snapshot `2i + 2` shows `tool_0` .. `tool_i`
   * all finished: only `tool_i` differs from the snapshot before.
   */
  lemma FinishedSnapshot(sessionId: string, chosen: ResponseSet, i: nat)
    requires i < |chosen.tools|
    ensures var us := Snapshots(sessionId, chosen);
      var tools := chosen.tools;
      && 2 * i + 2 < |us|
      && us[2 * i + 2].results.Keys == ToolKeys.ToolKeys(i + 1)
      && us[2 * i + 2].results[ToolKey(i)] == ToolStatus(tools[i].tool, "Finished", tools[i].result)
      && forall j :: 0 <= j < i ==>
           us[2 * i + 2].results[ToolKey(j)] == ToolStatus(tools[j].tool, "Finished", tools[j].result)
  {
    var tools := chosen.tools;
    var us := Snapshots(sessionId, chosen);
    ToolsSnapshotsAt(sessionId, tools, |tools|, i);
    assert us[2 * i + 2] == ToolSnapshots(sessionId, tools, i)[1];
    FinishedPrefix(tools, i + 1);
  }
}

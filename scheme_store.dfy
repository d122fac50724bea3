/**
 * The scheme service: an in-memory list of building schemes, filled from
 * the agent's tool results and edited in place by id.
 */
module SchemeStore {
  import opened Wrappers
  import opened Text
  import opened Values
  import opened SchemeModels
  import opened SchemeConvert

  /** The colour palette; a scheme takes the entry at its id modulo the palette size. */
  const SCHEME_COLORS: seq<string> := [
    "#ff4040", "#40ff40", "#4040ff", "#ffff40", "#ff40ff",
    "#40ffff", "#ff8040", "#40ff80", "#8040ff", "#ff4080"]

  /** `SCHEME_COLORS[id % len(SCHEME_COLORS)]`; Python's `%` with a positive divisor is never negative. */
  function ColorFor(id: int): (c: string)
    ensures c in SCHEME_COLORS
  {
    SCHEME_COLORS[id % |SCHEME_COLORS|]
  }

  /** The palette repeats every ten ids. */
  lemma ColorCycle(a: int)
    ensures ColorFor(a + 10) == ColorFor(a)
  {
    assert (a + 10) % 10 == a % 10;
  }

  /** `max([s.id for s in schemes], default=0) + 1`. */
  function NextId(schemes: seq<Scheme>): (r: int)
    ensures forall i :: 0 <= i < |schemes| ==> schemes[i].id < r
    ensures schemes == [] ==> r == 1
    ensures schemes != [] ==> exists i :: 0 <= i < |schemes| && schemes[i].id == r - 1
  {
    if schemes == [] then 1
    else
      var rest := NextId(schemes[..|schemes| - 1]);
      var last := schemes[|schemes| - 1].id;
      if |schemes| == 1 || last + 1 >= rest then last + 1 else rest
  }

  /** A scheme that takes the next id becomes the new largest id, so the id after it is one more. */
  lemma {:induction false} NextIdAfter(schemes: seq<Scheme>, s: Scheme)
    requires s.id == NextId(schemes)
    ensures NextId(schemes + [s]) == s.id + 1
  {
    assert (schemes + [s])[..|schemes|] == schemes;
  }

  // ---------------------------------------------------------------- creating a scheme

  /** The five parameters read from the agent's data, with their defaults. */
  function ExtractedParameters(data: Entries, show: Value -> string): (p: Fields)
    ensures p.Keys == PARAMETER_FIELDS
  {
    map["grid_spacing_x" := Extracted(data, "grid_spacing_x", "6", show),
        "grid_spacing_y" := Extracted(data, "grid_spacing_y", "7", show),
        "extents_x" := Extracted(data, "extents_x", "30", show),
        "extents_y" := Extracted(data, "extents_y", "24", show),
        "no_of_floors" := Extracted(data, "no_of_floors", "3", show)]
  }

  /** Evaluations exist when the data names a steel tonnage, a column size or a structural depth. */
  predicate HasEvaluations(data: Entries) {
    HasKey(data, "steel_tonnage") || HasKey(data, "column_size") || HasKey(data, "structural_depth")
  }

  /** The five evaluations read from the agent's data, each defaulting to "unknown". */
  function ExtractedEvaluations(data: Entries, show: Value -> string): (e: Option<Fields>)
    ensures e.Some? <==> HasEvaluations(data)
    ensures e.Some? ==> e.value.Keys == EVALUATION_FIELDS
  {
    if HasEvaluations(data) then
      Some(map["steel_tonnage" := Extracted(data, "steel_tonnage", "unknown", show),
               "column_size" := Extracted(data, "column_size", "unknown", show),
               "structural_depth" := Extracted(data, "structural_depth", "unknown", show),
               "concrete_tonnage" := Extracted(data, "concrete_tonnage", "unknown", show),
               "total_emissions" := Extracted(data, "total_emissions", "unknown", show)])
    else None
  }

  /** Every evaluation "unknown". */
  const UNKNOWN_EVALUATIONS: Fields :=
    map["steel_tonnage" := Str("unknown"), "column_size" := Str("unknown"),
        "structural_depth" := Str("unknown"), "concrete_tonnage" := Str("unknown"),
        "total_emissions" := Str("unknown")]

  /** `_create_default_scheme`: a 30 x 24 x 9 block of three floors, evaluations unknown. */
  function DefaultScheme(existing: seq<Scheme>): (s: Scheme)
    ensures WellFormed(s)
    ensures s.id == NextId(existing) && s.color == Str(ColorFor(s.id))
    ensures s.width == Num(30.0) && s.depth == Num(24.0) && s.height == Num(9.0)
    ensures s.parameters["no_of_floors"] == Int(3)
    ensures s.evaluations == Some(UNKNOWN_EVALUATIONS)
  {
    var id := NextId(existing);
    NewScheme(id,
      map["grid_spacing_x" := Num(6.0), "grid_spacing_y" := Num(7.0), "extents_x" := Num(30.0),
          "extents_y" := Num(24.0), "no_of_floors" := Int(3)],
      Some(UNKNOWN_EVALUATIONS), Num(30.0), Num(24.0), Num(9.0), ColorFor(id))
  }

  /**
   * `create_scheme_from_agent_data`. Reading the floor count raises only
   * for an infinite or NaN float; the exception is caught and the default
   * scheme returned instead.
   */
  function SchemeFromAgentData(existing: seq<Scheme>, data: Entries, show: Value -> string): (s: Scheme)
    ensures s.id == NextId(existing)
  {
    var id := NextId(existing);
    var parameters := ExtractedParameters(data, show);
    match ToInt(parameters["no_of_floors"])
    case None => DefaultScheme(existing)
    case Some(floors) =>
      NewScheme(id, parameters, ExtractedEvaluations(data, show),
        ToFloat(parameters["extents_x"]), ToFloat(parameters["extents_y"]),
        Num((floors * 3) as real), ColorFor(id))
  }

  /** A created scheme has the five parameters (and five evaluations if any), its colour, and stands at the origin. */
  lemma CreatedWellFormed(existing: seq<Scheme>, data: Entries, show: Value -> string)
    ensures var s := SchemeFromAgentData(existing, data, show);
      && WellFormed(s) && s.color == Str(ColorFor(s.id))
      && s.positionX == s.positionY == s.positionZ == Int(0)
  {}

  /**
   * Unless the floor count cannot be read, the scheme carries the
   * extracted parameters, is as wide and deep as the extents read as
   * floats, is three metres per floor high, and has evaluations exactly
   * when one of the three evaluation keys is present.
   */
  lemma CreatedScheme(existing: seq<Scheme>, data: Entries, show: Value -> string)
    ensures var s := SchemeFromAgentData(existing, data, show);
      var p := ExtractedParameters(data, show);
      match ToInt(p["no_of_floors"])
      case None => s == DefaultScheme(existing)
      case Some(floors) =>
        && s.parameters == p
        && (s.evaluations.Some? <==> HasEvaluations(data))
        && s.width == ToFloat(p["extents_x"]) && s.depth == ToFloat(p["extents_y"])
        && s.height == Num((floors * 3) as real)
  {}

  /** Data giving the floor count as a decimal string yields a scheme 3 m per floor high. */
  lemma CreatedHeight(existing: seq<Scheme>, data: Entries, show: Value -> string, n: nat)
    requires HasKey(data, "no_of_floors") && Get(data, "no_of_floors") == Str(DecimalString(n))
    ensures SchemeFromAgentData(existing, data, show).height == Num((n * 3) as real)
  {
    NormalizedDecimal(n, "3", show);
  }

  /** The default sizes are decimal spellings. */
  lemma DefaultSpellings()
    ensures DecimalString(30) == "30" && DecimalString(24) == "24" && DecimalString(3) == "3"
  {}

  /** Data without any recognisable key gives the default sizes, read back from their strings. */
  lemma CreatedFromEmptyData(existing: seq<Scheme>, show: Value -> string)
    ensures var s := SchemeFromAgentData(existing, [], show);
      && s.width == Num(30.0) && s.depth == Num(24.0) && s.height == Num(9.0)
      && s.evaluations.None? && s.parameters["extents_x"] == Str("30")
  {
    var p := ExtractedParameters([], show);
    assert p["extents_x"] == Str(DecimalString(30)) by {
      ExtractedFromEmpty("extents_x", "30", show);
      DefaultSpellings();
    }
    assert p["extents_y"] == Str(DecimalString(24)) by {
      ExtractedFromEmpty("extents_y", "24", show);
      DefaultSpellings();
    }
    assert p["no_of_floors"] == Str(DecimalString(3)) by {
      ExtractedFromEmpty("no_of_floors", "3", show);
      DefaultSpellings();
    }
    assert ToInt(p["no_of_floors"]) == Some(3) by { ToIntOfDecimal(3); }
    assert ToFloat(p["extents_x"]) == Num(30.0) by { ToFloatOfDecimal(30); }
    assert ToFloat(p["extents_y"]) == Num(24.0) by { ToFloatOfDecimal(24); }
  }

  /** A floor count that cannot be turned into an int makes the whole scheme the default one. */
  lemma CreatedFallback(existing: seq<Scheme>, data: Entries, show: Value -> string, negative: bool)
    requires HasKey(data, "no_of_floors") && Get(data, "no_of_floors") == Inf(negative)
    ensures SchemeFromAgentData(existing, data, show) == DefaultScheme(existing)
  {}

  // ---------------------------------------------------------------- tool results

  /** `i` is the first `{` of `text` and `j`, after it, the last `}`. */
  predicate OuterBraces(text: string, i: int, j: int) {
    0 <= i < j < |text| && text[i] == '{' && text[j] == '}'
    && (forall k :: 0 <= k < i ==> text[k] != '{')
    && (forall k :: j < k < |text| ==> text[k] != '}')
  }

  /**
   * The text from the first `{` to the last `}` of `text`, when the last
   * `}` comes after the first `{`.
   */
  function JsonSlice(text: string): (r: Option<string>)
    ensures r.Some? <==> exists i, j :: 0 <= i < j < |text| && text[i] == '{' && text[j] == '}'
    ensures r.Some? ==> |r.value| >= 2 && r.value[0] == '{' && r.value[|r.value| - 1] == '}'
    ensures r.Some? ==> exists i, j :: OuterBraces(text, i, j) && r.value == text[i..j + 1]
  {
    match Find(text, "{", 0)
    case None =>
      assert forall i :: 0 <= i < |text| ==> text[i] != '{' by {
        forall i | 0 <= i < |text| ensures text[i] != '{' { assert !OccursAt(text, "{", i); assert text[i..i + 1] == [text[i]]; }
      }
      None
    case Some(start) =>
      assert text[start] == '{' by { assert text[start..start + 1] == [text[start]]; }
      assert forall i :: 0 <= i < start ==> text[i] != '{' by {
        forall i | 0 <= i < start ensures text[i] != '{' { assert !OccursAt(text, "{", i); assert text[i..i + 1] == [text[i]]; }
      }
      match FindLast(text, '}')
      case None => None
      case Some(end) =>
        if end > start then
          assert OuterBraces(text, start, end);
          Some(text[start..end + 1])
        else None
  }

  /**
   * What one entry of the agent's results contributes: the object parsed
   * from the JSON slice of its string "result", when there is one and it
   * parses. `parseObject` is `json.loads`; a slice starting with `{` can
   * only parse to an object.
   */
  function Contribution(result: Value, parseObject: string -> Option<Entries>): (r: Option<Entries>)
    ensures r.Some? ==> result.Obj? && HasKey(result.entries, "result") && Get(result.entries, "result").Str?
    ensures r.Some? ==>
      (JsonSlice(Get(result.entries, "result").s).Some? &&
       r == parseObject(JsonSlice(Get(result.entries, "result").s).value))
    ensures (result.Obj? && HasKey(result.entries, "result") && Get(result.entries, "result").Str? &&
             JsonSlice(Get(result.entries, "result").s).Some?) ==>
      r == parseObject(JsonSlice(Get(result.entries, "result").s).value)
  {
    if result.Obj? && HasKey(result.entries, "result") && Get(result.entries, "result").Str? then
      match JsonSlice(Get(result.entries, "result").s)
      case Some(slice) => parseObject(slice)
      case None => None
    else None
  }

  /** The scheme data found in the agent's results, in iteration order. */
  function Contributions(results: Entries, parseObject: string -> Option<Entries>): (r: seq<Entries>)
    ensures |r| <= |results|
  {
    if results == [] then []
    else
      var prev := Contributions(results[..|results| - 1], parseObject);
      match Contribution(results[|results| - 1].1, parseObject)
      case Some(data) => prev + [data]
      case None => prev
  }

  /** `create_scheme_from_agent_data` as a function of the list it sees and the data. */
  function Creator(show: Value -> string): (build: (seq<Scheme>, Entries) -> Scheme)
  {
    (existing, data) => SchemeFromAgentData(existing, data, show)
  }

  /** The schemes built from `datas` one after another, each seeing the list as it stands with the ones before it. */
  function Added(existing: seq<Scheme>, datas: seq<Entries>, build: (seq<Scheme>, Entries) -> Scheme): (r: seq<Scheme>)
    ensures |r| == |datas|
  {
    if datas == [] then []
    else
      var prev := Added(existing, datas[..|datas| - 1], build);
      prev + [build(existing + prev, datas[|datas| - 1])]
  }

  /** The data found in two runs of results is the data of the first followed by that of the second. */
  lemma {:induction false} ContributionsAppend(a: Entries, b: Entries, parseObject: string -> Option<Entries>)
    ensures Contributions(a + b, parseObject) == Contributions(a, parseObject) + Contributions(b, parseObject)
  {
    if b == [] {
      assert a + b == a;
    } else {
      var n := |b| - 1;
      assert (a + b)[..|a + b| - 1] == a + b[..n];
      ContributionsAppend(a, b[..n], parseObject);
    }
  }

  /** One more result entry contributes its own data, if any, after that of the entries before it. */
  lemma ContributionsNext(results: Entries, i: nat, parseObject: string -> Option<Entries>)
    requires i < |results|
    ensures Contributions(results[..i + 1], parseObject)
      == Contributions(results[..i], parseObject) + Contributions([results[i]], parseObject)
  {
    TakeOneMore(results, i);
    ContributionsAppend(results[..i], [results[i]], parseObject);
  }

  lemma TakeOneMore<T>(s: seq<T>, i: nat)
    requires i < |s|
    ensures s[..i + 1] == s[..i] + [s[i]]
  {}

  /**
   * Building from two runs of data is building from the first, then from
   * the second with the first run's schemes already in the list.
   */
  lemma {:induction false} AddedAppend(existing: seq<Scheme>, xs: seq<Entries>, ys: seq<Entries>,
                                       build: (seq<Scheme>, Entries) -> Scheme)
    ensures var first := Added(existing, xs, build);
      Added(existing, xs + ys, build) == first + Added(existing + first, ys, build)
  {
    var first := Added(existing, xs, build);
    if ys == [] {
      assert xs + ys == xs;
    } else {
      var n := |ys| - 1;
      assert (xs + ys)[..|xs + ys| - 1] == xs + ys[..n];
      AddedAppend(existing, xs, ys[..n], build);
      var mid := Added(existing + first, ys[..n], build);
      assert existing + (first + mid) == existing + first + mid;
    }
  }

  /** After the added schemes, the next free id has moved on by their number. */
  lemma {:induction false} AddedNextId(existing: seq<Scheme>, datas: seq<Entries>, build: (seq<Scheme>, Entries) -> Scheme)
    requires forall ex, d :: build(ex, d).id == NextId(ex)
    ensures NextId(existing + Added(existing, datas, build)) == NextId(existing) + |datas|
  {
    if datas == [] {
      assert existing + [] == existing;
    } else {
      var n := |datas| - 1;
      var prev := Added(existing, datas[..n], build);
      AddedNextId(existing, datas[..n], build);
      var s := build(existing + prev, datas[n]);
      NextIdAfter(existing + prev, s);
      assert existing + prev + [s] == existing + Added(existing, datas, build);
    }
  }

  /** The added schemes take consecutive ids starting at the next free one. */
  lemma {:induction false} AddedIds(existing: seq<Scheme>, datas: seq<Entries>, build: (seq<Scheme>, Entries) -> Scheme)
    requires forall ex, d :: build(ex, d).id == NextId(ex)
    ensures forall k :: 0 <= k < |datas| ==> Added(existing, datas, build)[k].id == NextId(existing) + k
  {
    if datas != [] {
      var n := |datas| - 1;
      var prev := Added(existing, datas[..n], build);
      AddedIds(existing, datas[..n], build);
      AddedNextId(existing, datas[..n], build);
      var all := Added(existing, datas, build);
      assert all[n].id == NextId(existing + prev);
      forall k | 0 <= k < n ensures all[k].id == NextId(existing) + k {
        assert all[k] == prev[k];
      }
    }
  }

  // ---------------------------------------------------------------- updating a scheme

  /** `setattr(record, key, value)` for every pair whose key is already an attribute, in order. */
  function SetFields(f: Fields, es: Entries): (r: Fields)
    ensures r.Keys == f.Keys
  {
    if es == [] then f
    else
      var prev := SetFields(f, es[..|es| - 1]);
      var (k, v) := es[|es| - 1];
      if k in prev then prev[k := v] else prev
  }

  /** With distinct keys, each attribute takes the value given for it, and the others keep theirs. */
  lemma {:induction false} SetFieldsEffect(f: Fields, es: Entries)
    requires DistinctKeys(es)
    ensures forall k :: k in f ==> SetFields(f, es)[k] == (if HasKey(es, k) then Get(es, k) else f[k])
  {
    if es != [] {
      var n := |es| - 1;
      var prev := es[..n];
      SetFieldsEffect(f, prev);
      forall k | k in f ensures SetFields(f, es)[k] == (if HasKey(es, k) then Get(es, k) else f[k]) {
        var i := IndexOfKey(es, k);
        var ip := IndexOfKey(prev, k);
        if ip.Some? { assert es[ip.value] == prev[ip.value]; assert i == ip; }
        else if i.Some? { assert i.value == n; }
      }
    }
  }

  /** The visualisation properties applied in order, each when the updates hold it. */
  function SetVisuals(s: Scheme, updates: Entries, names: seq<string>): (r: Scheme)
    requires forall k :: 0 <= k < |names| ==> names[k] in VISUAL_FIELDS
    ensures r.id == s.id && r.parameters == s.parameters && r.evaluations == s.evaluations
  {
    if names == [] then s
    else
      var prev := SetVisuals(s, updates, names[..|names| - 1]);
      var name := names[|names| - 1];
      if HasKey(updates, name) then SetVisual(prev, name, Get(updates, name)) else prev
  }

  /** Each listed property present in the updates takes its value; every other keeps its own. */
  lemma {:induction false} SetVisualsEffect(s: Scheme, updates: Entries, names: seq<string>)
    requires forall k :: 0 <= k < |names| ==> names[k] in VISUAL_FIELDS
    ensures forall name :: name in VISUAL_FIELDS ==>
      Visual(SetVisuals(s, updates, names), name)
        == (if name in names && HasKey(updates, name) then Get(updates, name) else Visual(s, name))
  {
    if names != [] {
      var n := |names| - 1;
      SetVisualsEffect(s, updates, names[..n]);
      forall name | name in VISUAL_FIELDS
        ensures Visual(SetVisuals(s, updates, names), name)
          == (if name in names && HasKey(updates, name) then Get(updates, name) else Visual(s, name))
      {
        assert name in names <==> name in names[..n] || name == names[n] by {
          assert names == names[..n] + [names[n]];
        }
      }
    }
  }

  /** The outcome of applying updates to a scheme: the scheme as changed, and whether an exception escaped. */
  datatype Applied = Applied(scheme: Scheme, raised: bool)

  /**
   * The body of `update_scheme` for the matching scheme. `.items()` on a
   * parameters or evaluations update that is not a dictionary raises, and
   * so does building evaluations from an object lacking one of the five.
   * Changes made before the exception stay.
   */
  function ApplyUpdates(s: Scheme, updates: Entries): (r: Applied)
    ensures r.scheme.id == s.id
    ensures r.scheme.parameters.Keys == s.parameters.Keys
    ensures !HasKey(updates, "parameters") ==> r.scheme.parameters == s.parameters
    ensures HasKey(updates, "parameters") && !Get(updates, "parameters").Obj? ==> r == Applied(s, true)
    ensures !HasKey(updates, "evaluations") ==> r.scheme.evaluations == s.evaluations
    ensures WellFormed(s) ==> WellFormed(r.scheme)
  {
    var p := Get(updates, "parameters");
    if HasKey(updates, "parameters") && !p.Obj? then Applied(s, true)
    else
      var s1 := if HasKey(updates, "parameters") then s.(parameters := SetFields(s.parameters, p.entries)) else s;
      var e := Get(updates, "evaluations");
      if !HasKey(updates, "evaluations") then Applied(SetVisuals(s1, updates, VISUAL_FIELDS), false)
      else if !e.Obj? then Applied(s1, true)
      else if s1.evaluations.None? then
        if forall f :: f in EVALUATION_FIELDS ==> HasKey(e.entries, f) then
          var evaluations := map f | f in EVALUATION_FIELDS :: Get(e.entries, f);
          Applied(SetVisuals(s1.(evaluations := Some(evaluations)), updates, VISUAL_FIELDS), false)
        else Applied(s1, true)
      else
        var s2 := s1.(evaluations := Some(SetFields(s1.evaluations.value, e.entries)));
        Applied(SetVisuals(s2, updates, VISUAL_FIELDS), false)
  }

  /** Without an exception, the visualisation properties present in the updates take their values; the others keep theirs. */
  lemma ApplyUpdatesVisuals(s: Scheme, updates: Entries)
    requires !ApplyUpdates(s, updates).raised
    ensures forall name :: name in VISUAL_FIELDS ==>
      Visual(ApplyUpdates(s, updates).scheme, name)
        == (if HasKey(updates, name) then Get(updates, name) else Visual(s, name))
  {
    var r := ApplyUpdates(s, updates);
    var before := r.scheme.(positionX := s.positionX, positionY := s.positionY, positionZ := s.positionZ,
                            color := s.color, width := s.width, height := s.height, depth := s.depth);
    assert r.scheme == SetVisuals(before, updates, VISUAL_FIELDS);
    SetVisualsEffect(before, updates, VISUAL_FIELDS);
  }

  /** Existing parameters take the values a (duplicate-free) parameters update gives them; the rest keep theirs. */
  lemma ApplyUpdatesParameters(s: Scheme, updates: Entries)
    requires HasKey(updates, "parameters") && Get(updates, "parameters").Obj?
    requires DistinctKeys(Get(updates, "parameters").entries)
    ensures var p := Get(updates, "parameters").entries;
      forall k :: k in s.parameters ==>
        ApplyUpdates(s, updates).scheme.parameters[k] == (if HasKey(p, k) then Get(p, k) else s.parameters[k])
  {
    SetFieldsEffect(s.parameters, Get(updates, "parameters").entries);
  }

  /** Existing evaluations take the values a (duplicate-free) evaluations update gives them; the rest keep theirs. */
  lemma ApplyUpdatesEvaluations(s: Scheme, updates: Entries)
    requires s.evaluations.Some? && !ApplyUpdates(s, updates).raised && HasKey(updates, "evaluations")
    requires DistinctKeys(Get(updates, "evaluations").entries)
    ensures var e := Get(updates, "evaluations").entries;
      var r := ApplyUpdates(s, updates).scheme;
      && r.evaluations.Some?
      && forall k :: k in s.evaluations.value ==>
        r.evaluations.value[k] == (if HasKey(e, k) then Get(e, k) else s.evaluations.value[k])
  {
    SetFieldsEffect(s.evaluations.value, Get(updates, "evaluations").entries);
  }

  /** Missing evaluations are created from an update holding all five, and only then. */
  lemma ApplyUpdatesCreatesEvaluations(s: Scheme, updates: Entries)
    requires s.evaluations.None? && HasKey(updates, "evaluations")
    requires !HasKey(updates, "parameters") || Get(updates, "parameters").Obj?
    ensures var e := Get(updates, "evaluations");
      var r := ApplyUpdates(s, updates);
      && (!r.raised <==> e.Obj? && forall f :: f in EVALUATION_FIELDS ==> HasKey(e.entries, f))
      && (!r.raised ==>
            && r.scheme.evaluations.Some?
            && forall f :: f in EVALUATION_FIELDS ==> r.scheme.evaluations.value[f] == Get(e.entries, f))
  {}

  /** The position of the first scheme with `id`. */
  function FirstWithId(schemes: seq<Scheme>, id: int): (r: Option<nat>)
    ensures r.Some? ==> r.value < |schemes| && schemes[r.value].id == id
    ensures r.Some? ==> forall j :: 0 <= j < r.value ==> schemes[j].id != id
    ensures r.None? ==> forall j :: 0 <= j < |schemes| ==> schemes[j].id != id
  {
    if schemes == [] then None
    else if schemes[0].id == id then Some(0)
    else match FirstWithId(schemes[1..], id)
      case None => None
      case Some(j) => Some(j + 1)
  }

  /** What `update_scheme` reports: no scheme with the id, the updated scheme, or an exception. */
  datatype UpdateOutcome = NotFound | Updated(scheme: Scheme) | Raised

  /** `SchemeService`: the schemes in the order they were added. */
  class SchemeService {
    var schemes: seq<Scheme>
    /** Python's `str()` of a list or dictionary. */
    const show: Value -> string
    /** `json.loads` on text beginning with `{`: the parsed object, or None when it raises. */
    const parseObject: string -> Option<Entries>

    constructor(show: Value -> string, parseObject: string -> Option<Entries>)
      ensures schemes == [] && this.show == show && this.parseObject == parseObject
    {
      schemes := [];
      this.show := show;
      this.parseObject := parseObject;
    }

    /** `get_schemes`. */
    method GetSchemes() returns (r: seq<Scheme>)
      ensures r == schemes
    {
      r := schemes;
    }

    /** `clear_schemes`. */
    method ClearSchemes()
      modifies this
      ensures schemes == []
    {
      schemes := [];
    }

    /** The five parameter lookups. */
    method ExtractParameters(data: Entries) returns (p: Fields)
      ensures p == ExtractedParameters(data, show)
    {
      var gx := ExtractValue(data, "grid_spacing_x", "6", show);
      var gy := ExtractValue(data, "grid_spacing_y", "7", show);
      var ex := ExtractValue(data, "extents_x", "30", show);
      var ey := ExtractValue(data, "extents_y", "24", show);
      var fl := ExtractValue(data, "no_of_floors", "3", show);
      p := map["grid_spacing_x" := gx, "grid_spacing_y" := gy, "extents_x" := ex,
               "extents_y" := ey, "no_of_floors" := fl];
    }

    /** The five evaluation lookups, made only when an evaluation key is present. */
    method ExtractEvaluations(data: Entries) returns (e: Option<Fields>)
      ensures e == ExtractedEvaluations(data, show)
    {
      e := None;
      if HasKey(data, "steel_tonnage") || HasKey(data, "column_size") || HasKey(data, "structural_depth") {
        var st := ExtractValue(data, "steel_tonnage", "unknown", show);
        var cs := ExtractValue(data, "column_size", "unknown", show);
        var sd := ExtractValue(data, "structural_depth", "unknown", show);
        var ct := ExtractValue(data, "concrete_tonnage", "unknown", show);
        var te := ExtractValue(data, "total_emissions", "unknown", show);
        e := Some(map["steel_tonnage" := st, "column_size" := cs, "structural_depth" := sd,
                      "concrete_tonnage" := ct, "total_emissions" := te]);
      }
    }

    /** `create_scheme_from_agent_data`: builds a scheme for the current list without adding it. */
    method CreateSchemeFromAgentData(data: Entries) returns (s: Scheme)
      ensures s == SchemeFromAgentData(schemes, data, show)
      ensures s.id == NextId(schemes) && WellFormed(s)
    {
      var newId := NextId(schemes);
      var parameters := ExtractParameters(data);
      var evaluations := ExtractEvaluations(data);
      var color := SCHEME_COLORS[newId % |SCHEME_COLORS|];
      var width := ToFloat(parameters["extents_x"]);
      var depth := ToFloat(parameters["extents_y"]);
      var floors := ToInt(parameters["no_of_floors"]);
      if floors.None? {
        return DefaultScheme(schemes);
      }
      s := NewScheme(newId, parameters, evaluations, width, depth, Num((floors.value * 3) as real), color);
    }

    /** `add_scheme`. */
    method AddScheme(s: Scheme) returns (r: Scheme)
      modifies this
      ensures schemes == old(schemes) + [s] && r == s
    {
      schemes := schemes + [s];
      r := s;
    }

    /**
     * The body of the loop over the agent's results for one entry: the
     * scheme its data describes, if it holds any, is created for the list
     * as it stands and added to it.
     */
    method AddResult(entry: (string, Value)) returns (added: seq<Scheme>)
      modifies this
      ensures added == Added(old(schemes), Contributions([entry], parseObject), Creator(show))
      ensures schemes == old(schemes) + added
    {
      assert [entry][..0] == [];
      var contribution := Contribution(entry.1, parseObject);
      added := [];
      if contribution.Some? {
        var scheme := CreateSchemeFromAgentData(contribution.value);
        var _ := AddScheme(scheme);
        added := [scheme];
        assert old(schemes) + [] == old(schemes);
      }
    }

    /**
     * `add_schemes_from_agent_results`: one new scheme per result entry
     * that holds parsable scheme data, appended in iteration order after
     * the existing schemes, which stay as they were.
     */
    method AddSchemesFromAgentResults(agentResults: Entries) returns (newSchemes: seq<Scheme>)
      modifies this
      ensures newSchemes == Added(old(schemes), Contributions(agentResults, parseObject), Creator(show))
      ensures schemes == old(schemes) + newSchemes
    {
      newSchemes := [];
      var i := 0;
      while i < |agentResults|
        invariant 0 <= i <= |agentResults|
        invariant newSchemes == Added(old(schemes), Contributions(agentResults[..i], parseObject), Creator(show))
        invariant schemes == old(schemes) + newSchemes
      {
        var added := AddResult(agentResults[i]);
        ContributionsNext(agentResults, i, parseObject);
        AddedAppend(old(schemes), Contributions(agentResults[..i], parseObject),
                    Contributions([agentResults[i]], parseObject), Creator(show));
        newSchemes := newSchemes + added;
        i := i + 1;
      }
      assert agentResults[..i] == agentResults;
    }

    /**
     * `update_scheme`: applies the updates to the first scheme with the id.
     * An unknown id changes nothing.
     */
    method UpdateScheme(schemeId: int, updates: Entries) returns (outcome: UpdateOutcome)
      modifies this
      ensures FirstWithId(old(schemes), schemeId).None? ==> outcome == NotFound && schemes == old(schemes)
      ensures FirstWithId(old(schemes), schemeId).Some? ==>
        var i := FirstWithId(old(schemes), schemeId).value;
        var r := ApplyUpdates(old(schemes)[i], updates);
        && schemes == old(schemes)[i := r.scheme]
        && outcome == (if r.raised then Raised else Updated(r.scheme))
    {
      var i := 0;
      while i < |schemes|
        invariant 0 <= i <= |schemes|
        invariant schemes == old(schemes)
        invariant forall j :: 0 <= j < i ==> schemes[j].id != schemeId
      {
        if schemes[i].id == schemeId {
          assert FirstWithId(schemes, schemeId) == Some(i);
          var r := ApplyUpdates(schemes[i], updates);
          schemes := schemes[i := r.scheme];
          return if r.raised then Raised else Updated(r.scheme);
        }
        i := i + 1;
      }
      return NotFound;
    }
  }

  /** Adding schemes never renumbers: the new ones take consecutive ids after the largest existing one. */
  lemma AddedSchemesIds(existing: seq<Scheme>, results: Entries, parseObject: string -> Option<Entries>, show: Value -> string)
    ensures var added := Added(existing, Contributions(results, parseObject), Creator(show));
      && |added| <= |results|
      && forall k :: 0 <= k < |added| ==> added[k].id == NextId(existing) + k
  {
    AddedIds(existing, Contributions(results, parseObject), Creator(show));
  }
}

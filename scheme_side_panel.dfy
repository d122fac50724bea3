/**
 * What the scheme details panel shows: a row per parameter and per
 * evaluation (or a placeholder row when there are none) and the four
 * visual properties with their 'Default' fall-backs. The panel of the
 * fallback grid shows the same rows.
 */
module SchemeSidePanel {
  import opened Wrappers
  import opened Values
  import Captions

  /** A detail row: the name column and the value column. */
  datatype Row = Row(name: string, value: string)

  /** The rendered panel; `swatch` is the colour preview's background. */
  datatype Panel = Panel(
    className: string,
    title: string,
    parameters: seq<Row>,
    evaluations: seq<Row>,
    visual: seq<Row>,
    swatch: string)

  /**
   * The rows of one section: one per entry of `section`, in order, with the
   * caption of its key and `String(value)`; a single placeholder row when the
   * section has no entries. `numText` spells a number as JavaScript does.
   */
  function DetailRows(section: Value, placeholder: string, numText: real -> string): (r: seq<Row>)
    ensures |ObjectEntries(section)| == 0 ==> r == [Row(placeholder, "-")]
    ensures |ObjectEntries(section)| > 0 ==> |r| == |ObjectEntries(section)|
    ensures forall k :: 0 <= k < |ObjectEntries(section)| ==>
      r[k] == Row(Captions.FormatKey(ObjectEntries(section)[k].0), ToJsString(ObjectEntries(section)[k].1, numText))
  {
    var entries := ObjectEntries(section);
    if |entries| > 0 then
      seq(|entries|, k requires 0 <= k < |entries| =>
        Row(Captions.FormatKey(entries[k].0), ToJsString(entries[k].1, numText)))
    else [Row(placeholder, "-")]
  }

  /** The text JSX renders for `{v}`: nothing for a boolean, null or undefined, else `String(v)`. */
  function JsxText(v: Value, numText: real -> string): string {
    if v.Bool? || v.Null? then "" else ToJsString(v, numText)
  }

  /** `{scheme.key || 'Default'}`. */
  function VisualValue(scheme: Value, key: string, numText: real -> string): string {
    JsxText(Or(Prop(scheme, key), Str("Default")), numText)
  }

  /** The panel for `scheme`, or nothing when there is no scheme. */
  function RenderPanel(scheme: Value, isOpen: bool, numText: real -> string): (r: Option<Panel>)
    ensures r.None? <==> !Truthy(scheme)
  {
    if !Truthy(scheme) then None
    else
      var parameters := Or(Prop(scheme, "parameters"), Obj([]));
      var evaluations := Or(Prop(scheme, "evaluations"), Obj([]));
      Some(Panel(
        "scheme-side-panel " + (if isOpen then "open" else ""),
        "Scheme " + JsxText(Or(Prop(scheme, "id"), Str("")), numText) + " Details",
        DetailRows(parameters, "No parameters available", numText),
        DetailRows(evaluations, "No evaluations available", numText),
        [Row("Width", VisualValue(scheme, "width", numText)),
         Row("Height", VisualValue(scheme, "height", numText)),
         Row("Depth", VisualValue(scheme, "depth", numText)),
         Row("Color", VisualValue(scheme, "color", numText))],
        ToJsString(Or(Prop(scheme, "color"), Str("#cccccc")), numText)))
  }

  /** Opening or closing the panel only switches its class; the content is the same. */
  lemma OpenOnlyTogglesClass(scheme: Value, numText: real -> string)
    requires Truthy(scheme)
    ensures var open, shut := RenderPanel(scheme, true, numText), RenderPanel(scheme, false, numText);
      && open.value.className == "scheme-side-panel open"
      && shut.value.className == "scheme-side-panel "
      && open.value.(className := shut.value.className) == shut.value
  {}

  /** Missing (or falsy) parameters and evaluations show as the placeholder row. */
  lemma MissingSectionsShowPlaceholder(scheme: Value, numText: real -> string)
    requires Truthy(scheme) && !Truthy(Prop(scheme, "parameters")) && !Truthy(Prop(scheme, "evaluations"))
    ensures RenderPanel(scheme, true, numText).value.parameters == [Row("No parameters available", "-")]
    ensures RenderPanel(scheme, true, numText).value.evaluations == [Row("No evaluations available", "-")]
  {}

  /** A falsy width, height, depth or colour shows as 'Default'. */
  lemma FalsyVisualsShowDefault(scheme: Value, key: string, numText: real -> string)
    requires !Truthy(Prop(scheme, key))
    ensures VisualValue(scheme, key, numText) == "Default"
  {}

  /** Row names are captions: no underscore survives in them. */
  lemma RowNamesHaveNoUnderscore(section: Value, numText: real -> string)
    requires |ObjectEntries(section)| > 0
    ensures forall k :: 0 <= k < |ObjectEntries(section)| ==>
      '_' !in DetailRows(section, "", numText)[k].name
  {
    var entries := ObjectEntries(section);
    forall k | 0 <= k < |entries| ensures '_' !in DetailRows(section, "", numText)[k].name {
      Captions.NoUnderscore(entries[k].0);
    }
  }

  /** The fallback panel's section rule: `section && Object.keys(section).length > 0`. */
  function FallbackRows(section: Value, placeholder: string, numText: real -> string): seq<Row> {
    var entries := ObjectEntries(section);
    if Truthy(section) && |entries| > 0 then
      seq(|entries|, k requires 0 <= k < |entries| =>
        Row(Captions.FormatKey(entries[k].0), ToJsString(entries[k].1, numText)))
    else [Row(placeholder, "-")]
  }

  /** Both panels show the same rows for any section value, falsy ones included. */
  lemma FallbackRowsAgree(section: Value, placeholder: string, numText: real -> string)
    ensures FallbackRows(section, placeholder, numText) == DetailRows(Or(section, Obj([])), placeholder, numText)
  {
    if !Truthy(section) {
      assert ObjectEntries(section) == [] by {
        if section.Str? { assert section.s == ""; }
      }
    }
  }

  /** The fallback grid's panel: nothing unless a scheme is selected and the panel is open. */
  function RenderFallbackPanel(scheme: Value, isOpen: bool, numText: real -> string): (r: Option<(seq<Row>, seq<Row>)>)
    ensures r.Some? <==> Truthy(scheme) && isOpen
  {
    if !Truthy(scheme) || !isOpen then None
    else Some((FallbackRows(Prop(scheme, "parameters"), "No parameters available", numText),
               FallbackRows(Prop(scheme, "evaluations"), "No evaluations available", numText)))
  }
}

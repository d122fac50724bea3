/**
 * The three.js scheme grid: the defaults each frame puts on its scheme,
 * what a click selects, when the empty state shows and the grid's layout
 * class by number of schemes.
 */
module SchemeGrid {
  import opened Wrappers
  import opened Values
  import Selection

  const DEFAULT_COLOR: string := "#4287f5"

  /** The keys of a frame's `safeScheme`, in order. */
  const SAFE_KEYS: seq<string> := ["id", "width", "height", "depth", "color"]

  /** The keys of a list of entries, in order. */
  function Keys(d: Entries): (r: seq<string>)
    ensures |r| == |d| && forall k :: 0 <= k < |d| ==> r[k] == d[k].0
  {
    seq(|d|, k requires 0 <= k < |d| => d[k].0)
  }

  /** The default a frame uses for a falsy `key` of the scheme at `index`. */
  function SafeDefault(key: string, index: nat): Value {
    if key == "id" then Int(index + 1) else if key == "color" then Str(DEFAULT_COLOR) else Int(1)
  }

  /**
   * `SchemeFrame`'s `safeScheme`: exactly id, width, height, depth and
   * color, each the scheme's own value when truthy and the default
   * otherwise, so every one of them is truthy.
   */
  function SafeScheme(scheme: Value, index: nat): (r: Value)
    ensures r.Obj? && Keys(r.entries) == SAFE_KEYS
    ensures forall k :: 0 <= k < |SAFE_KEYS| ==> Truthy(r.entries[k].1)
    ensures forall k :: 0 <= k < |SAFE_KEYS| ==>
      r.entries[k].1 == (if Truthy(Prop(scheme, SAFE_KEYS[k])) then Prop(scheme, SAFE_KEYS[k]) else SafeDefault(SAFE_KEYS[k], index))
  {
    Obj([("id", Or(Prop(scheme, "id"), Int(index + 1))),
         ("width", Or(Prop(scheme, "width"), Int(1))),
         ("height", Or(Prop(scheme, "height"), Int(1))),
         ("depth", Or(Prop(scheme, "depth"), Int(1))),
         ("color", Or(Prop(scheme, "color"), Str(DEFAULT_COLOR)))])
  }

  /**
   * A frame hands `safeScheme` to the click handler, whose own id default
   * then has nothing to do: the selection is `safeScheme` itself, so it
   * carries no parameters and no evaluations.
   */
  lemma ClickSelectsSafeScheme(scheme: Value, index: nat)
    ensures Selection.Selected(SafeScheme(scheme, index), index) == SafeScheme(scheme, index)
    ensures Prop(Selection.Selected(SafeScheme(scheme, index), index), "parameters") == Null
    ensures Prop(Selection.Selected(SafeScheme(scheme, index), index), "evaluations") == Null
  {
    var safe := SafeScheme(scheme, index);
    assert IndexOfKey(safe.entries, "id") == Some(0);
    assert safe.entries[0 := ("id", safe.entries[0].1)] == safe.entries;
  }

  /** `!schemes || !Array.isArray(schemes) || schemes.length === 0`. */
  predicate ShowsEmptyState(schemes: Value) {
    !Truthy(schemes) || !schemes.Arr? || |schemes.items| == 0
  }

  /** The grid shows exactly for a non-empty array. */
  lemma EmptyStateRule(schemes: Value)
    ensures !ShowsEmptyState(schemes) <==> schemes.Arr? && |schemes.items| > 0
  {}

  /**
   * The fallback grid's test, `!schemes || schemes.length === 0`, without
   * the array check: only an array, or an object whose `length` is 0, has
   * a length that can equal 0.
   */
  predicate FallbackShowsEmptyState(schemes: Value) {
    !Truthy(schemes)
    || (schemes.Arr? && |schemes.items| == 0)
    || (schemes.Obj? && StrictEquals(Prop(schemes, "length"), Int(0)))
  }

  /** On an array or a missing list both grids agree; they differ on other values. */
  lemma EmptyStatesAgree(schemes: Value)
    ensures schemes.Arr? || schemes.Null? ==> (FallbackShowsEmptyState(schemes) <==> ShowsEmptyState(schemes))
    ensures FallbackShowsEmptyState(Obj([])) != ShowsEmptyState(Obj([]))
  {
    assert Truthy(Obj([]));
  }

  /** The layout class for `count` schemes, built as the component builds it. */
  method GridClassName(count: nat) returns (gridClassName: string)
    ensures count == 1 ==> gridClassName == "scheme-grid single-scheme"
    ensures count == 2 ==> gridClassName == "scheme-grid two-schemes"
    ensures 3 <= count <= 4 ==> gridClassName == "scheme-grid four-schemes"
    ensures count >= 5 ==> gridClassName == "scheme-grid"
    ensures count == 0 ==> gridClassName == "scheme-grid four-schemes"
  {
    gridClassName := "scheme-grid";
    if count == 1 {
      gridClassName := gridClassName + " single-scheme";
    } else if count == 2 {
      gridClassName := gridClassName + " two-schemes";
    } else if count <= 4 {
      gridClassName := gridClassName + " four-schemes";
    }
  }
}

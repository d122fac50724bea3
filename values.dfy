/**
 * Loosely typed values as JSON carries them between the Python service and
 * the JavaScript front end, with the few JavaScript operations the front end
 * applies to them: property access, truthiness, `||`, `Object.entries`,
 * object spread, `===` and `String(value)`.
 */
module Values {
  import opened Wrappers
  import opened Text

  /**
   * A JSON-like value. Objects are lists of entries in insertion order; an
   * object built by a dictionary or by `JSON.parse` has distinct keys, and
   * lookups take the first entry with the key.
   */
  datatype Value =
    | Null                               // Python None; JavaScript null and undefined
    | Bool(b: bool)
    | Int(i: int)                        // a Python int; a JavaScript number with an integral value
    | Num(r: real)                       // a finite Python float or JavaScript number
    | NaN
    | Inf(negative: bool)
    | Str(s: string)
    | Arr(items: seq<Value>)
    | Obj(entries: seq<(string, Value)>)

  type Entries = seq<(string, Value)>

  /** The index of the first entry with key `k`. */
  function IndexOfKey(d: Entries, k: string): (r: Option<nat>)
    ensures r.Some? ==> r.value < |d| && d[r.value].0 == k
    ensures r.Some? ==> forall j :: 0 <= j < r.value ==> d[j].0 != k
    ensures r.None? ==> forall j :: 0 <= j < |d| ==> d[j].0 != k
  {
    if d == [] then None
    else if d[0].0 == k then Some(0)
    else match IndexOfKey(d[1..], k)
      case None => None
      case Some(j) => Some(j + 1)
  }

  /** Python `k in d`; JavaScript `k in obj`. */
  predicate HasKey(d: Entries, k: string) {
    IndexOfKey(d, k).Some?
  }

  /** The value under `k`, or Null (undefined) when there is none. */
  function Get(d: Entries, k: string): Value {
    match IndexOfKey(d, k)
    case Some(i) => d[i].1
    case None => Null
  }

  predicate DistinctKeys(d: Entries) {
    forall i, j :: 0 <= i < j < |d| ==> d[i].0 != d[j].0
  }

  /** JavaScript `v.k`; a property of anything but an object reads as undefined. */
  function Prop(v: Value, k: string): Value {
    if v.Obj? then Get(v.entries, k) else Null
  }

  /** JavaScript truthiness. */
  predicate Truthy(v: Value) {
    match v
    case Null => false
    case Bool(b) => b
    case Int(i) => i != 0
    case Num(r) => r != 0.0
    case NaN => false
    case Inf(_) => true
    case Str(s) => s != ""
    case Arr(_) => true
    case Obj(_) => true
  }

  /** JavaScript `a || b`. */
  function Or(a: Value, b: Value): (r: Value)
    ensures Truthy(a) ==> r == a
    ensures !Truthy(a) ==> r == b
  {
    if Truthy(a) then a else b
  }

  /**
   * JavaScript `Object.entries(v)`, which is also what `{...v}` copies: an
   * object's entries, an array's or a string's elements under their index,
   * nothing for any other value.
   */
  function ObjectEntries(v: Value): (r: Entries)
    ensures v.Obj? ==> r == v.entries
    ensures !v.Obj? && !v.Arr? && !v.Str? ==> r == []
  {
    match v
    case Obj(e) => e
    case Arr(items) => seq(|items|, k requires 0 <= k < |items| => (DecimalString(k), items[k]))
    case Str(s) => seq(|s|, k requires 0 <= k < |s| => (DecimalString(k), Str([s[k]])))
    case _ => []
  }

  /**
   * `{...d, k: v}`: an existing entry for `k` keeps its place and takes the
   * new value, otherwise the entry is added at the end.
   */
  function SetProp(d: Entries, k: string, v: Value): (r: Entries)
    ensures Get(r, k) == v
    ensures forall k' :: k' != k ==> Get(r, k') == Get(d, k') && (HasKey(r, k') <==> HasKey(d, k'))
    ensures HasKey(r, k)
  {
    match IndexOfKey(d, k)
    case Some(i) =>
      var r := d[i := (k, v)];
      assert IndexOfKey(r, k) == Some(i) by {
        var ir := IndexOfKey(r, k);
        assert r[i].0 == k;
        assert ir.Some? && ir.value <= i;
      }
      assert forall k' :: k' != k ==> IndexOfKey(r, k') == IndexOfKey(d, k') by {
        forall k' | k' != k ensures IndexOfKey(r, k') == IndexOfKey(d, k') {
          var a, b := IndexOfKey(r, k'), IndexOfKey(d, k');
          if a.Some? { assert b.Some? && b.value <= a.value; }
          if b.Some? { assert r[b.value] == d[b.value]; assert a.Some? && a.value <= b.value; }
        }
      }
      r
    case None =>
      var r := d + [(k, v)];
      assert IndexOfKey(r, k) == Some(|d|) by {
        var ir := IndexOfKey(r, k);
        assert r[|d|].0 == k;
        assert ir.Some? && ir.value <= |d|;
      }
      assert forall k' :: k' != k ==> IndexOfKey(r, k') == IndexOfKey(d, k') by {
        forall k' | k' != k ensures IndexOfKey(r, k') == IndexOfKey(d, k') {
          var a, b := IndexOfKey(r, k'), IndexOfKey(d, k');
          if a.Some? { assert a.value < |d|; assert b.Some? && b.value <= a.value; }
          if b.Some? { assert r[b.value] == d[b.value]; assert a.Some? && a.value <= b.value; }
        }
      }
      r
  }

  /**
   * JavaScript `a === b` on values. Objects and arrays are compared by
   * structure here, where JavaScript compares references.
   */
  predicate StrictEquals(a: Value, b: Value) {
    match (a, b)
    case (Int(x), Int(y)) => x == y
    case (Int(x), Num(y)) => x as real == y
    case (Num(x), Int(y)) => x == y as real
    case (NaN, _) => false
    case _ => a == b
  }

  /** The elements of `ws` separated by `sep` (JavaScript `ws.join(sep)`). */
  function Join(ws: seq<string>, sep: string): string {
    if ws == [] then "" else if |ws| == 1 then ws[0] else ws[0] + sep + Join(ws[1..], sep)
  }

  /**
   * JavaScript `String(v)`. How a finite number is spelled is left to
   * `numText`; arrays join their elements with commas, null elements as
   * empty text.
   */
  function ToJsString(v: Value, numText: real -> string): string
    decreases v
  {
    match v
    case Null => "null"
    case Bool(b) => if b then "true" else "false"
    case Int(i) => numText(i as real)
    case Num(r) => numText(r)
    case NaN => "NaN"
    case Inf(negative) => if negative then "-Infinity" else "Infinity"
    case Str(s) => s
    case Arr(items) =>
      Join(seq(|items|, k requires 0 <= k < |items| => if items[k].Null? then "" else ToJsString(items[k], numText)), ",")
    case Obj(_) => "[object Object]"
  }
}

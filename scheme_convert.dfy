/**
 * The scheme service's loose conversions: `_to_int`, `_to_float` and the
 * key lookup and number normalisation of `_extract_value`.
 */
module SchemeConvert {
  import opened Wrappers
  import opened Text
  import opened Values

  /** Only digits and dots. */
  predicate Numeric(s: string) {
    forall k :: 0 <= k < |s| ==> IsDigit(s[k]) || s[k] == '.'
  }

  /** `''.join(c for c in s if c.isdigit() or c == '.')`. */
  function KeepNumeric(s: string): (r: string)
    ensures Numeric(r) && |r| <= |s|
    ensures forall k :: 0 <= k < |s| && (IsDigit(s[k]) || s[k] == '.') ==> s[k] in r
    ensures Numeric(s) ==> r == s
    ensures forall c :: c in r ==> c in s
  {
    if s == [] then []
    else
      var rest := KeepNumeric(s[1..]);
      assert forall k :: 1 <= k < |s| ==> s[k] == s[1..][k - 1];
      if IsDigit(s[0]) || s[0] == '.' then [s[0]] + rest else rest
  }

  /** One character is kept exactly when it is a digit or a dot. */
  lemma KeepNumericChar(c: char)
    ensures KeepNumeric([c]) == if IsDigit(c) || c == '.' then [c] else []
  {
    assert [c][1..] == [];
  }

  /**
   * Filtering a concatenation filters each part and keeps them in order;
   * with `KeepNumericChar` this fixes the result: the digits and dots of
   * `s`, in order, each as often as it occurs.
   */
  lemma {:induction false} KeepNumericAppend(s: string, t: string)
    ensures KeepNumeric(s + t) == KeepNumeric(s) + KeepNumeric(t)
  {
    if s == [] {
      assert s + t == t;
    } else {
      assert (s + t)[0] == s[0];
      assert (s + t)[1..] == s[1..] + t;
      KeepNumericAppend(s[1..], t);
    }
  }

  /** A decimal numeral split at its dot: the digits before and after it. */
  datatype Decimal = Decimal(whole: string, fraction: string)

  /** Some character of `t` is a digit. */
  predicate HasDigit(t: string) {
    exists k :: 0 <= k < |t| && IsDigit(t[k])
  }

  /** `t` holds at least two dots. */
  predicate TwoDots(t: string) {
    exists i, j :: 0 <= i < j < |t| && t[i] == '.' && t[j] == '.'
  }

  /** Where no dot occurs, a string of digits and dots holds digits. */
  lemma DigitsWithoutDot(t: string, upto: nat)
    requires Numeric(t) && upto <= |t|
    requires forall k :: 0 <= k < upto ==> !OccursAt(t, ".", k)
    ensures forall k :: 0 <= k < upto ==> IsDigit(t[k])
  {
    forall k | 0 <= k < upto ensures IsDigit(t[k]) {
      assert !OccursAt(t, ".", k);
      assert t[k..k + 1] == [t[k]];
    }
  }

  lemma DotAt(t: string, k: nat)
    requires OccursAt(t, ".", k)
    ensures k < |t| && t[k] == '.'
  {
    assert t[k..k + 1] == [t[k]];
  }

  /**
   * Python's `float()` on a string of digits and dots succeeds exactly when
   * there is at least one digit and at most one dot.
   */
  function SplitDecimal(t: string): (r: Option<Decimal>)
    requires Numeric(t)
    ensures r.Some? <==> HasDigit(t) && !TwoDots(t)
    ensures r.Some? ==> AllDigits(r.value.whole) && AllDigits(r.value.fraction)
    ensures r.Some? ==> |r.value.whole| + |r.value.fraction| > 0
    ensures r.Some? ==> t == r.value.whole || t == r.value.whole + "." + r.value.fraction
    ensures r.Some? && AllDigits(t) ==> r.value == Decimal(t, "")
  {
    match Find(t, ".", 0)
    case None =>
      DigitsWithoutDot(t, |t|);
      if t == [] then None
      else
        assert IsDigit(t[0]);
        Some(Decimal(t, ""))
    case Some(d) =>
      var w, f := t[..d], t[d + 1..];
      DotAt(t, d);
      DigitsWithoutDot(t, d);
      assert AllDigits(w) by { assert forall k :: 0 <= k < d ==> w[k] == t[k]; }
      assert Numeric(f) by { assert forall k :: 0 <= k < |f| ==> f[k] == t[d + 1 + k]; }
      match Find(f, ".", 0)
      case Some(e) =>
        DotAt(f, e);
        assert t[d + 1 + e] == '.';
        None
      case None =>
        DigitsWithoutDot(f, |f|);
        assert t == w + "." + f;
        assert !TwoDots(t);
        if w == [] && f == [] then
          assert t == ".";
          None
        else
          assert HasDigit(t) by {
            if w != [] { assert IsDigit(t[0]); } else { assert IsDigit(t[d + 1]); }
          }
          Some(Decimal(w, f))
  }

  function Pow10(n: nat): (p: nat)
    ensures p >= 1
  {
    if n == 0 then 1 else 10 * Pow10(n - 1)
  }

  /** The exact value of a decimal numeral; the double rounding of Python floats is not modelled. */
  function DecimalReal(d: Decimal): real
    requires AllDigits(d.whole) && AllDigits(d.fraction)
  {
    DigitsValue(d.whole) as real + DigitsValue(d.fraction) as real / Pow10(|d.fraction|) as real
  }

  /** Python's `int(x)` on a float: truncation toward zero. */
  function Trunc(x: real): (t: int)
    ensures x >= 0.0 ==> t as real <= x < t as real + 1.0
    ensures x < 0.0 ==> t as real - 1.0 < x <= t as real
  {
    if x >= 0.0 then x.Floor else -((-x).Floor)
  }

  /**
   * `_to_int`: ints unchanged (a bool counts as the int 0 or 1), floats
   * truncated, strings filtered to digits and dots and read through
   * `int(float(...))`, 1 when that reading fails or for any other value.
   * None stands for the exception `int()` raises on an infinite or NaN float.
   */
  function ToInt(v: Value): (r: Option<int>)
    ensures r.None? <==> v.NaN? || v.Inf?
    ensures v.Int? ==> r == Some(v.i)
    ensures v.Num? ==> r == Some(Trunc(v.r))
    ensures v.Str? ==> r.Some? && r.value >= 0
  {
    match v
    case Int(i) => Some(i)
    case Bool(b) => Some(if b then 1 else 0)
    case Num(x) => Some(Trunc(x))
    case NaN => None
    case Inf(_) => None
    case Str(s) =>
      (match SplitDecimal(KeepNumeric(s))
       case Some(d) => Some(DigitsValue(d.whole))
       case None => Some(1))
    case _ => Some(1)
  }

  /** A non-empty string of digits is its own numeric part and a whole number without fraction. */
  lemma DigitsSplit(s: string)
    requires AllDigits(s) && s != []
    ensures Numeric(s) && KeepNumeric(s) == s
    ensures SplitDecimal(s) == Some(Decimal(s, ""))
  {
    assert IsDigit(s[0]);
  }

  /** A decimal spelling reads back as its number. */
  lemma ToIntOfDecimal(n: nat)
    ensures ToInt(Str(DecimalString(n))) == Some(n)
  {
    DigitsSplit(DecimalString(n));
    DigitsValueOfDecimal(n);
  }

  /** A string without a digit, or whose digits and dots hold two dots, falls back to 1. */
  lemma ToIntFallback(s: string)
    requires !HasDigit(s) || TwoDots(KeepNumeric(s))
    ensures ToInt(Str(s)) == Some(1)
  {
  }

  /** Two dots make the whole string fall back to 1. */
  lemma ToIntTwoDots()
    ensures ToInt(Str("1.2.3")) == Some(1)
  {
    var s := "1.2.3";
    assert Numeric(s);
    assert s[1] == '.' && s[3] == '.';
    ToIntFallback(s);
  }

  /**
   * Python's `float()` on a stripped string, for the spellings it can meet
   * here: an optional sign followed by a decimal numeral, or by `inf`,
   * `infinity` or `nan` in any case.
   */
  function PyFloat(t: string): (r: Option<Value>)
    ensures r.Some? ==> r.value.Num? || r.value.NaN? || r.value.Inf?
  {
    var signed := |t| > 0 && (t[0] == '-' || t[0] == '+');
    var negative := signed && t[0] == '-';
    var u := if signed then t[1..] else t;
    var word := Lower(u);
    if word == "inf" || word == "infinity" then Some(Inf(negative))
    else if word == "nan" then Some(NaN)
    else if !Numeric(u) then None
    else match SplitDecimal(u)
      case None => None
      case Some(d) => Some(Num(if negative then -DecimalReal(d) else DecimalReal(d)))
  }

  /**
   * `_to_float`: numbers become floats (a bool 0.0 or 1.0); a string loses
   * its `m` characters and surrounding whitespace and is read by `float()`;
   * 1.0 when that fails or for any other value.
   */
  function ToFloat(v: Value): (r: Value)
    ensures r.Num? || r.NaN? || r.Inf?
    ensures v.Int? ==> r == Num(v.i as real)
    ensures v.Num? || v.NaN? || v.Inf? ==> r == v
  {
    match v
    case Int(i) => Num(i as real)
    case Num(_) => v
    case NaN => v
    case Inf(_) => v
    case Bool(b) => Num(if b then 1.0 else 0.0)
    case Str(s) => PyFloat(PyStrip(RemoveAll(s, "m"))).GetOr(Num(1.0))
    case _ => Num(1.0)
  }

  /** Removing `m` from a string of digits changes nothing. */
  lemma DigitsFreeOfM(s: string)
    requires AllDigits(s)
    ensures RemoveAll(s, "m") == s
  {
    forall k | 0 <= k ensures !OccursAt(s, "m", k) {
      if k + 1 <= |s| { assert s[k..k + 1] == [s[k]]; assert IsDigit(s[k]); }
    }
    RemoveAllAbsent(s, "m");
  }

  /** Stripping a string of digits changes nothing. */
  lemma DigitsStripped(s: string)
    requires AllDigits(s)
    ensures PyStrip(s) == s
  {
    if s != [] {
      assert IsDigit(s[0]) && IsDigit(s[|s| - 1]);
    }
    PyStripPadded("", s, "");
    assert "" + s + "" == s;
  }

  /** A decimal spelling has no `m` and no surrounding whitespace, so `_to_float` reads it as is. */
  lemma DecimalCleansToItself(n: nat)
    ensures PyStrip(RemoveAll(DecimalString(n), "m")) == DecimalString(n)
  {
    DigitsFreeOfM(DecimalString(n));
    DigitsStripped(DecimalString(n));
  }

  /** A string of digits is unsigned and spells none of `inf`, `infinity` and `nan`. */
  lemma DigitsNotWord(s: string)
    requires AllDigits(s) && s != []
    ensures s[0] != '-' && s[0] != '+'
    ensures Lower(s) != "inf" && Lower(s) != "infinity" && Lower(s) != "nan"
  {
    assert IsDigit(s[0]);
    assert Lower(s)[0] == s[0];
  }

  /** `float()` reads a decimal spelling as its number. */
  lemma PyFloatOfDecimal(n: nat)
    ensures PyFloat(DecimalString(n)) == Some(Num(n as real))
  {
    var s := DecimalString(n);
    DigitsNotWord(s);
    DigitsSplit(s);
    DigitsValueOfDecimal(n);
    assert DecimalReal(Decimal(s, "")) == n as real;
  }

  /** `_to_float` reads a decimal spelling as its number. */
  lemma ToFloatOfDecimal(n: nat)
    ensures ToFloat(Str(DecimalString(n))) == Num(n as real)
  {
    DecimalCleansToItself(n);
    PyFloatOfDecimal(n);
  }

  // ---------------------------------------------------------------- _extract_value

  /** The alternative names tried, in order, when a key is absent. */
  function AltKeys(key: string): seq<string> {
    match key
    case "extents_x" => ["width", "building_width", "x_extent", "x_dimension"]
    case "extents_y" => ["depth", "building_depth", "y_extent", "y_dimension"]
    case "grid_spacing_x" => ["x_grid", "grid_x", "column_spacing_x"]
    case "grid_spacing_y" => ["y_grid", "grid_y", "column_spacing_y"]
    case "no_of_floors" => ["floors", "number_of_floors", "stories", "storeys"]
    case _ => []
  }

  /** The position in `names` of the first name present in `d`. */
  function FirstPresent(d: Entries, names: seq<string>): (r: Option<nat>)
    ensures r.Some? ==> r.value < |names| && HasKey(d, names[r.value])
    ensures r.Some? ==> forall j :: 0 <= j < r.value ==> !HasKey(d, names[j])
    ensures r.None? ==> forall j :: 0 <= j < |names| ==> !HasKey(d, names[j])
  {
    if names == [] then None
    else if HasKey(d, names[0]) then Some(0)
    else match FirstPresent(d, names[1..])
      case None => None
      case Some(j) => Some(j + 1)
  }

  /** Keys equal up to case (`k.lower() == key.lower()`, ASCII letters only). */
  predicate SameUpToCase(a: string, b: string) {
    Lower(a) == Lower(b)
  }

  /** The position of the first entry whose key equals `key` up to case. */
  function FirstCaseless(d: Entries, key: string): (r: Option<nat>)
    ensures r.Some? ==> r.value < |d| && SameUpToCase(d[r.value].0, key)
    ensures r.Some? ==> forall j :: 0 <= j < r.value ==> !SameUpToCase(d[j].0, key)
    ensures r.None? ==> forall j :: 0 <= j < |d| ==> !SameUpToCase(d[j].0, key)
  {
    if d == [] then None
    else if SameUpToCase(d[0].0, key) then Some(0)
    else match FirstCaseless(d[1..], key)
      case None => None
      case Some(j) => Some(j + 1)
  }

  /** The raw value found for `key`: the key itself, else an alternative name, else a key equal up to case. */
  function Located(d: Entries, key: string): Option<Value> {
    if HasKey(d, key) then Some(Get(d, key))
    else match FirstPresent(d, AltKeys(key))
      case Some(j) => Some(Get(d, AltKeys(key)[j]))
      case None =>
        match FirstCaseless(d, key)
        case Some(i) => Some(d[i].1)
        case None => None
  }

  /**
   * What `_extract_value` makes of a found value: None and blank strings
   * give the default, numbers are kept, a string whose digits and dots form
   * an integer or a decimal becomes that number and otherwise stays as it
   * is, and anything else becomes its `str()` rendering, given by `show`.
   */
  function Normalized(v: Value, default: string, show: Value -> string): Value {
    match v
    case Null => Str(default)
    case Str(s) =>
      if Blank(s, IsPySpace) then Str(default)
      else
        var clean := KeepNumeric(s);
        if clean != [] && AllDigits(clean) then Int(DigitsValue(clean))
        else (match SplitDecimal(clean)
              case Some(d) => Num(DecimalReal(d))
              case None => v)
    case Bool(_) => v
    case Int(_) => v
    case Num(_) => v
    case NaN => v
    case Inf(_) => v
    case _ => Str(show(v))
  }

  /** `_extract_value(d, key, default)`. */
  function Extracted(d: Entries, key: string, default: string, show: Value -> string): Value {
    match Located(d, key)
    case None => Str(default)
    case Some(v) => Normalized(v, default, show)
  }

  /** The loop over the alternative names: the first one present, and its value. */
  method FindAlternative(data: Entries, alts: seq<string>) returns (found: bool, value: Value)
    ensures found <==> FirstPresent(data, alts).Some?
    ensures found ==> value == Get(data, alts[FirstPresent(data, alts).value])
  {
    found, value := false, Null;
    var j := 0;
    while j < |alts| && !found
      invariant 0 <= j <= |alts|
      invariant !found ==> forall m :: 0 <= m < j ==> !HasKey(data, alts[m])
      invariant found ==> FirstPresent(data, alts) == Some(j - 1) && value == Get(data, alts[j - 1])
    {
      if HasKey(data, alts[j]) {
        value := Get(data, alts[j]);
        found := true;
      }
      j := j + 1;
    }
  }

  /** The loop over all keys compared without case: the first match, and its value. */
  method FindCaseless(data: Entries, key: string) returns (found: bool, value: Value)
    ensures found <==> FirstCaseless(data, key).Some?
    ensures found ==> value == data[FirstCaseless(data, key).value].1
  {
    found, value := false, Null;
    var i := 0;
    while i < |data| && !found
      invariant 0 <= i <= |data|
      invariant !found ==> forall m :: 0 <= m < i ==> !SameUpToCase(data[m].0, key)
      invariant found ==> FirstCaseless(data, key) == Some(i - 1) && value == data[i - 1].1
    {
      if Lower(data[i].0) == Lower(key) {
        value := data[i].1;
        found := true;
      }
      i := i + 1;
    }
  }

  /** `_extract_value`: the key, then the alternative names, then a caseless match, else the default. */
  method ExtractValue(data: Entries, key: string, default: string, show: Value -> string) returns (r: Value)
    ensures r == Extracted(data, key, default, show)
  {
    var value := Null;
    if HasKey(data, key) {
      value := Get(data, key);
    } else {
      var found;
      found, value := FindAlternative(data, AltKeys(key));
      if !found {
        found, value := FindCaseless(data, key);
      }
      if !found {
        return Str(default);
      }
    }
    r := Normalized(value, default, show);
  }

  // ---------------------------------------------------------------- properties

  /** Nothing is found in empty data, so the default comes back as given. */
  lemma ExtractedFromEmpty(key: string, default: string, show: Value -> string)
    ensures Extracted([], key, default, show) == Str(default)
  {
    assert FirstPresent([], AltKeys(key)).None?;
  }

  /** The key itself wins over every other name. */
  lemma ExtractExactKey(d: Entries, key: string, default: string, show: Value -> string)
    requires HasKey(d, key)
    ensures Extracted(d, key, default, show) == Normalized(Get(d, key), default, show)
  {}

  /** Without the key, the first listed alternative name present is used. */
  lemma ExtractAlternative(d: Entries, key: string, default: string, show: Value -> string, j: nat)
    requires !HasKey(d, key) && j < |AltKeys(key)| && HasKey(d, AltKeys(key)[j])
    requires forall m :: 0 <= m < j ==> !HasKey(d, AltKeys(key)[m])
    ensures Extracted(d, key, default, show) == Normalized(Get(d, AltKeys(key)[j]), default, show)
  {
    var f := FirstPresent(d, AltKeys(key));
    assert f == Some(j);
  }

  /** Without the key or an alternative, the first key equal up to case is used. */
  lemma ExtractCaseInsensitive(d: Entries, key: string, default: string, show: Value -> string, i: nat)
    requires !HasKey(d, key) && forall m :: 0 <= m < |AltKeys(key)| ==> !HasKey(d, AltKeys(key)[m])
    requires i < |d| && SameUpToCase(d[i].0, key) && forall m :: 0 <= m < i ==> !SameUpToCase(d[m].0, key)
    ensures Extracted(d, key, default, show) == Normalized(d[i].1, default, show)
  {
    var f := FirstCaseless(d, key);
    assert f == Some(i);
  }

  /** Otherwise the default is returned as given. */
  lemma ExtractMissing(d: Entries, key: string, default: string, show: Value -> string)
    requires !HasKey(d, key) && forall m :: 0 <= m < |AltKeys(key)| ==> !HasKey(d, AltKeys(key)[m])
    requires forall m :: 0 <= m < |d| ==> !SameUpToCase(d[m].0, key)
    ensures Extracted(d, key, default, show) == Str(default)
  {}

  /** A found number is returned unchanged, and a found None or blank string gives the default. */
  lemma NormalizedKeepsNumbersAndDefaultsBlanks(v: Value, default: string, show: Value -> string)
    ensures v.Int? || v.Num? || v.Bool? || v.NaN? || v.Inf? ==> Normalized(v, default, show) == v
    ensures v.Null? || (v.Str? && Blank(v.s, IsPySpace)) ==> Normalized(v, default, show) == Str(default)
  {}

  /** The decimal spelling of a number, found as a string, comes back as that int. */
  lemma NormalizedDecimal(n: nat, default: string, show: Value -> string)
    ensures Normalized(Str(DecimalString(n)), default, show) == Int(n)
  {
    var s := DecimalString(n);
    assert IsDigit(s[0]) && !IsPySpace(s[0]);
    assert !Blank(s, IsPySpace);
    assert KeepNumeric(s) == s;
    DigitsValueOfDecimal(n);
  }

  /**
   * A found string keeps only its digits and dots: it becomes an int when
   * those are all digits, a float when they hold one dot, and otherwise
   * stays the original string.
   */
  lemma NormalizedString(s: string, default: string, show: Value -> string)
    requires !Blank(s, IsPySpace)
    ensures var r := Normalized(Str(s), default, show);
      && (r.Int? <==> KeepNumeric(s) != [] && AllDigits(KeepNumeric(s)))
      && (r.Str? ==> r == Str(s))
      && (r.Int? || r.Num? || r.Str?)
  {}
}

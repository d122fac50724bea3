/**
 * The `tool_<n>` keys under which both the session API and the mock agent
 * service file tool results, and the map obtained by filing a sequence of
 * results under `tool_0`, `tool_1`, ... in order.
 */
module ToolKeys {
  import opened Text

  /** `f"tool_{n}"` in Python, `` `tool_${n}` `` in JavaScript. */
  function ToolKey(n: nat): string {
    "tool_" + DecimalString(n)
  }

  /** Distinct indices give distinct keys. */
  lemma ToolKeyInjective(a: nat, b: nat)
    requires ToolKey(a) == ToolKey(b)
    ensures a == b
  {
    assert DecimalString(a) == ToolKey(a)[5..] == ToolKey(b)[5..] == DecimalString(b);
    DecimalStringInjective(a, b);
  }

  /** The keys `tool_0` .. `tool_{n-1}`. */
  function ToolKeys(n: nat): set<string> {
    set i | 0 <= i < n :: ToolKey(i)
  }

  /** The keys below `n + 1` are those below `n` and `tool_n`. */
  lemma ToolKeysStep(n: nat)
    ensures ToolKeys(n + 1) == ToolKeys(n) + {ToolKey(n)}
  {}

  lemma {:induction false} ToolKeysCount(n: nat)
    ensures |ToolKeys(n)| == n
    ensures forall m :: m >= n ==> ToolKey(m) !in ToolKeys(n)
  {
    forall m | m >= n ensures ToolKey(m) !in ToolKeys(n) {
      if ToolKey(m) in ToolKeys(n) {
        var i :| 0 <= i < n && ToolKey(i) == ToolKey(m);
        ToolKeyInjective(i, m);
      }
    }
    if n > 0 {
      ToolKeysCount(n - 1);
      ToolKeysStep(n - 1);
    } else {
      assert ToolKeys(0) == {};
    }
  }

  /** The results `es` filed one after another, each under the key `tool_<number of entries so far>`. */
  function Keyed<T>(es: seq<T>): map<string, T> {
    if es == [] then map[] else Keyed(es[..|es| - 1])[ToolKey(|es| - 1) := es[|es| - 1]]
  }

  /** Filing adds exactly the keys `tool_0` .. `tool_{n-1}` for `n` results. */
  lemma {:induction false} KeyedKeys<T>(es: seq<T>)
    ensures Keyed(es).Keys == ToolKeys(|es|)
  {
    if es == [] {
      assert ToolKeys(0) == {};
    } else {
      KeyedKeys(es[..|es| - 1]);
      ToolKeysStep(|es| - 1);
    }
  }

  /** `tool_j` holds the j-th result. */
  lemma {:induction false} KeyedValues<T>(es: seq<T>)
    ensures forall j :: 0 <= j < |es| ==> ToolKey(j) in Keyed(es) && Keyed(es)[ToolKey(j)] == es[j]
  {
    if es != [] {
      var n := |es| - 1;
      var prev := es[..n];
      KeyedValues(prev);
      forall j | 0 <= j < |es| ensures ToolKey(j) in Keyed(es) && Keyed(es)[ToolKey(j)] == es[j] {
        if j < n {
          assert es[j] == prev[j];
          assert ToolKey(j) != ToolKey(n) by {
            if ToolKey(j) == ToolKey(n) { ToolKeyInjective(j, n); }
          }
        }
      }
    }
  }

  /** Filing keeps every earlier entry, adds exactly one key per result, and `tool_j` holds the j-th result. */
  lemma KeyedContents<T>(es: seq<T>)
    ensures Keyed(es).Keys == ToolKeys(|es|)
    ensures |Keyed(es)| == |es|
    ensures forall j :: 0 <= j < |es| ==> Keyed(es)[ToolKey(j)] == es[j]
  {
    KeyedKeys(es);
    ToolKeysCount(|es|);
    KeyedValues(es);
  }

  /** Filing one more result adds it under the next key and leaves the rest as it was. */
  lemma KeyedAppend<T>(es: seq<T>, e: T)
    ensures Keyed(es + [e]) == Keyed(es)[ToolKey(|es|) := e]
  {
    assert (es + [e])[..|es|] == es;
  }

  /** Filing the first `i + 1` results is filing the first `i`, then the next under `tool_i`. */
  lemma KeyedPrefixStep<T>(es: seq<T>, i: nat)
    requires i < |es|
    ensures Keyed(es[..i + 1]) == Keyed(es[..i])[ToolKey(i) := es[i]]
  {
    assert es[..i + 1] == es[..i] + [es[i]];
    KeyedAppend(es[..i], es[i]);
  }
}

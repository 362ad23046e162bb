/** Stock datatypes and the few facts about finite collections the other modules share. */
module Prelude {

  datatype Option<+T> = None | Some(value: T)

  /** A decoded YAML or JSON value: what the program carries as an untyped `any`. */
  datatype Value =
    | Null
    | Bool(b: bool)
    | Num(r: real)
    | Str(s: string)
    | List(items: seq<Value>)
    | Object(fields: map<string, Value>)

  type Payload = map<string, Value>

  /** The two maps say the same thing about key `k`: both lack it, or both hold the same value. */
  predicate Agree<V(==)>(m: map<string, V>, n: map<string, V>, k: string) {
    (k in m <==> k in n) && (k in m ==> m[k] == n[k])
  }

  /** Outside `ks`, the two maps are the same map. */
  ghost predicate AgreeOutside(m: Payload, n: Payload, ks: set<string>) {
    forall k :: k !in ks ==> Agree(m, n, k)
  }

  predicate Distinct<T(==)>(xs: seq<T>) {
    forall a, b :: 0 <= a < b < |xs| ==> xs[a] != xs[b]
  }

  /** Pigeonhole: a list without repetition drawn from a set is no longer than the set. */
  lemma {:induction false} DistinctFitsIn<T>(xs: seq<T>, pool: set<T>)
    requires Distinct(xs)
    requires forall k :: 0 <= k < |xs| ==> xs[k] in pool
    ensures |xs| <= |pool|
  {
    if xs == [] {
    } else {
      var last := xs[|xs| - 1];
      DistinctFitsIn(xs[..|xs| - 1], pool - {last});
      assert |pool - {last}| == |pool| - 1;
    }
  }
}

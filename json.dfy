/**
 * JSON-shaped values as JavaScript sees a persisted snapshot or an untyped record.
 * A property holding `undefined` is the same as an absent property: the model
 * reads an object's property as an Option, None standing for `undefined`.
 */
module JsonValues {
  import opened Wrappers
  import Text

  datatype Json =
    | JNull
    | JBool(b: bool)
    | JNum(n: real)
    | JStr(s: string)
    | JArr(items: seq<Json>)
    | JObj(fields: map<string, Json>)

  type Object = map<string, Json>

  /** `v === null || v === undefined` */
  predicate Nullish(v: Option<Json>) {
    v.None? || v.value.JNull?
  }

  /** Boolean(v): false for undefined, null, false, 0 and "". */
  predicate Truthy(v: Option<Json>) {
    match v
    case None => false
    case Some(JNull) => false
    case Some(JBool(b)) => b
    case Some(JNum(n)) => n != 0.0
    case Some(JStr(s)) => s != ""
    case Some(_) => true
  }

  /** `a ?? b` */
  function Coalesce(a: Option<Json>, b: Option<Json>): (r: Option<Json>)
    ensures !Nullish(a) ==> r == a
    ensures Nullish(a) ==> r == b
  {
    if Nullish(a) then b else a
  }

  /** `v[0] ?? v[1] ?? ... ?? v[n-1]` (a chain of `??`, read from the left). */
  function CoalesceAll(vs: seq<Option<Json>>): Option<Json>
    requires |vs| >= 1
  {
    if |vs| == 1 || !Nullish(vs[0]) then vs[0] else CoalesceAll(vs[1..])
  }

  /** The chain of `??` is the first value that is neither null nor undefined, or else the last. */
  lemma {:induction false} CoalesceAllFirstPresent(vs: seq<Option<Json>>)
    requires |vs| >= 1
    ensures (exists i :: 0 <= i < |vs| && !Nullish(vs[i])) ==>
              exists i :: 0 <= i < |vs| && !Nullish(vs[i]) && CoalesceAll(vs) == vs[i]
                          && forall j :: 0 <= j < i ==> Nullish(vs[j])
    ensures (forall i :: 0 <= i < |vs| ==> Nullish(vs[i])) ==> CoalesceAll(vs) == vs[|vs| - 1]
  {
    if |vs| > 1 && Nullish(vs[0]) {
      CoalesceAllFirstPresent(vs[1..]);
      if exists i :: 0 <= i < |vs| && !Nullish(vs[i]) {
        var i :| 0 <= i < |vs| && !Nullish(vs[i]);
        assert i > 0 && !Nullish(vs[1..][i - 1]);
        var k :| 0 <= k < |vs| - 1 && !Nullish(vs[1..][k]) && CoalesceAll(vs[1..]) == vs[1..][k]
                 && forall j :: 0 <= j < k ==> Nullish(vs[1..][j]);
        assert forall j :: 0 <= j < k + 1 ==> Nullish(vs[j]) by {
          forall j | 0 <= j < k + 1 ensures Nullish(vs[j]) {
            if j > 0 { assert vs[j] == vs[1..][j - 1]; }
          }
        }
      }
      if forall i :: 0 <= i < |vs| ==> Nullish(vs[i]) {
        assert forall i :: 0 <= i < |vs| - 1 ==> Nullish(vs[1..][i]) by {
          forall i | 0 <= i < |vs| - 1 ensures Nullish(vs[1..][i]) { assert vs[1..][i] == vs[i + 1]; }
        }
      }
    }
  }

  /** The chain written with `??` is the left-nested `((a ?? b) ?? c) ?? d`. */
  lemma CoalesceFourIsChain(a: Option<Json>, b: Option<Json>, c: Option<Json>, d: Option<Json>)
    ensures Coalesce(Coalesce(Coalesce(a, b), c), d) == CoalesceAll([a, b, c, d])
  {
    CoalesceThreeIsChain(b, c, d);
    assert [a, b, c, d][1..] == [b, c, d];
    if Nullish(a) {
      assert CoalesceAll([a, b, c, d]) == CoalesceAll([b, c, d]);
    }
  }

  lemma CoalesceThreeIsChain(a: Option<Json>, b: Option<Json>, c: Option<Json>)
    ensures Coalesce(Coalesce(a, b), c) == CoalesceAll([a, b, c])
  {
    assert [a, b, c][1..] == [b, c];
    assert [b, c][1..] == [c];
    assert CoalesceAll([c]) == c;
    assert CoalesceAll([b, c]) == Coalesce(b, c);
    if Nullish(a) {
      assert CoalesceAll([a, b, c]) == CoalesceAll([b, c]);
    }
  }

  /**
   * `v.k` on a value that is not null: an object's own property, and undefined
   * on an array, a string, a number or a boolean (the property names the model
   * reads are never built-in properties of those).
   */
  function Field(v: Json, k: string): (r: Option<Json>)
    ensures r.Some? <==> v.JObj? && k in v.fields
    ensures r.Some? ==> r.value == v.fields[k]
  {
    if v.JObj? && k in v.fields then Some(v.fields[k]) else None
  }

  /** `v.k` with JavaScript's rule that reading a property of null throws. */
  function Member(v: Json, k: string): (r: Result<Option<Json>>)
    ensures r.Failure? <==> v.JNull?
    ensures r.Success? ==> r.value == Field(v, k)
  {
    if v.JNull? then Failure(TypeError("Cannot read properties of null")) else Success(Field(v, k))
  }

  /** The own properties of an array or a string: index keys "0", "1", ... */
  function IndexObject(items: seq<Json>): (m: Object)
    ensures |m.Keys| <= |items|
    decreases |items|
  {
    if items == [] then map[]
    else IndexObject(items[..|items| - 1])[Text.NatToString(|items| - 1) := items[|items| - 1]]
  }

  /** The renderings "0" .. "n-1" of the first n indices. */
  function IndexKeys(n: nat): set<string> {
    set i | 0 <= i < n :: Text.NatToString(i)
  }

  /** The keys are the renderings of the indices. */
  lemma {:induction false} IndexObjectKeys(items: seq<Json>)
    ensures IndexObject(items).Keys == IndexKeys(|items|)
    decreases |items|
  {
    if items != [] {
      var n := |items| - 1;
      IndexObjectKeys(items[..n]);
      assert IndexObject(items).Keys == IndexObject(items[..n]).Keys + {Text.NatToString(n)};
      IndexKeysStep(n);
    }
  }

  /** One more index adds its rendering. */
  lemma IndexKeysStep(n: nat)
    ensures IndexKeys(n + 1) == IndexKeys(n) + {Text.NatToString(n)}
  {
    forall k ensures k in IndexKeys(n + 1) <==> k in IndexKeys(n) + {Text.NatToString(n)} {
      if k in IndexKeys(n + 1) {
        var i :| 0 <= i < n + 1 && k == Text.NatToString(i);
        if i < n {
          assert k in IndexKeys(n);
        }
      }
    }
  }

  /** Index key "i" holds item i. */
  lemma {:induction false} IndexObjectValues(items: seq<Json>)
    ensures forall i :: 0 <= i < |items| ==> Text.NatToString(i) in IndexObject(items) && IndexObject(items)[Text.NatToString(i)] == items[i]
    decreases |items|
  {
    if items != [] {
      var n := |items| - 1;
      var init := items[..n];
      IndexObjectValues(init);
      var before := IndexObject(init);
      assert IndexObject(items) == before[Text.NatToString(n) := items[n]];
      forall i | 0 <= i < |items|
        ensures Text.NatToString(i) in IndexObject(items) && IndexObject(items)[Text.NatToString(i)] == items[i]
      {
        if i < n {
          Text.NatToStringInjective(i, n);
          assert before[Text.NatToString(i)] == init[i] == items[i];
        }
      }
    }
  }

  /** `{...array}`: index key "i" holds item i, and there are no other keys. */
  lemma IndexObjectHoldsItems(items: seq<Json>)
    ensures var m := IndexObject(items);
      && m.Keys == IndexKeys(|items|)
      && forall i :: 0 <= i < |items| ==> m[Text.NatToString(i)] == items[i]
  {
    IndexObjectKeys(items);
    IndexObjectValues(items);
  }

  function Chars(s: string): (r: seq<Json>)
    ensures |r| == |s|
    ensures forall i :: 0 <= i < |s| ==> r[i] == JStr([s[i]])
  {
    seq(|s|, i requires 0 <= i < |s| => JStr([s[i]]))
  }

  /** The properties `{...v}` copies: an object's fields, the indices of an array or string, nothing otherwise. */
  function Spread(v: Json): (m: Object)
    ensures v.JObj? ==> m == v.fields
    ensures v.JNull? || v.JBool? || v.JNum? ==> m == map[]
  {
    match v
    case JObj(fields) => fields
    case JArr(items) => IndexObject(items)
    case JStr(s) => IndexObject(Chars(s))
    case _ => map[]
  }

  /** `{...m, k: v}`: an undefined value leaves the property absent. */
  function Put(m: Object, k: string, v: Option<Json>): (r: Object)
    ensures v.Some? ==> k in r && r[k] == v.value
    ensures v.None? ==> k !in r
    ensures forall j :: j != k ==> (j in r <==> j in m) && (j in r ==> r[j] == m[j])
  {
    if v.Some? then m[k := v.value] else m - {k}
  }

  /** `Number.isInteger(v)` */
  predicate IsInteger(v: Option<Json>) {
    v.Some? && v.value.JNum? && v.value.n == v.value.n.Floor as real
  }
}

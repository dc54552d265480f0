/**
 * The lodash helpers the core relies on (`merge`, `assign`, `isObject`,
 * `isString`), written out after lodash's documented semantics for the
 * values of module Json.
 */
module Lodash {
  import opened Json

  /** `_.isObject`: true of arrays and objects, false of null and primitives. */
  predicate IsObject(v: Json) {
    v.Arr? || v.Obj?
  }

  /** `_.isString` */
  predicate IsString(v: Json) {
    v.Str?
  }

  /** `_.assign(target, source)`: own keys of `source` are copied onto `target`, overwriting. */
  function Assign<V>(target: map<string, V>, source: map<string, V>): (r: map<string, V>)
    ensures r.Keys == target.Keys + source.Keys
    ensures forall k :: k in source ==> r[k] == source[k]
    ensures forall k :: k in target && k !in source ==> r[k] == target[k]
  {
    target + source
  }

  /** Assigning onto an empty target copies the source; assigning an empty source changes nothing. */
  lemma AssignEmpty<V>(m: map<string, V>)
    ensures Assign(map[], m) == m && Assign(m, map[]) == m
  {
    assert (map[] + m).Keys == m.Keys;
    assert (m + map[]).Keys == m.Keys;
  }

  /**
   * The value lodash's `merge` leaves under a key whose destination
   * value is `dst` when the source value is `src`:
   *  - an undefined source never overwrites;
   *  - a plain-object source is merged key by key into the destination
   *    object, or into a fresh `{}` when the destination is not one;
   *  - an array source is merged index by index into the destination
   *    array, or into a fresh `[]`;
   *  - any other source value replaces the destination.
   */
  function Merge(dst: Json, src: Json): (r: Json)
    ensures src == Undefined ==> r == dst
    ensures src.Obj? ==> r.Obj? && r.props.Keys == (if dst.Obj? then dst.props.Keys else {}) + src.props.Keys
    ensures src.Arr? ==> r.Arr? && |r.items| == if dst.Arr? && |dst.items| > |src.items| then |dst.items| else |src.items|
    ensures src != Undefined && !IsObject(src) ==> r == src
    decreases src
  {
    match src
    case Undefined => dst
    case Obj(sp) =>
      var dp := if dst.Obj? then dst.props else map[];
      Obj(map k | k in dp.Keys + sp.Keys :: if k in sp then Merge(Lookup(dp, k), sp[k]) else dp[k])
    case Arr(si) =>
      var di := if dst.Arr? then dst.items else [];
      var n := if |di| < |si| then |si| else |di|;
      Arr(seq(n, i requires 0 <= i < n =>
        if i < |si| then Merge(if i < |di| then di[i] else Undefined, si[i]) else di[i]))
    case _ => src
  }

  /** `_.merge(object, source)` on the own properties of two plain objects. */
  function MergeProps(dst: map<string, Json>, src: map<string, Json>): (r: map<string, Json>)
    ensures r.Keys == dst.Keys + src.Keys
    ensures forall k :: k in dst && k !in src ==> r[k] == dst[k]
    ensures forall k :: k in src ==> r[k] == Merge(Lookup(dst, k), src[k])
    ensures forall k :: k in src && src[k] == Undefined && k in dst ==> r[k] == dst[k]
  {
    Merge(Obj(dst), Obj(src)).props
  }

  /** Merging the same source twice changes nothing the first merge did not. */
  lemma {:induction false} MergeIdempotent(dst: Json, src: Json)
    ensures Merge(Merge(dst, src), src) == Merge(dst, src)
    decreases src, 1
  {
    match src
    case Obj(sp) => MergeIdempotentProps(dst, sp);
    case Arr(si) => MergeIdempotentItems(dst, si);
    case _ =>
  }

  lemma {:induction false} MergeIdempotentProps(dst: Json, sp: map<string, Json>)
    ensures Merge(Merge(dst, Obj(sp)), Obj(sp)) == Merge(dst, Obj(sp))
    decreases Obj(sp), 0
  {
    var once := Merge(dst, Obj(sp));
    var twice := Merge(once, Obj(sp));
    forall k | k in sp
      ensures twice.props[k] == once.props[k]
    {
      MergeIdempotent(Lookup(if dst.Obj? then dst.props else map[], k), sp[k]);
    }
    assert twice.props == once.props;
  }

  lemma {:induction false} MergeIdempotentItems(dst: Json, si: seq<Json>)
    ensures Merge(Merge(dst, Arr(si)), Arr(si)) == Merge(dst, Arr(si))
    decreases Arr(si), 0
  {
    var once := Merge(dst, Arr(si));
    var twice := Merge(once, Arr(si));
    forall i | 0 <= i < |si|
      ensures twice.items[i] == once.items[i]
    {
      var di := if dst.Arr? then dst.items else [];
      MergeIdempotent(if i < |di| then di[i] else Undefined, si[i]);
    }
    assert twice.items == once.items;
  }

  /** Merging a value into itself leaves it as it was. */
  lemma {:induction false} MergeSelf(v: Json)
    ensures Merge(v, v) == v
    decreases v
  {
    match v
    case Obj(p) =>
      forall k | k in p
        ensures Merge(v, v).props[k] == p[k]
      {
        MergeSelf(p[k]);
      }
      assert Merge(v, v).props == p;
    case Arr(items) =>
      forall i | 0 <= i < |items|
        ensures Merge(v, v).items[i] == items[i]
      {
        MergeSelf(items[i]);
      }
      assert Merge(v, v).items == items;
    case _ =>
  }

  /** An empty source object leaves a destination object unchanged. */
  lemma MergeEmptyProps(dst: map<string, Json>)
    ensures MergeProps(dst, map[]) == dst
  {
    assert MergeProps(dst, map[]).Keys == dst.Keys;
  }
}

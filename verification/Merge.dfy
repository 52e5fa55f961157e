/** FillNilPointers: the fields a user left unset are taken from a second value of the same type. Structs are
    trees whose fields follow a schema. */
module Merge {
  import opened Wrappers

  /** The type of a field. A leaf is a pointer to a value without fields of its own, or a map; a struct field
      is a pointer to a struct; anything else (slices, strings, numbers) is plain and never filled. */
  datatype Type = LeafType | StructType(fields: seq<Type>) | PlainType

  /** A field's value. The zero of a plain field is None. */
  datatype Field<V> =
    | Leaf(value: Option<V>)
    | Struct(body: Option<seq<Field<V>>>)
    | Plain(content: Option<V>)

  predicate Fits<V>(f: Field<V>, t: Type)
    decreases t, 0
  {
    match f
    case Leaf(_) => t.LeafType?
    case Plain(_) => t.PlainType?
    case Struct(body) => t.StructType? && (body.Some? ==> AllFit(body.value, t.fields))
  }

  predicate AllFit<V>(fs: seq<Field<V>>, ts: seq<Type>)
    decreases ts
  {
    |fs| == |ts| && forall i | 0 <= i < |ts| :: Fits(fs[i], ts[i])
  }

  // ---- what filling computes ----

  function ZeroField<V>(t: Type): (f: Field<V>)
    ensures Fits(f, t)
  {
    match t
    case LeafType => Leaf(None)
    case StructType(_) => Struct(None)
    case PlainType => Plain(None)
  }

  /** reflect.New: a struct with nothing set. */
  function Zero<V>(ts: seq<Type>): (fs: seq<Field<V>>)
    ensures AllFit(fs, ts)
  {
    seq(|ts|, i requires 0 <= i < |ts| => ZeroField(ts[i]))
  }

  function FillField<V>(dst: Field<V>, src: Field<V>, t: Type): (r: Field<V>)
    requires Fits(dst, t) && Fits(src, t)
    ensures Fits(r, t)
    decreases t, 0
  {
    match t
    case LeafType => if dst.value.None? then src else dst
    case PlainType => dst
    case StructType(ts) =>
      if src.body.None? then dst
      else
        var inner := if dst.body.None? then Zero(ts) else dst.body.value;
        Struct(Some(Fill(inner, src.body.value, ts)))
  }

  function Fill<V>(dst: seq<Field<V>>, src: seq<Field<V>>, ts: seq<Type>): (r: seq<Field<V>>)
    requires AllFit(dst, ts) && AllFit(src, ts)
    ensures AllFit(r, ts)
    decreases ts
  {
    seq(|ts|, i requires 0 <= i < |ts| => FillField(dst[i], src[i], ts[i]))
  }

  /** fillNilPointersValue: the fields one after the other, going down into structs; a nil pointer to a struct
      is given a new struct first. */
  method FillNilPointersValue<V>(dst: seq<Field<V>>, src: seq<Field<V>>, ts: seq<Type>) returns (r: seq<Field<V>>)
    requires AllFit(dst, ts) && AllFit(src, ts)
    ensures r == Fill(dst, src, ts)
    decreases ts
  {
    r := dst;
    for i := 0 to |ts|
      invariant |r| == |ts| && forall j | i <= j < |ts| :: r[j] == dst[j]
      invariant forall j | 0 <= j < i :: r[j] == FillField(dst[j], src[j], ts[j])
    {
      match ts[i]
      case StructType(fields) =>
        if src[i].body.Some? {
          if r[i].body.None? {
            r := r[i := Struct(Some(Zero(fields)))];
          }
          var inner := FillNilPointersValue(r[i].body.value, src[i].body.value, fields);
          r := r[i := Struct(Some(inner))];
        }
      case LeafType =>
        if r[i].value.None? && src[i].value.Some? {
          r := r[i := src[i]];
        }
      case PlainType =>
    }
  }

  // ---- reference: what a path leads to ----

  /** What stands at the end of a path of field numbers: nothing, a set leaf, or a struct that is there. */
  datatype Found<V> = Nothing | Value(value: V) | Present

  function At<V>(fs: seq<Field<V>>, path: seq<nat>): Found<V>
    decreases path
  {
    if path == [] || path[0] >= |fs| then Nothing
    else match fs[path[0]]
      case Leaf(Some(v)) => if |path| == 1 then Value(v) else Nothing
      case Struct(Some(body)) => if |path| == 1 then Present else At(body, path[1..])
      case _ => Nothing
  }

  lemma {:induction false} ZeroHasNothing<V>(ts: seq<Type>, path: seq<nat>)
    ensures At(Zero<V>(ts), path) == Nothing
  {
  }

  /** Filling, path by path: what the user set stays, what the user left unset is what the second value has. */
  lemma {:induction false} FillAt<V>(dst: seq<Field<V>>, src: seq<Field<V>>, ts: seq<Type>, path: seq<nat>)
    requires AllFit(dst, ts) && AllFit(src, ts)
    ensures At(Fill(dst, src, ts), path) == if At(dst, path) != Nothing then At(dst, path) else At(src, path)
    decreases ts
  {
    if path != [] && path[0] < |ts| {
      var i := path[0];
      match ts[i]
      case StructType(fields) =>
        if src[i].body.Some? {
          var inner := if dst[i].body.None? then Zero(fields) else dst[i].body.value;
          ZeroHasNothing<V>(fields, path[1..]);
          FillAt(inner, src[i].body.value, fields, path[1..]);
        }
      case LeafType =>
      case PlainType =>
    }
  }

  // ---- the laws ----

  lemma {:induction false} FillWithZero<V>(a: seq<Field<V>>, ts: seq<Type>)
    requires AllFit(a, ts)
    ensures Fill(a, Zero(ts), ts) == a
  {
  }

  /** Merging is associative: defaults can be merged level by level in either order. */
  lemma {:induction false} FillAssociative<V>(a: seq<Field<V>>, b: seq<Field<V>>, c: seq<Field<V>>, ts: seq<Type>)
    requires AllFit(a, ts) && AllFit(b, ts) && AllFit(c, ts)
    ensures Fill(Fill(a, b, ts), c, ts) == Fill(a, Fill(b, c, ts), ts)
    decreases ts, 0
  {
    forall i | 0 <= i < |ts|
      ensures FillField(FillField(a[i], b[i], ts[i]), c[i], ts[i]) == FillField(a[i], FillField(b[i], c[i], ts[i]), ts[i])
    {
      if ts[i].StructType? {
        FieldAssociative(a[i], b[i], c[i], ts[i]);
      }
    }
  }

  lemma {:induction false} FieldAssociative<V>(a: Field<V>, b: Field<V>, c: Field<V>, t: Type)
    requires t.StructType? && Fits(a, t) && Fits(b, t) && Fits(c, t)
    ensures FillField(FillField(a, b, t), c, t) == FillField(a, FillField(b, c, t), t)
    decreases t, 1
  {
    var ts := t.fields;
    if c.body.Some? {
      var x := if a.body.None? then Zero(ts) else a.body.value;
      var y := if b.body.None? then Zero(ts) else b.body.value;
      FillAssociative(x, y, c.body.value, ts);
      FillWithZero(x, ts);
    }
  }

  predicate FieldCovered<V>(r: Field<V>, c: Field<V>, t: Type)
    requires Fits(r, t) && Fits(c, t)
    decreases t, 0
  {
    match t
    case LeafType => c.value.Some? ==> r.value.Some?
    case PlainType => true
    case StructType(fields) => c.body.Some? ==> r.body.Some? && Covers(r.body.value, c.body.value, fields)
  }

  /** Everything c sets, at any depth, is set in r. */
  predicate Covers<V>(r: seq<Field<V>>, c: seq<Field<V>>, ts: seq<Type>)
    requires AllFit(r, ts) && AllFit(c, ts)
    decreases ts
  {
    forall i | 0 <= i < |ts| :: FieldCovered(r[i], c[i], ts[i])
  }

  /** Refilling changes nothing exactly when everything the second value sets was set before. */
  lemma {:induction false} RefillUnchangedIff<V>(r: seq<Field<V>>, c: seq<Field<V>>, ts: seq<Type>)
    requires AllFit(r, ts) && AllFit(c, ts)
    ensures Fill(r, c, ts) == r <==> Covers(r, c, ts)
    decreases ts
  {
    forall i | 0 <= i < |ts|
      ensures FillField(r[i], c[i], ts[i]) == r[i] <==> FieldCovered(r[i], c[i], ts[i])
    {
      if ts[i].StructType? && c[i].body.Some? && r[i].body.Some? {
        RefillUnchangedIff(r[i].body.value, c[i].body.value, ts[i].fields);
      }
    }
    assert Fill(r, c, ts) == r <==> forall i | 0 <= i < |ts| :: FillField(r[i], c[i], ts[i]) == r[i];
  }

  lemma {:induction false} FillCovers<V>(a: seq<Field<V>>, b: seq<Field<V>>, ts: seq<Type>)
    requires AllFit(a, ts) && AllFit(b, ts)
    ensures Covers(Fill(a, b, ts), b, ts)
    decreases ts
  {
    forall i | 0 <= i < |ts|
      ensures FieldCovered(FillField(a[i], b[i], ts[i]), b[i], ts[i])
    {
      if ts[i].StructType? && b[i].body.Some? {
        FillCovers(if a[i].body.None? then Zero(ts[i].fields) else a[i].body.value, b[i].body.value, ts[i].fields);
      }
    }
  }

  lemma {:induction false} CoversTransitive<V>(r: seq<Field<V>>, b: seq<Field<V>>, c: seq<Field<V>>, ts: seq<Type>)
    requires AllFit(r, ts) && AllFit(b, ts) && AllFit(c, ts) && Covers(r, b, ts) && Covers(b, c, ts)
    ensures Covers(r, c, ts)
    decreases ts
  {
    forall i | 0 <= i < |ts|
      ensures FieldCovered(r[i], c[i], ts[i])
    {
      assert FieldCovered(r[i], b[i], ts[i]) && FieldCovered(b[i], c[i], ts[i]);
      if ts[i].StructType? && c[i].body.Some? {
        CoversTransitive(r[i].body.value, b[i].body.value, c[i].body.value, ts[i].fields);
      }
    }
  }

  /** Absorption: once a value is filled from b, filling it from b again, or from any c that sets nothing b left
      unset, changes nothing. */
  lemma Absorbed<V>(a: seq<Field<V>>, b: seq<Field<V>>, c: seq<Field<V>>, ts: seq<Type>)
    requires AllFit(a, ts) && AllFit(b, ts) && AllFit(c, ts) && Covers(b, c, ts)
    ensures Fill(Fill(a, b, ts), c, ts) == Fill(a, b, ts)
  {
    FillCovers(a, b, ts);
    CoversTransitive(Fill(a, b, ts), b, c, ts);
    RefillUnchangedIff(Fill(a, b, ts), c, ts);
  }

  // ---- the two levels of defaults ----

  /** LoadDef for one node: its struct, `field` of the node types, filled from the same field of the
      configuration's default node. */
  function LoadNode<V>(node: seq<Field<V>>, field: nat, defaults: Field<V>, ts: seq<Type>): seq<Field<V>>
    requires Fits(defaults, StructType(ts)) && field < |ts| && ts[field].StructType? && AllFit(node, ts[field].fields)
  {
    if defaults.body.None? then node
    else
      assert AllFit(defaults.body.value, StructType(ts).fields) && Fits(defaults.body.value[field], ts[field]);
      LoadFrom(node, defaults.body.value[field], ts[field])
  }

  function LoadFrom<V>(node: seq<Field<V>>, default: Field<V>, t: Type): seq<Field<V>>
    requires Fits(default, t) && t.StructType? && AllFit(node, t.fields)
  {
    if default.body.None? then node else Fill(node, default.body.value, t.fields)
  }

  lemma LoadFromTwice<V>(node: seq<Field<V>>, config: Field<V>, app: Field<V>, t: Type)
    requires t.StructType? && Fits(config, t) && Fits(app, t) && AllFit(node, t.fields)
    ensures AllFit(LoadFrom(node, config, t), t.fields)
    ensures LoadFrom(node, FillField(config, app, t), t) == LoadFrom(LoadFrom(node, config, t), app, t)
  {
    if app.body.Some? {
      var x := if config.body.None? then Zero(t.fields) else config.body.value;
      FillAssociative(node, x, app.body.value, t.fields);
      FillWithZero(node, t.fields);
    }
  }

  /** Filling a lab's node from a configuration that was itself filled from the application's defaults is
      filling it from the raw configuration and then from the application's defaults. `config` and `app` are
      the default nodes of the two levels. */
  lemma TwoLevels<V>(node: seq<Field<V>>, field: nat, config: Field<V>, app: Field<V>, ts: seq<Type>)
    requires Fits(config, StructType(ts)) && Fits(app, StructType(ts))
    requires field < |ts| && ts[field].StructType? && AllFit(node, ts[field].fields)
    ensures AllFit(LoadNode(node, field, config, ts), ts[field].fields)
    ensures LoadNode(node, field, FillField(config, app, StructType(ts)), ts) ==
            LoadNode(LoadNode(node, field, config, ts), field, app, ts)
  {
    var t := ts[field];
    if app.body.Some? {
      var inner := if config.body.None? then Zero(ts) else config.body.value;
      assert FillField(config, app, StructType(ts)).body.value[field] == FillField(inner[field], app.body.value[field], t);
      LoadFromTwice(node, inner[field], app.body.value[field], t);
    }
    if config.body.Some? {
      assert Fits(config.body.value[field], t);
    }
  }
}

/** Emission side of the `soukousei_derive` crate: the field initialiser each kind of field
    contributes to the generated `new`, `merge` and `default`. The emitted Rust is kept as
    a small expression datatype, and `Eval` gives it the meaning the Rust has, so that
    the generated code can be held to the layer laws and compared with the hand-written
    `NestedLayer`. */
module Codegen {
  import opened Wrappers
  import opened Soukousei
  import opened Layers
  import Derive
  import NestedLayers

  /** `IrField`: a plain optional field, or a field holding a nested layer. */
  datatype IrField =
    | Plain(id: string, ty: string, defaultValue: Option<string>, env: Option<Derive.LayerParamEnv>, isOptional: bool)
    | NestedLayer(id: string, layerTy: string)

  /** A field read in generated code: `self.id` or `other.id`. */
  datatype Operand = SelfField(id: string) | OtherField(id: string)

  /** The right-hand sides the generator writes. */
  datatype FieldExpr =
    | NoneExpr                                    // None
    | SomeExpr(defaultExpr: string)               // Some(<default expression>)
    | LayerNewCall                                // ::soukousei::Layer::new()
    | LayerMergeCall(lhs: Operand, rhs: Operand)  // ::soukousei::Layer::merge(lhs, rhs)
    | OrCall(recv: Operand, arg: Operand)         // recv.or(arg)
    | DefaultCall                                 // Default::default()

  /** One `id: expr` entry of a generated struct literal. */
  datatype FieldInit = FieldInit(id: string, expr: FieldExpr)

  /** The fields of `self` and `other` an emitted expression reads. */
  function Operands(e: FieldExpr): set<Operand>
  {
    match e
    case LayerMergeCall(lhs, rhs) => {lhs, rhs}
    case OrCall(recv, arg) => {recv, arg}
    case _ => {}
  }

  /** `IrField::codegen_new`: initialises the field under its own name without reading
      either layer. */
  function CodegenNew(f: IrField): (r: FieldInit)
    ensures r.id == f.id && Operands(r.expr) == {}
  {
    match f
    case Plain(id, _, _, _, _) => FieldInit(id, NoneExpr)
    case NestedLayer(id, _) => FieldInit(id, LayerNewCall)
  }

  /** `IrField::codegen_merge`: initialises the field under its own name from that same
      field of both layers, and from nothing else. */
  function CodegenMerge(f: IrField): (r: FieldInit)
    ensures r.id == f.id && Operands(r.expr) == {SelfField(f.id), OtherField(f.id)}
  {
    match f
    case Plain(id, _, _, _, _) => FieldInit(id, OrCall(OtherField(id), SelfField(id)))
    case NestedLayer(id, _) => FieldInit(id, LayerMergeCall(SelfField(id), OtherField(id)))
  }

  /** `IrField::codegen_default`: initialises the field under its own name without reading
      either layer. */
  function CodegenDefault(f: IrField): (r: FieldInit)
    ensures r.id == f.id && Operands(r.expr) == {}
  {
    match f
    case Plain(id, _, Some(d), _, _) => FieldInit(id, SomeExpr(d))
    case Plain(id, _, None, _, _) => FieldInit(id, NoneExpr)
    case NestedLayer(id, _) => FieldInit(id, DefaultCall)
  }

  /** `Ir::codegen_new_fields`: the generated literal names every field once, in field
      order, and reads neither layer. */
  function CodegenNewFields(fields: seq<IrField>): (r: seq<FieldInit>)
    ensures |r| == |fields|
    ensures forall i :: 0 <= i < |fields| ==> r[i].id == fields[i].id && Operands(r[i].expr) == {}
  {
    seq(|fields|, i requires 0 <= i < |fields| => CodegenNew(fields[i]))
  }

  /** `Ir::codegen_fields_merge`: the generated literal names every field once, in field
      order, and each initialiser reads only its own field of the two layers. */
  function CodegenMergeFields(fields: seq<IrField>): (r: seq<FieldInit>)
    ensures |r| == |fields|
    ensures forall i :: 0 <= i < |fields| ==>
              r[i].id == fields[i].id && Operands(r[i].expr) == {SelfField(fields[i].id), OtherField(fields[i].id)}
  {
    seq(|fields|, i requires 0 <= i < |fields| => CodegenMerge(fields[i]))
  }

  /** `Ir::codegen_fields_default`: the generated literal names every field once, in field
      order, and reads neither layer. */
  function CodegenDefaultFields(fields: seq<IrField>): (r: seq<FieldInit>)
    ensures |r| == |fields|
    ensures forall i :: 0 <= i < |fields| ==> r[i].id == fields[i].id && Operands(r[i].expr) == {}
  {
    seq(|fields|, i requires 0 <= i < |fields| => CodegenDefault(fields[i]))
  }

  // Meaning of the emitted code.

  /** The run-time value of one field: an optional plain value, or a nested layer. */
  datatype Slot<V, L> = PlainSlot(opt: Option<V>) | LayerSlot(layer: L)

  /** The nested layer type's own `Layer::new`, `Layer::merge` and `Default::default`. */
  datatype LayerOps<!L> = LayerOps(empty: L, merge: (L, L) -> L, defaultLayer: L)

  /** A layer value, field name to field value. */
  type Record<V, L> = map<string, Slot<V, L>>

  /** Reading `self.id` or `other.id`; `None` when there is no such field. */
  function Read<V, L>(o: Operand, self: Record<V, L>, other: Record<V, L>): Option<Slot<V, L>>
  {
    match o
    case SelfField(id) => if id in self then Some(self[id]) else None
    case OtherField(id) => if id in other then Some(other[id]) else None
  }

  /** What an emitted expression evaluates to, given the two layers in scope, the nested
      layer type's operations and the value of each default expression; `None` for code
      that would not type-check (e.g. `.or` on a nested layer). */
  function Eval<V, L>(e: FieldExpr, self: Record<V, L>, other: Record<V, L>, ops: LayerOps<L>, evalDefault: string -> V)
    : Option<Slot<V, L>>
  {
    match e
    case NoneExpr => Some(PlainSlot(None))
    case SomeExpr(d) => Some(PlainSlot(Some(evalDefault(d))))
    case LayerNewCall => Some(LayerSlot(ops.empty))
    case DefaultCall => Some(LayerSlot(ops.defaultLayer))
    case LayerMergeCall(lhs, rhs) =>
      (match (Read(lhs, self, other), Read(rhs, self, other))
       case (Some(LayerSlot(a)), Some(LayerSlot(b))) => Some(LayerSlot(ops.merge(a, b)))
       case _ => None)
    case OrCall(recv, arg) =>
      match (Read(recv, self, other), Read(arg, self, other))
      case (Some(PlainSlot(a)), Some(PlainSlot(b))) => Some(PlainSlot(a.Or(b)))
      case _ => None
  }

  /** A generated struct literal, evaluated field by field; `None` if any field fails. */
  function EvalInits<V, L>(inits: seq<FieldInit>, self: Record<V, L>, other: Record<V, L>, ops: LayerOps<L>, evalDefault: string -> V)
    : Option<Record<V, L>>
  {
    if |inits| == 0 then Some(map[])
    else
      match Eval(inits[0].expr, self, other, ops, evalDefault)
      case None => None
      case Some(slot) =>
        match EvalInits(inits[1..], self, other, ops, evalDefault)
        case None => None
        case Some(rest) => Some(rest[inits[0].id := slot])
  }

  /** The value a field of kind `f` holds in an empty layer. */
  function EmptySlot<V, L>(f: IrField, ops: LayerOps<L>): Slot<V, L>
  {
    if f.Plain? then PlainSlot(None) else LayerSlot(ops.empty)
  }

  /** `s` is a value a field of kind `f` can hold. */
  predicate Fits<V, L>(f: IrField, s: Slot<V, L>)
  {
    f.Plain? <==> s.PlainSlot?
  }

  /** The emitted `new` initialises a field, under its own name, to the empty value of its
      kind: `None` for a plain field, the nested layer's own `new()` for a nested one. */
  lemma EmittedNewIsEmpty<V, L>(f: IrField, self: Record<V, L>, other: Record<V, L>, ops: LayerOps<L>, evalDefault: string -> V)
    ensures CodegenNew(f).id == f.id
    ensures Eval(CodegenNew(f).expr, self, other, ops, evalDefault) == Some(EmptySlot(f, ops))
  {
  }

  /** The emitted `merge` is right-biased on a plain field and delegates to the nested
      layer's own merge (self first, other second) on a nested field. */
  lemma EmittedMergeSemantics<V, L>(f: IrField, self: Record<V, L>, other: Record<V, L>, ops: LayerOps<L>, evalDefault: string -> V)
    requires f.id in self && f.id in other
    requires Fits(f, self[f.id]) && Fits(f, other[f.id])
    ensures var r := Eval(CodegenMerge(f).expr, self, other, ops, evalDefault);
            && r.Some?
            && Fits(f, r.value)
            && (f.Plain? ==> Overrides(r.value.opt, self[f.id].opt, other[f.id].opt))
            && (f.NestedLayer? ==> r.value == LayerSlot(ops.merge(self[f.id].layer, other[f.id].layer)))
  {
  }

  /** The generated code obeys the identity law of `Layer`: when the nested layer's `new()`
      is an identity of its `merge`, merging a field's emitted empty value with any value
      on either side gives that value back. */
  lemma EmittedNewIsMergeIdentity<V, L>(f: IrField, s: Slot<V, L>, ops: LayerOps<L>, evalDefault: string -> V)
    requires Fits(f, s)
    requires forall x :: ops.merge(ops.empty, x) == x
    requires forall x :: ops.merge(x, ops.empty) == x
    ensures var empty := Eval(CodegenNew(f).expr, map[], map[], ops, evalDefault).value;
            && Eval(CodegenMerge(f).expr, map[f.id := empty], map[f.id := s], ops, evalDefault) == Some(s)
            && Eval(CodegenMerge(f).expr, map[f.id := s], map[f.id := empty], ops, evalDefault) == Some(s)
  {
    EmittedNewIsEmpty(f, map[], map[], ops, evalDefault);
  }

  /** The emitted `default`: a plain field with a default holds that default's value, a
      plain field without one is `None`, and a nested field takes its layer's default. */
  lemma EmittedDefaultSemantics<V, L>(f: IrField, self: Record<V, L>, other: Record<V, L>, ops: LayerOps<L>, evalDefault: string -> V)
    ensures CodegenDefault(f).id == f.id
    ensures var r := Eval(CodegenDefault(f).expr, self, other, ops, evalDefault);
            && (f.Plain? && f.defaultValue.Some? ==> r == Some(PlainSlot(Some(evalDefault(f.defaultValue.value)))))
            && (f.Plain? && f.defaultValue.None? ==> r == Some(PlainSlot(None)))
            && (f.NestedLayer? ==> r == Some(LayerSlot(ops.defaultLayer)))
  {
  }

  // Whole generated struct literals.

  /** The field names of a schema. */
  function Ids(fields: seq<IrField>): set<string>
  {
    set i | 0 <= i < |fields| :: fields[i].id
  }

  /** No two fields of a schema share a name, as in any Rust struct. */
  predicate DistinctIds(fields: seq<IrField>)
  {
    forall i, j :: 0 <= i < j < |fields| ==> fields[i].id != fields[j].id
  }

  /** `rec` is a layer value of the schema: exactly its fields, each holding a value of its
      kind. */
  predicate Conforms<V, L>(fields: seq<IrField>, rec: Record<V, L>)
  {
    && rec.Keys == Ids(fields)
    && forall i :: 0 <= i < |fields| ==> fields[i].id in rec && Fits(fields[i], rec[fields[i].id])
  }

  /** A struct literal whose initialisers all evaluate, under distinct names, evaluates to
      the record mapping each name to its initialiser's value. */
  lemma {:induction false} EvalInitsPointwise<V, L>(inits: seq<FieldInit>, self: Record<V, L>, other: Record<V, L>, ops: LayerOps<L>, evalDefault: string -> V)
    requires forall i, j :: 0 <= i < j < |inits| ==> inits[i].id != inits[j].id
    requires forall i :: 0 <= i < |inits| ==> Eval(inits[i].expr, self, other, ops, evalDefault).Some?
    ensures var r := EvalInits(inits, self, other, ops, evalDefault);
            && r.Some?
            && r.value.Keys == (set i | 0 <= i < |inits| :: inits[i].id)
            && forall i :: 0 <= i < |inits| ==>
                 inits[i].id in r.value && r.value[inits[i].id] == Eval(inits[i].expr, self, other, ops, evalDefault).value
  {
    if |inits| > 0 {
      var rest := inits[1..];
      assert forall i :: 0 <= i < |rest| ==> rest[i] == inits[i + 1];
      EvalInitsPointwise(rest, self, other, ops, evalDefault);
      var slot := Eval(inits[0].expr, self, other, ops, evalDefault).value;
      var tail := EvalInits(rest, self, other, ops, evalDefault).value;
      var r := tail[inits[0].id := slot];
      assert EvalInits(inits, self, other, ops, evalDefault) == Some(r);
      assert r.Keys == (set i | 0 <= i < |inits| :: inits[i].id) by {
        forall k | k in r.Keys ensures k in (set i | 0 <= i < |inits| :: inits[i].id) {
          if k != inits[0].id {
            var i :| 0 <= i < |rest| && rest[i].id == k;
            assert inits[i + 1].id == k;
          }
        }
        forall k | k in (set i | 0 <= i < |inits| :: inits[i].id) ensures k in r.Keys {
          var i :| 0 <= i < |inits| && inits[i].id == k;
          if i > 0 {
            assert rest[i - 1].id == k;
          }
        }
      }
      forall i | 0 <= i < |inits|
        ensures inits[i].id in r && r[inits[i].id] == Eval(inits[i].expr, self, other, ops, evalDefault).value
      {
        if i > 0 {
          assert inits[i] == rest[i - 1];
        }
      }
    }
  }

  /** The generated `new` of a schema evaluates to the layer value holding every field's
      empty value. */
  lemma EmittedNewLayer<V, L>(fields: seq<IrField>, self: Record<V, L>, other: Record<V, L>, ops: LayerOps<L>, evalDefault: string -> V)
    requires DistinctIds(fields)
    ensures var r := EvalInits(CodegenNewFields(fields), self, other, ops, evalDefault);
            && r.Some?
            && Conforms(fields, r.value)
            && forall i :: 0 <= i < |fields| ==> r.value[fields[i].id] == EmptySlot(fields[i], ops)
  {
    var inits := CodegenNewFields(fields);
    forall i | 0 <= i < |inits|
      ensures Eval(inits[i].expr, self, other, ops, evalDefault) == Some(EmptySlot(fields[i], ops))
    {
      EmittedNewIsEmpty(fields[i], self, other, ops, evalDefault);
    }
    EvalInitsPointwise(inits, self, other, ops, evalDefault);
    assert (set i | 0 <= i < |inits| :: inits[i].id) == Ids(fields);
  }

  /** The generated `merge` of a schema, applied to two layer values of it, gives a layer
      value of it in which every plain field follows the override rule and every nested
      field is the nested layers' own merge. */
  lemma EmittedMergeLayer<V, L>(fields: seq<IrField>, self: Record<V, L>, other: Record<V, L>, ops: LayerOps<L>, evalDefault: string -> V)
    requires DistinctIds(fields) && Conforms(fields, self) && Conforms(fields, other)
    ensures var r := EvalInits(CodegenMergeFields(fields), self, other, ops, evalDefault);
            && r.Some?
            && Conforms(fields, r.value)
            && forall i :: 0 <= i < |fields| ==>
                 var id := fields[i].id;
                 && (fields[i].Plain? ==> Overrides(r.value[id].opt, self[id].opt, other[id].opt))
                 && (fields[i].NestedLayer? ==> r.value[id] == LayerSlot(ops.merge(self[id].layer, other[id].layer)))
  {
    var inits := CodegenMergeFields(fields);
    forall i | 0 <= i < |inits|
      ensures Eval(inits[i].expr, self, other, ops, evalDefault) == Eval(CodegenMerge(fields[i]).expr, self, other, ops, evalDefault)
      ensures Eval(inits[i].expr, self, other, ops, evalDefault).Some?
    {
      EmittedMergeSemantics(fields[i], self, other, ops, evalDefault);
    }
    EvalInitsPointwise(inits, self, other, ops, evalDefault);
    assert (set i | 0 <= i < |inits| :: inits[i].id) == Ids(fields);
    forall i | 0 <= i < |fields|
      ensures var id := fields[i].id;
              var v := EvalInits(inits, self, other, ops, evalDefault).value[id];
              && Fits(fields[i], v)
              && (fields[i].Plain? ==> Overrides(v.opt, self[id].opt, other[id].opt))
              && (fields[i].NestedLayer? ==> v == LayerSlot(ops.merge(self[id].layer, other[id].layer)))
    {
      EmittedMergeSemantics(fields[i], self, other, ops, evalDefault);
    }
  }

  /** The identity law of `Layer` for a whole generated struct: when the nested layers'
      `new()` is an identity of their `merge`, the generated `new` merged with any layer
      value of the schema, on either side, gives that value back. */
  lemma EmittedNewIsLayerMergeIdentity<V, L>(fields: seq<IrField>, s: Record<V, L>, ops: LayerOps<L>, evalDefault: string -> V)
    requires DistinctIds(fields) && Conforms(fields, s)
    requires forall x :: ops.merge(ops.empty, x) == x
    requires forall x :: ops.merge(x, ops.empty) == x
    ensures EvalInits(CodegenNewFields(fields), map[], map[], ops, evalDefault).Some?
    ensures var empty := EvalInits(CodegenNewFields(fields), map[], map[], ops, evalDefault).value;
            && EvalInits(CodegenMergeFields(fields), empty, s, ops, evalDefault) == Some(s)
            && EvalInits(CodegenMergeFields(fields), s, empty, ops, evalDefault) == Some(s)
  {
    EmittedNewLayer(fields, map[], map[], ops, evalDefault);
    var empty := EvalInits(CodegenNewFields(fields), map[], map[], ops, evalDefault).value;
    EmittedMergeLayer(fields, empty, s, ops, evalDefault);
    EmittedMergeLayer(fields, s, empty, ops, evalDefault);
    var left := EvalInits(CodegenMergeFields(fields), empty, s, ops, evalDefault).value;
    var right := EvalInits(CodegenMergeFields(fields), s, empty, ops, evalDefault).value;
    forall i | 0 <= i < |fields|
      ensures left[fields[i].id] == s[fields[i].id] && right[fields[i].id] == s[fields[i].id]
    {
      var id := fields[i].id;
      assert empty[id] == EmptySlot(fields[i], ops);
      assert Fits(fields[i], left[id]) && Fits(fields[i], right[id]) && Fits(fields[i], s[id]);
    }
    RecordsAgree(fields, left, s);
    RecordsAgree(fields, right, s);
  }

  /** Two records with the schema's fields as keys that agree on every field are equal. */
  lemma RecordsAgree<V, L>(fields: seq<IrField>, a: Record<V, L>, b: Record<V, L>)
    requires a.Keys == Ids(fields) && b.Keys == Ids(fields)
    requires forall i :: 0 <= i < |fields| ==> fields[i].id in a && fields[i].id in b && a[fields[i].id] == b[fields[i].id]
    ensures a == b
  {
    forall k | k in a.Keys
      ensures a[k] == b[k]
    {
      var i :| 0 <= i < |fields| && fields[i].id == k;
    }
  }

  /** The generated `default` of a schema evaluates to the layer value holding each plain
      field's declared default (or `None`) and each nested layer's own default. */
  lemma EmittedDefaultLayer<V, L>(fields: seq<IrField>, self: Record<V, L>, other: Record<V, L>, ops: LayerOps<L>, evalDefault: string -> V)
    requires DistinctIds(fields)
    ensures var r := EvalInits(CodegenDefaultFields(fields), self, other, ops, evalDefault);
            && r.Some?
            && Conforms(fields, r.value)
            && forall i :: 0 <= i < |fields| ==>
                 var f := fields[i];
                 && (f.Plain? && f.defaultValue.Some? ==> r.value[f.id] == PlainSlot(Some(evalDefault(f.defaultValue.value))))
                 && (f.Plain? && f.defaultValue.None? ==> r.value[f.id] == PlainSlot(None))
                 && (f.NestedLayer? ==> r.value[f.id] == LayerSlot(ops.defaultLayer))
  {
    var inits := CodegenDefaultFields(fields);
    forall i | 0 <= i < |inits|
      ensures Eval(inits[i].expr, self, other, ops, evalDefault) == Eval(CodegenDefault(fields[i]).expr, self, other, ops, evalDefault)
      ensures Eval(inits[i].expr, self, other, ops, evalDefault).Some?
    {
      EmittedDefaultSemantics(fields[i], self, other, ops, evalDefault);
    }
    EvalInitsPointwise(inits, self, other, ops, evalDefault);
    assert (set i | 0 <= i < |inits| :: inits[i].id) == Ids(fields);
    forall i | 0 <= i < |fields|
      ensures Fits(fields[i], EvalInits(inits, self, other, ops, evalDefault).value[fields[i].id])
    {
      EmittedDefaultSemantics(fields[i], self, other, ops, evalDefault);
    }
  }

  // The hand-written `NestedLayer` against the generator.

  /** The plain values `Nested`'s fields hold: text for `foo_env`, a number for
      `bar_env_multiple`. */
  datatype Value = Text(text: string) | Number(number: uint32)

  /** The default expression written on `foo_env`. */
  const FooDefaultExpr: string := "\"I am default foo!\".to_owned()"

  /** The schema of `Nested`, as its commented-out attributes declare it. */
  const NestedSchema: seq<IrField> := [
    Plain("foo_env", "String", Some(FooDefaultExpr), Some(Derive.Single("FOO")), false),
    Plain("bar_env_multiple", "Option<u32>", None, Some(Derive.Multiple(["SPECIFIC_BAR", "BAR"])), true)
  ]

  /** `Nested` has no nested layers: the layer operations are trivial. */
  const NoLayers: LayerOps<()> := LayerOps((), (a: (), b: ()) => (), ())

  /** An optional `String` field value as an optional plain value. */
  function OptText(o: Option<string>): Option<Value>
  {
    match o
    case Some(s) => Some(Text(s))
    case None => None
  }

  /** An optional `u32` field value as an optional plain value. */
  function OptNumber(o: Option<uint32>): Option<Value>
  {
    match o
    case Some(n) => Some(Number(n))
    case None => None
  }

  /** A `NestedLayer` as a record of field values. */
  function AsRecord(layer: NestedLayers.NestedLayer): Record<Value, ()>
  {
    map["foo_env" := PlainSlot(OptText(layer.fooEnv)), "bar_env_multiple" := PlainSlot(OptNumber(layer.barEnvMultiple))]
  }

  /** A two-field struct literal evaluates to the record holding both fields' values. */
  lemma EvalTwoInits<V, L>(x: FieldInit, y: FieldInit, self: Record<V, L>, other: Record<V, L>, ops: LayerOps<L>, evalDefault: string -> V)
    requires Eval(x.expr, self, other, ops, evalDefault).Some? && Eval(y.expr, self, other, ops, evalDefault).Some?
    ensures EvalInits([x, y], self, other, ops, evalDefault)
              == Some(map[y.id := Eval(y.expr, self, other, ops, evalDefault).value][x.id := Eval(x.expr, self, other, ops, evalDefault).value])
  {
    var sx := Eval(x.expr, self, other, ops, evalDefault).value;
    var sy := Eval(y.expr, self, other, ops, evalDefault).value;
    assert [y][1..] == [];
    assert EvalInits([y], self, other, ops, evalDefault) == Some(map[][y.id := sy]);
    assert map[][y.id := sy] == map[y.id := sy];
    assert [x, y][1..] == [y];
    assert EvalInits([x, y], self, other, ops, evalDefault) == Some(map[y.id := sy][x.id := sx]);
  }

  /** The hand-written `new`, `merge` and `default` of `NestedLayer` are exactly what the
      generator emits for `Nested`'s schema. */
  lemma NestedLayerIsGenerated(a: NestedLayers.NestedLayer, b: NestedLayers.NestedLayer, evalDefault: string -> Value)
    requires evalDefault(FooDefaultExpr) == Text(NestedLayers.FooDefault)
    ensures EvalInits(CodegenNewFields(NestedSchema), AsRecord(a), AsRecord(b), NoLayers, evalDefault)
              == Some(AsRecord(NestedLayers.New()))
    ensures EvalInits(CodegenMergeFields(NestedSchema), AsRecord(a), AsRecord(b), NoLayers, evalDefault)
              == Some(AsRecord(NestedLayers.Merge(a, b)))
    ensures EvalInits(CodegenDefaultFields(NestedSchema), AsRecord(a), AsRecord(b), NoLayers, evalDefault)
              == Some(AsRecord(NestedLayers.Default()))
  {
    var self, other := AsRecord(a), AsRecord(b);
    var news := CodegenNewFields(NestedSchema);
    assert news == [FieldInit("foo_env", NoneExpr), FieldInit("bar_env_multiple", NoneExpr)];
    EvalTwoInits(news[0], news[1], self, other, NoLayers, evalDefault);
    assert AsRecord(NestedLayers.New()) == map["bar_env_multiple" := PlainSlot(None)]["foo_env" := PlainSlot(None)];
    var merges := CodegenMergeFields(NestedSchema);
    assert merges == [
      FieldInit("foo_env", OrCall(OtherField("foo_env"), SelfField("foo_env"))),
      FieldInit("bar_env_multiple", OrCall(OtherField("bar_env_multiple"), SelfField("bar_env_multiple")))];
    EvalTwoInits(merges[0], merges[1], self, other, NoLayers, evalDefault);
    var m := NestedLayers.Merge(a, b);
    assert OptText(m.fooEnv) == OptText(b.fooEnv).Or(OptText(a.fooEnv));
    assert OptNumber(m.barEnvMultiple) == OptNumber(b.barEnvMultiple).Or(OptNumber(a.barEnvMultiple));
    assert AsRecord(m) == map["bar_env_multiple" := PlainSlot(OptNumber(m.barEnvMultiple))]["foo_env" := PlainSlot(OptText(m.fooEnv))];
    var defaults := CodegenDefaultFields(NestedSchema);
    assert defaults == [FieldInit("foo_env", SomeExpr(FooDefaultExpr)), FieldInit("bar_env_multiple", NoneExpr)];
    EvalTwoInits(defaults[0], defaults[1], self, other, NoLayers, evalDefault);
    assert AsRecord(NestedLayers.Default())
           == map["bar_env_multiple" := PlainSlot(None)]["foo_env" := PlainSlot(Some(Text(NestedLayers.FooDefault)))];
  }
}

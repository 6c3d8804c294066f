/**
 * formEncodingToSchema (app/browser/api.mjs): after convertToNestedObject
 * every form value is a string; the properties a JSON schema declares are
 * coerced to their declared types. Each declared property is rewritten or
 * deleted on its own, so the order of `Object.keys` does not matter; an
 * undeclared property is never touched.
 *
 * `parseInt` and `parseFloat` are modelled on decimal digit strings and on
 * numbers that already are integers (see Parsable); the object is a value
 * here, where the source rewrites it in place.
 */
module SchemaCoercer {
  import opened Wrappers
  import opened JsonValue
  import opened PathParts
  import opened TreeBuilder

  /** The `type` keyword; `OtherType` stands for every other type and for a missing one. */
  datatype SchemaType = IntegerType | NumberType | StringType | BooleanType | ObjectType | OtherType

  /**
   * The part of a JSON schema the coercer reads: `type`, `format` and
   * `properties`; `hasProperties` is false when `properties` is missing
   * (then `properties` is not read).
   */
  datatype Schema = Schema(ty: SchemaType, format: Option<string>, hasProperties: bool, properties: map<string, Schema>)

  /** The TypeError thrown by `Object.keys(undefined)`, by `.match` on a non-string and by `null.length`. */
  datatype CoerceError = TypeError

  /** The schema of a todo item. */
  const TodoSchema := Schema(ObjectType, None, true, map[
    "key" := Schema(IntegerType, None, false, map[]),
    "completed" := Schema(BooleanType, None, false, map[]),
    "title" := Schema(StringType, None, false, map[])])

  /** The number of matches of `/:/g`. */
  function Colons(s: string): nat {
    if s == [] then 0 else (if s[0] == ':' then 1 else 0) + Colons(s[1..])
  }

  predicate IsTimeFormat(format: Option<string>) {
    format == Some("time") || format == Some("date-time")
  }

  /** A value `parseInt`/`parseFloat` is modelled on: a decimal digit string or an integer. */
  predicate Parsable(v: Value) {
    (v.Str? && v.s != "" && AllDigits(v.s)) || v.Num?
  }

  /** `parseInt(v)` (and `parseFloat(v)`) on a parsable value. */
  function ParseNumber(v: Value): (r: Value)
    requires Parsable(v)
    ensures r.Num?
    ensures v.Num? ==> r == v
    ensures v.Str? ==> r == Num(DecimalValue(v.s))
  {
    if v.Num? then v else Num(DecimalValue(v.s))
  }

  /**
   * The inputs the model covers: a truthy value under an integer or number
   * property is parsable, a truthy value under an object property is a
   * plain object, recursively.
   */
  predicate Coercible(obj: map<string, Value>, schema: Schema)
    decreases schema, 0
  {
    schema.hasProperties ==>
      forall k :: k in schema.properties ==> FieldCoercible(Get(obj, k), schema.properties[k])
  }

  predicate FieldCoercible(v: Option<Value>, sub: Schema)
    decreases sub, 1
  {
    match sub.ty
    case IntegerType => v.Some? && Truthy(v.value) ==> Parsable(v.value)
    case NumberType => v.Some? && Truthy(v.value) ==> Parsable(v.value)
    case ObjectType => v.Some? && Truthy(v.value) ==> v.value.Obj? && Coercible(v.value.fields, sub)
    case _ => true
  }

  /**
   * The body of the `forEach` for one declared property: the property's new
   * value (`None` when it is deleted or stays absent), or the error thrown.
   */
  function CoerceField(v: Option<Value>, sub: Schema): Result<Option<Value>, CoerceError>
    requires FieldCoercible(v, sub)
    decreases sub, 2
  {
    match sub.ty
    case IntegerType => Ok(if v.Some? && Truthy(v.value) then Some(ParseNumber(v.value)) else None)
    case NumberType => Ok(if v.Some? && Truthy(v.value) then Some(ParseNumber(v.value)) else None)
    case StringType =>
      if !IsTimeFormat(sub.format) then Ok(v)
      else if v.None? || !v.value.Str? then Err(TypeError)
      else if Colons(v.value.s) == 0 then Err(TypeError)
      else if Colons(v.value.s) == 1 then Ok(Some(Str(v.value.s + ":00")))
      else Ok(v)
    case BooleanType => Ok(Some(Bool(v == Some(Str("on")) || v == Some(Bool(true)))))
    case ObjectType =>
      if v.Some? && Truthy(v.value) then
        var inner :- Coerce(v.value.fields, sub);
        Ok(Some(Obj(inner)))
      else Ok(v)
    case OtherType => Ok(v)
  }

  /** `obj` with the declared properties in `done` coerced and the rest as they were. */
  function Overlay(obj: map<string, Value>, schema: Schema, done: set<string>): map<string, Value>
    requires schema.hasProperties && done <= schema.properties.Keys
    requires Coercible(obj, schema)
    requires forall k :: k in done ==> CoerceField(Get(obj, k), schema.properties[k]).Ok?
    decreases schema, 0
  {
    var props := schema.properties;
    map k | k in obj.Keys + done && (k in done ==> CoerceField(Get(obj, k), props[k]).value.Some?)
      :: if k in done then CoerceField(Get(obj, k), props[k]).value.value else obj[k]
  }

  /** formEncodingToSchema(obj, schema) as a function: the coerced object or the error. */
  function Coerce(obj: map<string, Value>, schema: Schema): Result<map<string, Value>, CoerceError>
    requires Coercible(obj, schema)
    decreases schema, 1
  {
    if !schema.hasProperties then Err(TypeError)
    else
      var props := schema.properties;
      if exists k :: k in props && CoerceField(Get(obj, k), props[k]).Err? then Err(TypeError)
      else Ok(Overlay(obj, schema, props.Keys))
  }

  /** Coercing one more property adds its new value to the overlay, or removes the property. */
  lemma OverlayStep(obj: map<string, Value>, schema: Schema, done: set<string>, prop: string)
    requires schema.hasProperties && done <= schema.properties.Keys && Coercible(obj, schema)
    requires forall k :: k in done ==> CoerceField(Get(obj, k), schema.properties[k]).Ok?
    requires prop in schema.properties && prop !in done
    requires CoerceField(Get(obj, prop), schema.properties[prop]).Ok?
    ensures var nv := CoerceField(Get(obj, prop), schema.properties[prop]).value;
      Overlay(obj, schema, done + {prop})
        == if nv.Some? then Overlay(obj, schema, done)[prop := nv.value] else Overlay(obj, schema, done) - {prop}
  {
  }

  /**
   * formEncodingToSchema: the loop over the declared properties, rewriting
   * or deleting one property per step; an object property is coerced by the
   * recursive call.
   */
  method FormEncodingToSchema(obj: map<string, Value>, schema: Schema) returns (r: Result<map<string, Value>, CoerceError>)
    requires Coercible(obj, schema)
    ensures r == Coerce(obj, schema)
    decreases schema
  {
    if !schema.hasProperties {
      return Err(TypeError);
    }
    var props := schema.properties;
    var cur := obj;
    var todo := props.Keys;
    ghost var done: set<string> := {};
    while todo != {}
      invariant todo + done == props.Keys && todo !! done
      invariant forall k :: k in done ==> CoerceField(Get(obj, k), props[k]).Ok?
      invariant cur == Overlay(obj, schema, done)
      decreases todo
    {
      var prop :| prop in todo;
      var sub := props[prop];
      var v := Get(cur, prop);
      assert v == Get(obj, prop);
      // the property's new value; None deletes it
      var nv := v;
      match sub.ty {
        case IntegerType =>
          nv := if v.Some? && Truthy(v.value) then Some(ParseNumber(v.value)) else None;
        case NumberType =>
          nv := if v.Some? && Truthy(v.value) then Some(ParseNumber(v.value)) else None;
        case StringType =>
          if IsTimeFormat(sub.format) {
            if v.None? || !v.value.Str? || Colons(v.value.s) == 0 {
              return Err(TypeError);
            }
            if Colons(v.value.s) == 1 {
              nv := Some(Str(v.value.s + ":00"));
            }
          }
        case BooleanType =>
          nv := Some(Bool(v == Some(Str("on")) || v == Some(Bool(true))));
        case ObjectType =>
          if v.Some? && Truthy(v.value) {
            var temp := FormEncodingToSchema(v.value.fields, sub);
            if temp.Err? {
              return Err(temp.error);
            }
            nv := Some(Obj(temp.value));
          }
        case OtherType =>
      }
      assert CoerceField(v, sub) == Ok(nv);
      OverlayStep(obj, schema, done, prop);
      cur := if nv.Some? then cur[prop := nv.value] else cur - {prop};
      todo := todo - {prop};
      done := done + {prop};
    }
    assert done == props.Keys;
    return Ok(cur);
  }
}

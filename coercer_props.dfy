/**
 * What formEncodingToSchema does to each property, and how coercing twice
 * with the todo schema behaves.
 */
module CoercerProps {
  import opened Wrappers
  import opened JsonValue
  import opened TreeBuilder
  import opened SchemaCoercer

  /**
   * The coerced object, property by property: a declared property takes the
   * value its own coercion gives (absent when deleted), every other
   * property keeps its value.
   */
  lemma CoercePointwise(obj: map<string, Value>, schema: Schema, k: string)
    requires Coercible(obj, schema) && Coerce(obj, schema).Ok?
    ensures schema.hasProperties
    ensures k in schema.properties ==> CoerceField(Get(obj, k), schema.properties[k]).Ok?
    ensures Get(Coerce(obj, schema).value, k)
         == if k in schema.properties then CoerceField(Get(obj, k), schema.properties[k]).value else Get(obj, k)
  {
    if k in schema.properties {
      assert CoerceField(Get(obj, k), schema.properties[k]).Ok?;
    }
  }

  /** A property the schema does not declare is never touched. */
  lemma UndeclaredUnchanged(obj: map<string, Value>, schema: Schema, k: string)
    requires Coercible(obj, schema) && Coerce(obj, schema).Ok?
    requires k !in schema.properties
    ensures Get(Coerce(obj, schema).value, k) == Get(obj, k)
  {
    CoercePointwise(obj, schema, k);
  }

  /** `integer` and `number`: a truthy value is replaced by its parse, a falsy or absent one is deleted. */
  lemma NumericField(obj: map<string, Value>, schema: Schema, k: string)
    requires Coercible(obj, schema) && Coerce(obj, schema).Ok?
    requires k in schema.properties && schema.properties[k].ty in {IntegerType, NumberType}
    ensures var r := Coerce(obj, schema).value;
      && (k in r <==> k in obj && Truthy(obj[k]))
      && (k in r ==> Parsable(obj[k]) && r[k] == ParseNumber(obj[k]) && r[k].Num?)
  {
    CoercePointwise(obj, schema, k);
  }

  /** `boolean`: always set, to true exactly for `'on'` and `true`, absent values included. */
  lemma BooleanField(obj: map<string, Value>, schema: Schema, k: string)
    requires Coercible(obj, schema) && Coerce(obj, schema).Ok?
    requires k in schema.properties && schema.properties[k].ty == BooleanType
    ensures var r := Coerce(obj, schema).value;
      k in r && r[k] == Bool(k in obj && (obj[k] == Str("on") || obj[k] == Bool(true)))
  {
    CoercePointwise(obj, schema, k);
  }

  lemma {:induction false} ColonsAppend(s: string, t: string)
    ensures Colons(s + t) == Colons(s) + Colons(t)
    decreases |s|
  {
    if s == [] {
      assert s + t == t;
    } else {
      assert (s + t)[0] == s[0];
      assert (s + t)[1..] == s[1..] + t;
      ColonsAppend(s[1..], t);
    }
  }

  /**
   * `time`/`date-time` strings: after a successful coercion the value was a
   * string with a colon; with exactly one it gets `:00`, with more it is
   * kept, so the result always has at least two colons.
   */
  lemma TimeField(obj: map<string, Value>, schema: Schema, k: string)
    requires Coercible(obj, schema) && Coerce(obj, schema).Ok?
    requires k in schema.properties && schema.properties[k].ty == StringType && IsTimeFormat(schema.properties[k].format)
    ensures var r := Coerce(obj, schema).value;
      && k in obj && obj[k].Str? && Colons(obj[k].s) >= 1
      && k in r && r[k] == Str(if Colons(obj[k].s) == 1 then obj[k].s + ":00" else obj[k].s)
      && Colons(r[k].s) >= 2
  {
    CoercePointwise(obj, schema, k);
    ColonsAppend(obj[k].s, ":00");
    assert Colons(":00") == 1 by {
      assert ":00"[1..] == "00";
      assert "00"[1..] == "0";
      assert "0"[1..] == "";
    }
  }

  /** A missing value, a value that is not a string, or one without a colon, under a time format, throws. */
  lemma TimeFieldThrows(obj: map<string, Value>, schema: Schema, k: string)
    requires Coercible(obj, schema) && schema.hasProperties
    requires k in schema.properties && schema.properties[k].ty == StringType && IsTimeFormat(schema.properties[k].format)
    requires k !in obj || !obj[k].Str? || Colons(obj[k].s) == 0
    ensures Coerce(obj, schema) == Err(TypeError)
  {
    assert CoerceField(Get(obj, k), schema.properties[k]).Err?;
  }

  /** A string without a time format is never inspected: whatever it holds stays. */
  lemma PlainStringUntouched(obj: map<string, Value>, schema: Schema, k: string)
    requires Coercible(obj, schema) && Coerce(obj, schema).Ok?
    requires k in schema.properties && schema.properties[k].ty == StringType && !IsTimeFormat(schema.properties[k].format)
    ensures Get(Coerce(obj, schema).value, k) == Get(obj, k)
  {
    CoercePointwise(obj, schema, k);
  }

  /** `object`: a truthy value is coerced with the nested schema; a falsy one stays. */
  lemma ObjectField(obj: map<string, Value>, schema: Schema, k: string)
    requires Coercible(obj, schema) && Coerce(obj, schema).Ok?
    requires k in schema.properties && schema.properties[k].ty == ObjectType
    ensures var r := Coerce(obj, schema).value;
      if k in obj && Truthy(obj[k]) then
        obj[k].Obj? && Coercible(obj[k].fields, schema.properties[k])
        && Coerce(obj[k].fields, schema.properties[k]).Ok?
        && Get(r, k) == Some(Obj(Coerce(obj[k].fields, schema.properties[k]).value))
      else Get(r, k) == Get(obj, k)
  {
    CoercePointwise(obj, schema, k);
  }

  /** An error inside a nested object is the error of the whole object. */
  lemma NestedErrorPropagates(obj: map<string, Value>, schema: Schema, k: string)
    requires Coercible(obj, schema) && schema.hasProperties
    requires k in schema.properties && schema.properties[k].ty == ObjectType
    requires k in obj && obj[k].Obj? && Coercible(obj[k].fields, schema.properties[k])
    requires Coerce(obj[k].fields, schema.properties[k]).Err?
    ensures Coerce(obj, schema) == Err(TypeError)
  {
    assert CoerceField(Get(obj, k), schema.properties[k]).Err?;
  }

  // ---------------------------------------------------------------------
  // Coercing twice with the todo schema.
  // ---------------------------------------------------------------------

  /** Two objects with the same properties are equal. */
  lemma SameProperties(a: map<string, Value>, b: map<string, Value>)
    requires forall k :: Get(a, k) == Get(b, k)
    ensures a == b
  {
    assert forall k :: k in a <==> k in b by {
      forall k ensures k in a <==> k in b {
        assert Get(a, k) == Get(b, k);
      }
    }
    forall k | k in a ensures a[k] == b[k] {
      assert Get(a, k) == Get(b, k);
    }
  }

  /**
   * A schema shaped like the todo schema: the properties `key` (integer),
   * `completed` (boolean) and `title` (string without a format), nothing else.
   */
  predicate TodoShaped(s: Schema) {
    && s.hasProperties
    && s.properties.Keys == {"key", "completed", "title"}
    && s.properties["key"].ty == IntegerType
    && s.properties["completed"].ty == BooleanType
    && s.properties["title"].ty == StringType && s.properties["title"].format == None
  }

  lemma TodoSchemaShaped()
    ensures TodoShaped(TodoSchema)
  {
  }

  /** The todo schema never throws: it has properties, and no time format or object property. */
  lemma TodoNeverThrows(obj: map<string, Value>, s: Schema)
    requires TodoShaped(s) && Coercible(obj, s)
    ensures Coerce(obj, s).Ok?
  {
    forall k | k in s.properties ensures CoerceField(Get(obj, k), s.properties[k]).Ok? {
      assert k == "key" || k == "completed" || k == "title";
    }
  }

  /**
   * The todo schema property by property: `key` is parsed or deleted,
   * `completed` becomes a boolean, `title` and every other property stays.
   */
  lemma TodoFields(obj: map<string, Value>, s: Schema, k: string)
    requires TodoShaped(s) && Coercible(obj, s)
    ensures Coerce(obj, s).Ok?
    ensures k == "key" && k in obj && Truthy(obj[k]) ==> Parsable(obj[k])
    ensures Get(Coerce(obj, s).value, k)
         == if k == "key" then (if k in obj && Truthy(obj[k]) then Some(ParseNumber(obj[k])) else None)
            else if k == "completed" then Some(Bool(k in obj && (obj[k] == Str("on") || obj[k] == Bool(true))))
            else Get(obj, k)
  {
    TodoNeverThrows(obj, s);
    CoercePointwise(obj, s, k);
    if k == "key" {
      assert FieldCoercible(Get(obj, k), s.properties[k]);
    }
  }

  /** Which objects the todo schema accepts: a truthy key must parse. */
  lemma TodoCoercible(obj: map<string, Value>, s: Schema)
    requires TodoShaped(s)
    ensures Coercible(obj, s) <==> ("key" in obj && Truthy(obj["key"]) ==> Parsable(obj["key"]))
  {
    if "key" in obj && Truthy(obj["key"]) ==> Parsable(obj["key"]) {
      forall k | k in s.properties ensures FieldCoercible(Get(obj, k), s.properties[k]) {
        assert k == "key" || k == "completed" || k == "title";
      }
    } else {
      assert !FieldCoercible(Get(obj, "key"), s.properties["key"]);
    }
  }

  /**
   * With the todo schema, coercing a coerced object again gives the same
   * object exactly when its key did not parse to 0: the second pass finds
   * the falsy key 0 and deletes it.
   */
  lemma TodoIdempotent(obj: map<string, Value>, s: Schema)
    requires TodoShaped(s) && Coercible(obj, s)
    ensures Coerce(obj, s).Ok?
    ensures Coercible(Coerce(obj, s).value, s)
    ensures var r := Coerce(obj, s).value;
      Coerce(r, s) == Ok(r) <==> Get(r, "key") != Some(Num(0))
  {
    TodoNeverThrows(obj, s);
    var r := Coerce(obj, s).value;
    TodoFields(obj, s, "key");
    TodoCoercible(r, s);
    TodoFields(r, s, "key");
    if Get(r, "key") != Some(Num(0)) {
      forall k ensures Get(Coerce(r, s).value, k) == Get(r, k) {
        TodoFields(obj, s, k);
        TodoFields(r, s, k);
      }
      SameProperties(Coerce(r, s).value, r);
    }
  }

  /** `key = "0"` is coerced to the key 0, and a second pass does not give the same object back. */
  lemma TodoZeroKeyNotIdempotent()
    ensures Coercible(map["key" := Str("0")], TodoSchema)
    ensures Coerce(map["key" := Str("0")], TodoSchema) == Ok(map["key" := Num(0), "completed" := Bool(false)])
    ensures var once := map["key" := Num(0), "completed" := Bool(false)];
      Coercible(once, TodoSchema) && Coerce(once, TodoSchema) != Ok(once)
  {
    var s := TodoSchema;
    TodoSchemaShaped();
    var obj := map["key" := Str("0")];
    var once := map["key" := Num(0), "completed" := Bool(false)];
    assert Parsable(Str("0")) && DecimalValue("0") == 0 by {
      assert "0"[..0] == "";
    }
    TodoCoercible(obj, s);
    forall k ensures Get(Coerce(obj, s).value, k) == Get(once, k) {
      TodoFields(obj, s, k);
    }
    SameProperties(Coerce(obj, s).value, once);
    TodoIdempotent(obj, s);
  }
}

/**
 * convertToNestedObject on the paths forms send: `name`, `name[]`,
 * `name[digits]` and `name.field`. Appends keep their order, indices give
 * the order of the squashed array and not the position, appends and indices
 * never mix in one array, and a scalar is never descended into.
 */
module TreeExamples {
  import opened Wrappers
  import opened JsonValue
  import opened PathParts
  import opened PathEncoding
  import opened TreeBuilder
  import opened TreeProps

  /** A key a form can use on its own: non-empty, no `.` or `[`, not of the form `digits]`. */
  predicate PlainName(name: string) {
    ValidSegment(Field(name))
  }

  predicate DigitString(digits: string) {
    ValidSegment(PathEncoding.Index(digits))
  }

  // ---------------------------------------------------------------------
  // The segments of the common paths.
  // ---------------------------------------------------------------------

  /** `name` is one object key, written last. */
  lemma PartsOfName(name: string)
    requires PlainName(name)
    ensures PathPartsOf(name) == [PathPart(name, ObjectKey, EmptyObject, name)]
  {
    var segs := [Field(name)];
    ExtractEncode(segs);
    assert segs[..1] == segs;
  }

  /** `name[]`: the key `name` holding an array, then an append. */
  lemma PartsOfAppend(name: string)
    requires PlainName(name)
    ensures PathPartsOf(name + "[]")
         == [PathPart(name, ObjectKey, EmptyArray, name), PathPart("", ArrayIndex, EmptyObject, name + "[]")]
  {
    var segs := [Field(name), Append];
    assert segs[1..] == [Append];
    ChunksCons(segs);
    assert Chunks([Append]) == Body(Append) by { assert [Append][1..] == []; }
    assert Encode(segs) == name + "[]";
    assert segs[..1] == [Field(name)];
    assert segs[..2] == segs;
    ExtractEncode(segs);
  }

  /** `name[digits]`: the key `name` holding an array, then the index `digits`. */
  lemma PartsOfIndex(name: string, digits: string)
    requires PlainName(name) && DigitString(digits)
    ensures PathPartsOf(name + "[" + digits + "]")
         == [PathPart(name, ObjectKey, EmptyArray, name), PathPart(digits, ArrayIndex, EmptyObject, name + "[" + digits + "]")]
  {
    var segs := [Field(name), PathEncoding.Index(digits)];
    assert segs[1..] == [PathEncoding.Index(digits)];
    ChunksCons(segs);
    assert Chunks([PathEncoding.Index(digits)]) == Body(PathEncoding.Index(digits)) by { assert [PathEncoding.Index(digits)][1..] == []; }
    assert Encode(segs) == name + "[" + digits + "]";
    assert segs[..1] == [Field(name)];
    assert segs[..2] == segs;
    ExtractEncode(segs);
  }

  /** `name.field`: the key `name` holding an object, then the key `field`. */
  lemma PartsOfField(name: string, field: string)
    requires PlainName(name) && PlainName(field)
    ensures PathPartsOf(name + "." + field)
         == [PathPart(name, ObjectKey, EmptyObject, name), PathPart(field, ObjectKey, EmptyObject, name + "." + field)]
  {
    var segs := [Field(name), Field(field)];
    assert segs[1..] == [Field(field)];
    ChunksCons(segs);
    assert Chunks([Field(field)]) == Body(Field(field)) by { assert [Field(field)][1..] == []; }
    assert Encode(segs) == name + "." + field;
    assert segs[..1] == [Field(name)];
    assert segs[..2] == segs;
    ExtractEncode(segs);
  }

  // ---------------------------------------------------------------------
  // Place on paths of one and two segments.
  // ---------------------------------------------------------------------

  /** A top-level key followed by one more segment. */
  lemma PlaceUnderKey(m: map<string, Value>, o: set<Loc>, p0: PathPart, p1: PathPart, v: Value)
    requires p0.kind == ObjectKey && (p1.kind == ArrayIndex ==> AllDigits(p1.key))
    ensures var child := if p0.key in m then m[p0.key] else EmptyContainer(p0.default);
      Place(Obj(m), [], [p0, p1], v, o)
        == if p0.key in m && !IsContainer(m[p0.key]) then Err(DuplicateKey(p0.pathToPart))
           else match Place(child, [Key(p0.key)], [p1], v, o)
             case Err(e) => Err(e)
             case Ok(r) => Ok((Obj(m[p0.key := r.0]), r.1))
  {
    assert [p0, p1][1..] == [p1];
    assert [] + [Key(p0.key)] == [Key(p0.key)];
  }

  // ---------------------------------------------------------------------
  // One entry on a top-level key.
  // ---------------------------------------------------------------------

  /** The elements already under `name`, or none when the key is unset. */
  function Existing(m: map<string, Value>, name: string): seq<Option<Value>>
    requires name in m ==> m[name].Arr?
  {
    if name in m then m[name].slots else []
  }

  /** `name = v`: sets an unset key, and a key that is set already throws DuplicateKeyError. */
  lemma NameEntry(m: map<string, Value>, o: set<Loc>, name: string, v: Value)
    requires PlainName(name)
    ensures Apply(State(Obj(m), o), Entry(name, v))
         == if name in m then Err(DuplicateKey(name)) else Ok(State(Obj(m[name := v]), o))
  {
    PartsOfName(name);
  }

  /**
   * `name[] = v` on an array without indexed writes (or an unset key)
   * appends v at the end; the set of ordered arrays is unchanged.
   */
  lemma AppendEntry(m: map<string, Value>, o: set<Loc>, name: string, v: Value)
    requires PlainName(name)
    requires name in m ==> m[name].Arr?
    requires [Key(name)] !in o
    ensures Apply(State(Obj(m), o), Entry(name + "[]", v))
         == Ok(State(Obj(m[name := Arr(Existing(m, name) + [Some(v)])]), o))
  {
    PartsOfAppend(name);
    PlaceUnderKey(m, o, PathPart(name, ObjectKey, EmptyArray, name), PathPart("", ArrayIndex, EmptyObject, name + "[]"), v);
    var xs := Existing(m, name);
    assert SetSlot(xs, |xs|, v) == xs + [Some(v)] by {
      assert Holes(0) == [];
    }
  }

  /** `name[] = v` on an array that has had an indexed write throws MixedArrayError. */
  lemma AppendIntoOrdered(m: map<string, Value>, o: set<Loc>, name: string, v: Value)
    requires PlainName(name)
    requires name in m && m[name].Arr?
    requires [Key(name)] in o
    ensures Apply(State(Obj(m), o), Entry(name + "[]", v)) == Err(MixedArray(name + "[]"))
  {
    PartsOfAppend(name);
    PlaceUnderKey(m, o, PathPart(name, ObjectKey, EmptyArray, name), PathPart("", ArrayIndex, EmptyObject, name + "[]"), v);
  }

  /**
   * `name[digits] = v` on an ordered array, an empty array or an unset key,
   * where that index is still a hole: the value is stored at index
   * Number(digits) and the array becomes ordered.
   */
  lemma IndexEntry(m: map<string, Value>, o: set<Loc>, name: string, digits: string, v: Value)
    requires PlainName(name) && DigitString(digits)
    requires name in m ==> m[name].Arr? && ([Key(name)] in o || m[name].slots == [])
    requires SlotAt(Existing(m, name), DecimalValue(digits)) == None
    ensures Apply(State(Obj(m), o), Entry(name + "[" + digits + "]", v))
         == Ok(State(Obj(m[name := Arr(SetSlot(Existing(m, name), DecimalValue(digits), v))]), o + {[Key(name)]}))
  {
    PartsOfIndex(name, digits);
    PlaceUnderKey(m, o, PathPart(name, ObjectKey, EmptyArray, name), PathPart(digits, ArrayIndex, EmptyObject, name + "[" + digits + "]"), v);
  }

  /** `name[digits] = v` where that index already holds a value throws DuplicateKeyError. */
  lemma IndexTaken(m: map<string, Value>, o: set<Loc>, name: string, digits: string, v: Value)
    requires PlainName(name) && DigitString(digits)
    requires name in m && m[name].Arr? && [Key(name)] in o
    requires SlotAt(m[name].slots, DecimalValue(digits)).Some?
    ensures Apply(State(Obj(m), o), Entry(name + "[" + digits + "]", v)) == Err(DuplicateKey(name + "[" + digits + "]"))
  {
    PartsOfIndex(name, digits);
    PlaceUnderKey(m, o, PathPart(name, ObjectKey, EmptyArray, name), PathPart(digits, ArrayIndex, EmptyObject, name + "[" + digits + "]"), v);
  }

  /** `name[digits] = v` on a non-empty array filled by appends throws MixedArrayError. */
  lemma IndexIntoAppended(m: map<string, Value>, o: set<Loc>, name: string, digits: string, v: Value)
    requires PlainName(name) && DigitString(digits)
    requires name in m && m[name].Arr? && m[name].slots != []
    requires [Key(name)] !in o
    ensures Apply(State(Obj(m), o), Entry(name + "[" + digits + "]", v)) == Err(MixedArray(name + "[" + digits + "]"))
  {
    PartsOfIndex(name, digits);
    PlaceUnderKey(m, o, PathPart(name, ObjectKey, EmptyArray, name), PathPart(digits, ArrayIndex, EmptyObject, name + "[" + digits + "]"), v);
  }

  /** `name.field = v` where `name` holds an array: an object key on an array is a duplicate key. */
  lemma FieldOnArray(m: map<string, Value>, o: set<Loc>, name: string, field: string, v: Value)
    requires PlainName(name) && PlainName(field)
    requires name in m && m[name].Arr?
    ensures Apply(State(Obj(m), o), Entry(name + "." + field, v)) == Err(DuplicateKey(name + "." + field))
  {
    PartsOfField(name, field);
    PlaceUnderKey(m, o, PathPart(name, ObjectKey, EmptyObject, name), PathPart(field, ObjectKey, EmptyObject, name + "." + field), v);
  }

  /** `name.field = v` where `name` holds a scalar: nothing is written below a value. */
  lemma FieldBelowScalar(m: map<string, Value>, o: set<Loc>, name: string, field: string, v: Value)
    requires PlainName(name) && PlainName(field)
    requires name in m && !IsContainer(m[name])
    ensures Apply(State(Obj(m), o), Entry(name + "." + field, v)) == Err(DuplicateKey(name))
  {
    PartsOfField(name, field);
    PlaceUnderKey(m, o, PathPart(name, ObjectKey, EmptyObject, name), PathPart(field, ObjectKey, EmptyObject, name + "." + field), v);
  }

  // ---------------------------------------------------------------------
  // Whole inputs.
  // ---------------------------------------------------------------------

  /** With `removeEmptyString`, an entry whose value is `''` is skipped. */
  lemma EmptyStringSkipped(st: State, e: Entry, rest: seq<Entry>, isIterable: bool, opts: Options)
    requires st.result.Obj? && opts.removeEmptyString && e.value == Str("")
    ensures Fold(st, [e] + rest, isIterable, opts) == Fold(st, rest, isIterable, opts)
  {
    assert ([e] + rest)[1..] == rest;
  }

  /** The preprocessing leaves the entry as it is. */
  predicate Kept(e: Entry, isIterable: bool, opts: Options) {
    Prepare(e, isIterable, opts) == Some(e)
  }

  function Somes(vals: seq<Value>): (r: seq<Option<Value>>)
    ensures |r| == |vals| && forall i :: 0 <= i < |vals| ==> r[i] == Some(vals[i])
  {
    if vals == [] then [] else [Some(vals[0])] + Somes(vals[1..])
  }

  /** The entries `name[] = vals[0]`, `name[] = vals[1]`, ... */
  function Appends(name: string, vals: seq<Value>): (r: seq<Entry>)
    ensures |r| == |vals| && forall i :: 0 <= i < |vals| ==> r[i] == Entry(name + "[]", vals[i])
  {
    if vals == [] then [] else [Entry(name + "[]", vals[0])] + Appends(name, vals[1..])
  }

  /** The first entry of a fold, when the preprocessing keeps it. */
  lemma FoldCons(st: State, es: seq<Entry>, isIterable: bool, opts: Options)
    requires st.result.Obj? && es != [] && Kept(es[0], isIterable, opts)
    ensures Fold(st, es, isIterable, opts)
         == if Apply(st, es[0]).Err? then Err(Apply(st, es[0]).error)
            else Fold(Apply(st, es[0]).value, es[1..], isIterable, opts)
  {
  }

  lemma {:induction false} FoldAppends(m: map<string, Value>, o: set<Loc>, name: string, vals: seq<Value>, isIterable: bool, opts: Options)
    requires PlainName(name)
    requires name in m ==> m[name].Arr?
    requires [Key(name)] !in o
    requires forall i :: 0 <= i < |vals| ==> Kept(Entry(name + "[]", vals[i]), isIterable, opts)
    ensures Fold(State(Obj(m), o), Appends(name, vals), isIterable, opts) == Ok(State(Obj(Extended(m, name, vals)), o))
    decreases |vals|
  {
    if vals != [] {
      var es := Appends(name, vals);
      assert es[1..] == Appends(name, vals[1..]);
      FoldCons(State(Obj(m), o), es, isIterable, opts);
      AppendEntry(m, o, name, vals[0]);
      var xs := Existing(m, name) + [Some(vals[0])];
      var m1 := m[name := Arr(xs)];
      assert forall i :: 0 <= i < |vals[1..]| ==> Kept(Entry(name + "[]", vals[1..][i]), isIterable, opts) by {
        forall i | 0 <= i < |vals[1..]| ensures Kept(Entry(name + "[]", vals[1..][i]), isIterable, opts) {
          assert vals[1..][i] == vals[i + 1];
        }
      }
      FoldAppends(m1, o, name, vals[1..], isIterable, opts);
      AppendsJoin(m, name, vals);
    }
  }

  /** The key `name` after appending `vals` to it (unchanged when there is nothing to append). */
  function Extended(m: map<string, Value>, name: string, vals: seq<Value>): map<string, Value>
    requires name in m ==> m[name].Arr?
  {
    if vals == [] then m else m[name := Arr(Existing(m, name) + Somes(vals))]
  }

  /** Appending the first value, then the rest, is appending all of them. */
  lemma AppendsJoin(m: map<string, Value>, name: string, vals: seq<Value>)
    requires vals != [] && (name in m ==> m[name].Arr?)
    ensures Extended(m[name := Arr(Existing(m, name) + [Some(vals[0])])], name, vals[1..]) == Extended(m, name, vals)
  {
    var xs := Existing(m, name) + [Some(vals[0])];
    var whole := Existing(m, name) + Somes(vals);
    assert xs + Somes(vals[1..]) == whole by {
      assert Somes(vals) == [Some(vals[0])] + Somes(vals[1..]);
      SeqAssoc(Existing(m, name), [Some(vals[0])], Somes(vals[1..]));
    }
    if vals[1..] == [] {
      assert xs == whole by {
        assert Somes(vals[1..]) == [];
      }
    } else {
      MapOverride(m, name, Arr(xs), Arr(whole));
    }
  }

  lemma MapOverride<K, V>(m: map<K, V>, k: K, a: V, b: V)
    ensures m[k := a][k := b] == m[k := b]
  {
  }

  lemma SeqAssoc<T>(a: seq<T>, b: seq<T>, c: seq<T>)
    ensures (a + b) + c == a + (b + c)
  {
  }

  /**
   * Repeated `name[]` entries build one array holding the values in input
   * order, with nothing squashed away.
   */
  lemma AppendsKeepOrder(name: string, vals: seq<Value>, isIterable: bool, opts: Options)
    requires PlainName(name) && vals != []
    requires forall i :: 0 <= i < |vals| ==> Kept(Entry(name + "[]", vals[i]), isIterable, opts)
    ensures Build(Appends(name, vals), isIterable, opts) == Ok(Obj(map[name := Arr(Somes(vals))]))
  {
    var empty: map<string, Value> := map[];
    FoldAppends(empty, {}, name, vals, isIterable, opts);
    assert Existing(empty, name) + Somes(vals) == Somes(vals) by {
      assert Existing(empty, name) == [];
    }
    SquashUnordered(Obj(map[name := Arr(Somes(vals))]));
  }

  /** Fold over two entries. */
  lemma FoldPair(st: State, e1: Entry, e2: Entry, isIterable: bool, opts: Options)
    requires st.result.Obj? && Kept(e1, isIterable, opts) && Kept(e2, isIterable, opts)
    ensures Fold(st, [e1, e2], isIterable, opts)
         == if Apply(st, e1).Err? then Err(Apply(st, e1).error)
            else Apply(Apply(st, e1).value, e2)
  {
    FoldCons(st, [e1, e2], isIterable, opts);
    assert [e1, e2][1..] == [e2];
    if Apply(st, e1).Ok? {
      FoldCons(Apply(st, e1).value, [e2], isIterable, opts);
      assert [e2][1..] == [];
    }
  }

  /** An index then an append under one key: the append throws MixedArrayError. */
  lemma IndexThenAppend(name: string, digits: string, v: Value, w: Value, isIterable: bool, opts: Options)
    requires PlainName(name) && DigitString(digits)
    requires Kept(Entry(name + "[" + digits + "]", v), isIterable, opts) && Kept(Entry(name + "[]", w), isIterable, opts)
    ensures Build([Entry(name + "[" + digits + "]", v), Entry(name + "[]", w)], isIterable, opts) == Err(MixedArray(name + "[]"))
  {
    FoldPair(Init, Entry(name + "[" + digits + "]", v), Entry(name + "[]", w), isIterable, opts);
    var empty: map<string, Value> := map[];
    IndexEntry(empty, {}, name, digits, v);
    var m1 := map[name := Arr(SetSlot([], DecimalValue(digits), v))];
    assert empty[name := Arr(SetSlot(Existing(empty, name), DecimalValue(digits), v))] == m1;
    assert {} + {[Key(name)]} == {[Key(name)]};
    AppendIntoOrdered(m1, {[Key(name)]}, name, w);
  }

  /** An append then an index under one key: the index throws MixedArrayError. */
  lemma AppendThenIndex(name: string, digits: string, v: Value, w: Value, isIterable: bool, opts: Options)
    requires PlainName(name) && DigitString(digits)
    requires Kept(Entry(name + "[" + digits + "]", v), isIterable, opts) && Kept(Entry(name + "[]", w), isIterable, opts)
    ensures Build([Entry(name + "[]", w), Entry(name + "[" + digits + "]", v)], isIterable, opts)
         == Err(MixedArray(name + "[" + digits + "]"))
  {
    FoldPair(Init, Entry(name + "[]", w), Entry(name + "[" + digits + "]", v), isIterable, opts);
    var empty: map<string, Value> := map[];
    AppendEntry(empty, {}, name, w);
    var m1 := map[name := Arr([Some(w)])];
    assert Existing(empty, name) + [Some(w)] == [Some(w)];
    assert empty[name := Arr([Some(w)])] == m1;
    IndexIntoAppended(m1, {}, name, digits, v);
  }

  // ---------------------------------------------------------------------
  // Indexed entries: the indices give the order of the squashed array.
  // ---------------------------------------------------------------------

  lemma {:induction false} FlatHoles(k: nat)
    ensures Flat(Holes(k)) == []
    decreases k
  {
    if k > 0 {
      assert Holes(k)[1..] == Holes(k - 1);
      FlatHoles(k - 1);
    }
  }

  /** Two values at distinct indices of a fresh array, squashed: the lower index comes first. */
  lemma FlatTwoSlots(n1: nat, n2: nat, v1: Value, v2: Value)
    requires n1 != n2
    ensures SlotAt(SetSlot([], n1, v1), n2) == None
    ensures Flat(SetSlot(SetSlot([], n1, v1), n2, v2)) == if n1 < n2 then [Some(v1), Some(v2)] else [Some(v2), Some(v1)]
  {
    var s1 := SetSlot([], n1, v1);
    var s := SetSlot(s1, n2, v2);
    var a := if n1 < n2 then n1 else n2;
    var b := if n1 < n2 then n2 else n1;
    var shape := Holes(a) + [s[a]] + Holes(b - a - 1) + [s[b]];
    assert |s| == b + 1;
    assert s == shape by {
      forall i | 0 <= i < |s| ensures s[i] == shape[i] {
        if i < a {
          assert shape[i] == Holes(a)[i];
        } else if a < i < b {
          assert shape[i] == Holes(b - a - 1)[i - a - 1];
        }
      }
    }
    FlatConcat(Holes(a) + [s[a]] + Holes(b - a - 1), [s[b]]);
    FlatConcat(Holes(a) + [s[a]], Holes(b - a - 1));
    FlatConcat(Holes(a), [s[a]]);
    FlatHoles(a);
    FlatHoles(b - a - 1);
    assert Flat([s[a]]) == [s[a]] + Flat([]);
    assert Flat([s[b]]) == [s[b]] + Flat([]);
  }

  lemma TwoSlotsScalars(n1: nat, n2: nat, v1: Value, v2: Value)
    requires !IsContainer(v1) && !IsContainer(v2)
    ensures var s := SetSlot(SetSlot([], n1, v1), n2, v2);
      forall i :: 0 <= i < |s| && s[i].Some? ==> !IsContainer(s[i].value)
  {
  }

  /** A fold that succeeds is built into its squashed tree. */
  lemma BuildOfFold(es: seq<Entry>, isIterable: bool, opts: Options, st: State)
    requires Fold(Init, es, isIterable, opts) == Ok(st)
    ensures Build(es, isIterable, opts) == Ok(Squash(st.result, [], st.ordered))
  {
  }

  /** An array of scalars is squashed to Flat of its slots at an ordered location, and kept otherwise. */
  lemma SquashScalars(slots: seq<Option<Value>>, loc: Loc, ordered: set<Loc>)
    requires forall i :: 0 <= i < |slots| && slots[i].Some? ==> !IsContainer(slots[i].value)
    ensures Squash(Arr(slots), loc, ordered) == Arr(if loc in ordered then Flat(slots) else slots)
  {
    var inner := seq(|slots|, i requires 0 <= i < |slots| =>
      if slots[i].Some? then Some(Squash(slots[i].value, loc + [Step.Index(i)], ordered)) else None);
    assert inner == slots;
  }

  /** The squash of a tree with one top-level key. */
  lemma SquashOneKey(name: string, v: Value, ordered: set<Loc>)
    ensures Squash(Obj(map[name := v]), [], ordered) == Obj(map[name := Squash(v, [Key(name)], ordered)])
  {
    assert [] + [Key(name)] == [Key(name)];
  }

  /** The tree and the ordered arrays after `name[d1] = v1`, `name[d2] = v2`, before the squash. */
  lemma IndexedPairFold(name: string, d1: string, d2: string, v1: Value, v2: Value, isIterable: bool, opts: Options)
    requires PlainName(name) && DigitString(d1) && DigitString(d2)
    requires DecimalValue(d1) != DecimalValue(d2)
    requires Kept(Entry(name + "[" + d1 + "]", v1), isIterable, opts) && Kept(Entry(name + "[" + d2 + "]", v2), isIterable, opts)
    ensures Fold(Init, [Entry(name + "[" + d1 + "]", v1), Entry(name + "[" + d2 + "]", v2)], isIterable, opts)
         == Ok(State(Obj(map[name := Arr(SetSlot(SetSlot([], DecimalValue(d1), v1), DecimalValue(d2), v2))]), {[Key(name)]}))
  {
    var n1, n2 := DecimalValue(d1), DecimalValue(d2);
    FoldPair(Init, Entry(name + "[" + d1 + "]", v1), Entry(name + "[" + d2 + "]", v2), isIterable, opts);
    var empty: map<string, Value> := map[];
    IndexEntry(empty, {}, name, d1, v1);
    var s1 := SetSlot([], n1, v1);
    var o := {[Key(name)]};
    assert {} + {[Key(name)]} == o;
    assert empty[name := Arr(SetSlot(Existing(empty, name), n1, v1))] == map[name := Arr(s1)];
    FlatTwoSlots(n1, n2, v1, v2);
    IndexEntry(map[name := Arr(s1)], o, name, d2, v2);
    assert o + {[Key(name)]} == o;
    MapOverride(map[], name, Arr(s1), Arr(SetSlot(s1, n2, v2)));
  }

  /**
   * `name[d1] = v1` then `name[d2] = v2` with different indices: one array
   * with both values, the one with the lower index first, whichever came
   * first in the input.
   */
  lemma IndexedPair(name: string, d1: string, d2: string, v1: Value, v2: Value, isIterable: bool, opts: Options)
    requires PlainName(name) && DigitString(d1) && DigitString(d2)
    requires DecimalValue(d1) != DecimalValue(d2)
    requires !IsContainer(v1) && !IsContainer(v2)
    requires Kept(Entry(name + "[" + d1 + "]", v1), isIterable, opts) && Kept(Entry(name + "[" + d2 + "]", v2), isIterable, opts)
    ensures Build([Entry(name + "[" + d1 + "]", v1), Entry(name + "[" + d2 + "]", v2)], isIterable, opts)
         == Ok(Obj(map[name := Arr(if DecimalValue(d1) < DecimalValue(d2) then [Some(v1), Some(v2)] else [Some(v2), Some(v1)])]))
  {
    var n1, n2 := DecimalValue(d1), DecimalValue(d2);
    var es := [Entry(name + "[" + d1 + "]", v1), Entry(name + "[" + d2 + "]", v2)];
    var s := SetSlot(SetSlot([], n1, v1), n2, v2);
    var o := {[Key(name)]};
    IndexedPairFold(name, d1, d2, v1, v2, isIterable, opts);
    BuildOfFold(es, isIterable, opts, State(Obj(map[name := Arr(s)]), o));
    FlatTwoSlots(n1, n2, v1, v2);
    TwoSlotsScalars(n1, n2, v1, v2);
    SquashOneKey(name, Arr(s), o);
    SquashScalars(s, [Key(name)], o);
  }

  /**
   * `name[d1]` and `name[d2]` naming the same index (`1` and `01`): the
   * second entry throws DuplicateKeyError.
   */
  lemma IndexedClash(name: string, d1: string, d2: string, v1: Value, v2: Value, isIterable: bool, opts: Options)
    requires PlainName(name) && DigitString(d1) && DigitString(d2)
    requires DecimalValue(d1) == DecimalValue(d2)
    requires Kept(Entry(name + "[" + d1 + "]", v1), isIterable, opts) && Kept(Entry(name + "[" + d2 + "]", v2), isIterable, opts)
    ensures Build([Entry(name + "[" + d1 + "]", v1), Entry(name + "[" + d2 + "]", v2)], isIterable, opts)
         == Err(DuplicateKey(name + "[" + d2 + "]"))
  {
    FoldPair(Init, Entry(name + "[" + d1 + "]", v1), Entry(name + "[" + d2 + "]", v2), isIterable, opts);
    var empty: map<string, Value> := map[];
    IndexEntry(empty, {}, name, d1, v1);
    var s1 := SetSlot([], DecimalValue(d1), v1);
    var o := {[Key(name)]};
    assert {} + {[Key(name)]} == o;
    assert empty[name := Arr(SetSlot(Existing(empty, name), DecimalValue(d1), v1))] == map[name := Arr(s1)];
    IndexTaken(map[name := Arr(s1)], o, name, d2, v2);
  }
}

/**
 * convertToNestedObject (app/browser/api.mjs): entries `(path, value)` are
 * folded one by one into a tree of plain objects and arrays. Each path is cut
 * into segments by extractPathParts; each segment selects a slot of the
 * current container (handlePathPart); the last segment writes the value, the
 * others descend, creating the segment's default container when the slot is
 * empty. At the end every array that received an indexed write (`a[2]`) is
 * squashed: its holes are removed.
 *
 * The tree is a value here. The source keeps `currentPathObject`, a reference
 * into the tree, and writes through setter closures; descending and writing
 * back the child is the value-level counterpart. The set `arraysWithOrder`
 * holds array identities in the source; here it holds the locations of those
 * arrays (the keys and indices that lead to them from the root). A slot that
 * holds a value is never overwritten and no array moves before the final
 * squash (TreeWriteOnce.PlaceKeepsWritten), so a location names one array
 * for the whole fold.
 */
module TreeBuilder {
  import opened Wrappers
  import opened JsonValue
  import opened PathParts

  /** DuplicateKeyError and MixedArrayError; `key` is the offending pathToPart. */
  datatype BuildError = DuplicateKey(key: string) | MixedArray(key: string)

  /** One step from a container to one of its slots. */
  datatype Step = Key(name: string) | Index(i: nat)

  /** Where a container sits in the tree: the steps that lead to it from the root. */
  type Loc = seq<Step>

  /** One entry of the input, `{ path, value }`. */
  datatype Entry = Entry(path: string, value: Value)

  /** The options `removeEmptyString` and `duplicateKeys` (`transformEntry` is not part of this model). */
  datatype Options = Options(removeEmptyString: bool, duplicateKeys: seq<string>)

  /** The tree built so far and the locations of the arrays with indexed writes. */
  datatype State = State(result: Value, ordered: set<Loc>)

  /** `isJsonObject(v) || Array.isArray(v)`: a value the walk may descend into. */
  predicate IsContainer(v: Value) {
    IsJsonObject(v) || v.Arr?
  }

  /** Every bracket segment carries only digits, as extractPathParts guarantees. */
  predicate DigitKeys(parts: seq<PathPart>) {
    forall i :: 0 <= i < |parts| ==> parts[i].kind == ArrayIndex ==> AllDigits(parts[i].key)
  }

  /** `Number(digits)` for a string of decimal digits ("" reads as 0). */
  function DecimalValue(digits: string): nat
    requires AllDigits(digits)
  {
    if digits == [] then 0
    else 10 * DecimalValue(digits[..|digits| - 1]) + (digits[|digits| - 1] as int - '0' as int)
  }

  /** The default container of a segment: `[]` or `{}`. */
  function EmptyContainer(c: Container): (v: Value)
    ensures IsContainer(v) && (v.Arr? <==> c == EmptyArray)
  {
    if c == EmptyArray then Arr([]) else Obj(map[])
  }

  /** `array[n]`: `None` for a hole and for an index at or past the end. */
  function SlotAt(slots: seq<Option<Value>>, n: nat): Option<Value> {
    if n < |slots| then slots[n] else None
  }

  /** `k` holes. */
  function Holes(k: nat): (r: seq<Option<Value>>)
    ensures |r| == k
    ensures forall i :: 0 <= i < k ==> r[i] == None
  {
    seq(k, _ => None)
  }

  /**
   * `array[n] = v`: the array grows to n + 1 when n is at or past the end,
   * index n holds v, every other index keeps what it held (holes included).
   */
  function SetSlot(slots: seq<Option<Value>>, n: nat, v: Value): (r: seq<Option<Value>>)
    ensures |r| == if n < |slots| then |slots| else n + 1
    ensures r[n] == Some(v)
    ensures forall i :: 0 <= i < |r| && i != n ==> r[i] == SlotAt(slots, i)
  {
    if n < |slots| then slots[n := Some(v)] else slots + Holes(n - |slots|) + [Some(v)]
  }

  /** What handlePathPart returns: the slot's current value, its address, and the updated set of ordered arrays. */
  datatype Slot = Slot(next: Option<Value>, at: Step, ordered: set<Loc>)

  /** The index an array segment addresses: the current length for `[]`, `Number(digits)` otherwise. */
  function ArrayTarget(key: string, slots: seq<Option<Value>>): nat
    requires AllDigits(key)
  {
    if key == "" then |slots| else DecimalValue(key)
  }

  /**
   * handlePathPart(pathPart, currentPathObject, arraysWithOrder) with the
   * current container at `loc`.
   */
  function HandlePathPart(part: PathPart, cur: Value, loc: Loc, ordered: set<Loc>): (r: Result<Slot, BuildError>)
    requires IsContainer(cur)
    requires part.kind == ArrayIndex ==> AllDigits(part.key)
    // an object segment on an array, or an array segment on an object, is a duplicate key
    ensures (r.Err? && r.error.DuplicateKey?) <==> ((part.kind == ObjectKey) == cur.Arr?)
    // an append into an ordered array, or an index into a non-empty array that is not ordered
    ensures (r.Err? && r.error.MixedArray?) <==>
      (part.kind == ArrayIndex && cur.Arr?
       && (if part.key == "" then loc in ordered else loc !in ordered && |cur.slots| > 0))
    ensures r.Err? ==> r.error.key == part.pathToPart
    // an object segment reads the property and leaves the ordered arrays alone
    ensures r.Ok? && part.kind == ObjectKey ==>
      r.value == Slot(Get(cur.fields, part.key), Key(part.key), ordered)
    // an array segment reads the addressed index; an indexed one marks the array as ordered
    ensures r.Ok? && part.kind == ArrayIndex ==>
      var n := ArrayTarget(part.key, cur.slots);
      r.value == Slot(SlotAt(cur.slots, n), Index(n), if part.key == "" then ordered else ordered + {loc})
  {
    if part.kind == ObjectKey then
      if cur.Arr? then Err(DuplicateKey(part.pathToPart))
      else Ok(Slot(Get(cur.fields, part.key), Key(part.key), ordered))
    else if !cur.Arr? then Err(DuplicateKey(part.pathToPart))
    else
      var isOrdered := part.key != "";
      var isOrderedArray := loc in ordered;
      var ordered' := if isOrdered then ordered + {loc} else ordered;
      if (!isOrdered && isOrderedArray) || (isOrdered && !isOrderedArray && |cur.slots| > 0) then
        Err(MixedArray(part.pathToPart))
      else
        var order := ArrayTarget(part.key, cur.slots);
        Ok(Slot(SlotAt(cur.slots, order), Index(order), ordered'))
  }

  /** The setter closure of handlePathPart: writes `v` into the slot `at` of `cur`. */
  function Write(cur: Value, at: Step, v: Value): (r: Value)
    requires (cur.Obj? && at.Key?) || (cur.Arr? && at.Index?)
    ensures r.Obj? == cur.Obj? && r.Arr? == cur.Arr?
  {
    if cur.Obj? then Obj(cur.fields[at.name := v]) else Arr(SetSlot(cur.slots, at.i, v))
  }

  lemma SlotMatchesContainer(part: PathPart, cur: Value, loc: Loc, ordered: set<Loc>)
    requires IsContainer(cur)
    requires part.kind == ArrayIndex ==> AllDigits(part.key)
    requires HandlePathPart(part, cur, loc, ordered).Ok?
    ensures var at := HandlePathPart(part, cur, loc, ordered).value.at;
      (cur.Obj? && at.Key?) || (cur.Arr? && at.Index?)
  {
  }

  /**
   * The body of `pathParts.forEach` for the parts from `parts[0]` on, with
   * `cur` the current container at `loc`: the new container and the new set
   * of ordered arrays, or the error the entry throws.
   */
  function Place(cur: Value, loc: Loc, parts: seq<PathPart>, value: Value, ordered: set<Loc>)
    : (r: Result<(Value, set<Loc>), BuildError>)
    requires IsContainer(cur) && |parts| > 0 && DigitKeys(parts)
    ensures r.Ok? ==> r.value.0.Obj? == cur.Obj? && r.value.0.Arr? == cur.Arr?
    decreases |parts|
  {
    var part := parts[0];
    assert part.kind == ArrayIndex ==> AllDigits(part.key);
    var slot :- HandlePathPart(part, cur, loc, ordered);
    SlotMatchesContainer(part, cur, loc, ordered);
    if |parts| == 1 then
      // the last segment: the slot must still be undefined
      if slot.next.Some? then Err(DuplicateKey(part.pathToPart))
      else Ok((Write(cur, slot.at, value), slot.ordered))
    else if slot.next.Some? && !IsContainer(slot.next.value) then
      // descending through a scalar
      Err(DuplicateKey(part.pathToPart))
    else
      var child := if slot.next.Some? then slot.next.value else EmptyContainer(part.default);
      assert DigitKeys(parts[1..]) by {
        forall i | 0 <= i < |parts[1..]| ensures parts[1..][i].kind == ArrayIndex ==> AllDigits(parts[1..][i].key) {
          assert parts[1..][i] == parts[i + 1];
        }
      }
      var placed :- Place(child, loc + [slot.at], parts[1..], value, slot.ordered);
      Ok((Write(cur, slot.at, placed.0), placed.1))
  }

  /** The parts of a path, with the digit-only keys of bracket parts made explicit. */
  function PathPartsOf(path: string): (parts: seq<PathPart>)
    ensures parts == ExtractPathParts(path)
    ensures DigitKeys(parts)
  {
    var parts := ExtractPathParts(path);
    assert forall i :: 0 <= i < |parts| ==> WellFormedPart(path, parts[i]);
    parts
  }

  /** One entry after preprocessing: the tree it leaves, or the error it throws. An empty path changes nothing. */
  function Apply(st: State, e: Entry): (r: Result<State, BuildError>)
    requires st.result.Obj?
    ensures r.Ok? ==> r.value.result.Obj?
  {
    var parts := PathPartsOf(e.path);
    if parts == [] then Ok(st)
    else
      var placed :- Place(st.result, [], parts, e.value, st.ordered);
      Ok(State(placed.0, placed.1))
  }

  predicate EndsWithAppend(path: string) {
    |path| >= 2 && path[|path| - 2..] == "[]"
  }

  /**
   * fixArrayNotationForPlainObjects: a value that already is an array, from a
   * non-iterable input, loses one trailing `[]` from its path.
   */
  function FixArrayNotationForPlainObjects(e: Entry, isIterable: bool): (r: Entry)
    ensures r.value == e.value
    ensures e.value.Arr? && !isIterable && EndsWithAppend(e.path) ==> r.path + "[]" == e.path
    ensures !(e.value.Arr? && !isIterable && EndsWithAppend(e.path)) ==> r == e
  {
    if e.value.Arr? && EndsWithAppend(e.path) && !isIterable then
      Entry(e.path[..|e.path| - 2], e.value)
    else e
  }

  /**
   * allowDuplicatesInIterables: for an iterable input, a path listed in
   * `duplicateKeys` becomes an append `path[]`. `keys.find` yields the key
   * itself, so the empty path never qualifies.
   */
  function AllowDuplicatesInIterables(e: Entry, isIterable: bool, keys: seq<string>): (r: Entry)
    ensures r.value == e.value
    ensures isIterable && e.path != "" && e.path in keys ==> r.path == e.path + "[]"
    ensures !(isIterable && e.path != "" && e.path in keys) ==> r == e
  {
    if e.path in keys && e.path != "" && isIterable then Entry(e.path + "[]", e.value) else e
  }

  /** The preprocessing of one entry; `None` when `removeEmptyString` skips it. */
  function Prepare(e: Entry, isIterable: bool, opts: Options): Option<Entry> {
    if opts.removeEmptyString && e.value == Str("") then None
    else Some(AllowDuplicatesInIterables(FixArrayNotationForPlainObjects(e, isIterable), isIterable, opts.duplicateKeys))
  }

  /** The for-of loop over the entries, from `st` on. */
  function Fold(st: State, entries: seq<Entry>, isIterable: bool, opts: Options): (r: Result<State, BuildError>)
    requires st.result.Obj?
    ensures r.Ok? ==> r.value.result.Obj?
    decreases |entries|
  {
    if entries == [] then Ok(st)
    else match Prepare(entries[0], isIterable, opts)
      case None => Fold(st, entries[1..], isIterable, opts)
      case Some(e) =>
        var next :- Apply(st, e);
        Fold(next, entries[1..], isIterable, opts)
  }

  /** `array.flat(0)`: the present elements, in index order, without the holes. */
  function Flat(slots: seq<Option<Value>>): seq<Option<Value>> {
    if slots == [] then []
    else (if slots[0].Some? then [slots[0]] else []) + Flat(slots[1..])
  }

  /**
   * The final loop over arraysWithOrder: every array whose location is
   * ordered is squashed in place. Nested arrays are squashed at the
   * locations they had before any squash, as the identity set does.
   */
  function Squash(v: Value, loc: Loc, ordered: set<Loc>): Value
    decreases v
  {
    match v
    case Obj(fields) => Obj(map k | k in fields :: Squash(fields[k], loc + [Key(k)], ordered))
    case Arr(slots) =>
      var inner := seq(|slots|, i requires 0 <= i < |slots| =>
        if slots[i].Some? then Some(Squash(slots[i].value, loc + [Index(i)], ordered)) else None);
      if loc in ordered then Arr(Flat(inner)) else Arr(inner)
    case _ => v
  }

  const Init := State(Obj(map[]), {})

  /** convertToNestedObject(formData, options) as a function of the entries. */
  function Build(entries: seq<Entry>, isIterable: bool, opts: Options): Result<Value, BuildError> {
    var st :- Fold(Init, entries, isIterable, opts);
    Ok(Squash(st.result, [], st.ordered))
  }

  /**
   * convertToNestedObject: the loop over the entries with the mutable
   * `result` and `arraysWithOrder`, then the squash.
   */
  method ConvertToNestedObject(formData: seq<Entry>, isIterable: bool, opts: Options) returns (r: Result<Value, BuildError>)
    ensures r == Build(formData, isIterable, opts)
  {
    var result := Obj(map[]);
    var arraysWithOrder: set<Loc> := {};
    var i := 0;
    while i < |formData|
      invariant 0 <= i <= |formData|
      invariant result.Obj?
      invariant Fold(State(result, arraysWithOrder), formData[i..], isIterable, opts) == Fold(Init, formData, isIterable, opts)
    {
      assert formData[i..][1..] == formData[i + 1..];
      var entry := formData[i];
      if opts.removeEmptyString && entry.value == Str("") {
        i := i + 1;
        continue;
      }
      var entryOut := FixArrayNotationForPlainObjects(entry, isIterable);
      entryOut := AllowDuplicatesInIterables(entryOut, isIterable, opts.duplicateKeys);
      var pathParts := PathPartsOf(entryOut.path);
      if pathParts != [] {
        var placed := Place(result, [], pathParts, entryOut.value, arraysWithOrder);
        if placed.Err? {
          return Err(placed.error);
        }
        result, arraysWithOrder := placed.value.0, placed.value.1;
      }
      i := i + 1;
    }
    r := Ok(Squash(result, [], arraysWithOrder));
  }
}

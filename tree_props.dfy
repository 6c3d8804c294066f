/**
 * What convertToNestedObject promises about single writes, and what the
 * final squash does to arrays.
 */
module TreeProps {
  import opened Wrappers
  import opened JsonValue
  import opened PathParts
  import opened TreeBuilder

  /** No segment is an append `[]`. */
  predicate NoAppend(parts: seq<PathPart>) {
    forall i :: 0 <= i < |parts| ==> parts[i].kind == ArrayIndex ==> parts[i].key != ""
  }

  lemma DigitKeysTail(parts: seq<PathPart>)
    requires |parts| > 0 && DigitKeys(parts)
    ensures DigitKeys(parts[1..])
  {
    forall i | 0 <= i < |parts[1..]| ensures parts[1..][i].kind == ArrayIndex ==> AllDigits(parts[1..][i].key) {
      assert parts[1..][i] == parts[i + 1];
    }
  }

  /** An entry only ever adds arrays to the ordered set. */
  lemma {:induction false} PlaceOrderedGrows(cur: Value, loc: Loc, parts: seq<PathPart>, value: Value, ordered: set<Loc>)
    requires IsContainer(cur) && |parts| > 0 && DigitKeys(parts)
    requires Place(cur, loc, parts, value, ordered).Ok?
    ensures ordered <= Place(cur, loc, parts, value, ordered).value.1
    decreases |parts|
  {
    var part := parts[0];
    var slot := HandlePathPart(part, cur, loc, ordered).value;
    if |parts| > 1 {
      var child := if slot.next.Some? then slot.next.value else EmptyContainer(part.default);
      DigitKeysTail(parts);
      PlaceOrderedGrows(child, loc + [slot.at], parts[1..], value, slot.ordered);
    }
  }

  /**
   * Visiting a slot again after writing `x` into it: the slot now holds `x`,
   * and no error is thrown (an indexed array is already ordered).
   */
  lemma RevisitSlot(part: PathPart, cur: Value, loc: Loc, o1: set<Loc>, o2: set<Loc>, x: Value)
    requires IsContainer(cur)
    requires part.kind == ArrayIndex ==> AllDigits(part.key) && part.key != ""
    requires HandlePathPart(part, cur, loc, o1).Ok?
    requires HandlePathPart(part, cur, loc, o1).value.ordered <= o2
    ensures var slot := HandlePathPart(part, cur, loc, o1).value;
      var again := HandlePathPart(part, Write(cur, slot.at, x), loc, o2);
      && again.Ok? && again.value.next == Some(x) && again.value.at == slot.at
      && o2 <= again.value.ordered
  {
    var slot := HandlePathPart(part, cur, loc, o1).value;
    SlotMatchesContainer(part, cur, loc, o1);
  }

  /** One level of Place that succeeded: the child placed below, written back into its slot. */
  lemma PlaceUnfold(cur: Value, loc: Loc, parts: seq<PathPart>, value: Value, ordered: set<Loc>)
    requires IsContainer(cur) && |parts| > 1 && DigitKeys(parts)
    requires Place(cur, loc, parts, value, ordered).Ok?
    ensures DigitKeys(parts[1..])
    ensures var slot := HandlePathPart(parts[0], cur, loc, ordered).value;
      var child := if slot.next.Some? then slot.next.value else EmptyContainer(parts[0].default);
      && IsContainer(child)
      && Place(child, loc + [slot.at], parts[1..], value, slot.ordered).Ok?
      && var rec := Place(child, loc + [slot.at], parts[1..], value, slot.ordered).value;
      Place(cur, loc, parts, value, ordered).value == (Write(cur, slot.at, rec.0), rec.1)
  {
    DigitKeysTail(parts);
    assert parts[0].kind == ArrayIndex ==> AllDigits(parts[0].key);
  }

  /** An error below an existing container is the error of the whole entry. */
  lemma PlaceDescendsError(cur: Value, loc: Loc, parts: seq<PathPart>, value: Value, ordered: set<Loc>)
    requires IsContainer(cur) && |parts| > 1 && DigitKeys(parts)
    requires HandlePathPart(parts[0], cur, loc, ordered).Ok?
    requires var slot := HandlePathPart(parts[0], cur, loc, ordered).value;
      slot.next.Some? && IsContainer(slot.next.value)
    ensures DigitKeys(parts[1..])
    ensures var slot := HandlePathPart(parts[0], cur, loc, ordered).value;
      Place(slot.next.value, loc + [slot.at], parts[1..], value, slot.ordered).Err? ==>
      Place(cur, loc, parts, value, ordered) == Place(slot.next.value, loc + [slot.at], parts[1..], value, slot.ordered)
  {
    DigitKeysTail(parts);
    assert parts[0].kind == ArrayIndex ==> AllDigits(parts[0].key);
  }

  /**
   * A value is written at most once: once an entry without append segments
   * has been placed, placing the same path again (whatever the value, and
   * whatever arrays have been ordered since) throws DuplicateKeyError at the
   * pathToPart of the last segment.
   */
  lemma {:induction false} PlaceTwice(
    cur: Value, loc: Loc, parts: seq<PathPart>, v1: Value, v2: Value, o1: set<Loc>, o2: set<Loc>)
    requires IsContainer(cur) && |parts| > 0 && DigitKeys(parts) && NoAppend(parts)
    requires Place(cur, loc, parts, v1, o1).Ok?
    requires Place(cur, loc, parts, v1, o1).value.1 <= o2
    ensures Place(Place(cur, loc, parts, v1, o1).value.0, loc, parts, v2, o2)
         == Err(DuplicateKey(parts[|parts| - 1].pathToPart))
    decreases |parts|
  {
    if |parts| == 1 {
      assert parts == [parts[0]];
      assert parts[0].kind == ArrayIndex ==> AllDigits(parts[0].key) && parts[0].key != "";
      PlaceLastTwice(cur, loc, parts[0], v1, v2, o1, o2);
    } else {
      var child, at, oc, oc2 := PlaceTwiceDescend(cur, loc, parts, v1, v2, o1, o2);
      PlaceTwice(child, loc + [at], parts[1..], v1, v2, oc, oc2);
    }
  }

  /**
   * The step of PlaceTwice: both placements go down through the same slot,
   * and an error thrown below on the second one is the error of the entry.
   */
  lemma PlaceTwiceDescend(
    cur: Value, loc: Loc, parts: seq<PathPart>, v1: Value, v2: Value, o1: set<Loc>, o2: set<Loc>)
    returns (child: Value, at: Step, oc: set<Loc>, oc2: set<Loc>)
    requires IsContainer(cur) && |parts| > 1 && DigitKeys(parts) && NoAppend(parts)
    requires Place(cur, loc, parts, v1, o1).Ok?
    requires Place(cur, loc, parts, v1, o1).value.1 <= o2
    ensures IsContainer(child) && DigitKeys(parts[1..]) && NoAppend(parts[1..])
    ensures parts[1..][|parts[1..]| - 1] == parts[|parts| - 1]
    ensures Place(child, loc + [at], parts[1..], v1, oc).Ok?
    ensures Place(child, loc + [at], parts[1..], v1, oc).value.1 <= oc2
    ensures var below := Place(Place(child, loc + [at], parts[1..], v1, oc).value.0, loc + [at], parts[1..], v2, oc2);
      below.Err? ==> Place(Place(cur, loc, parts, v1, o1).value.0, loc, parts, v2, o2) == below
  {
    var part := parts[0];
    assert part.kind == ArrayIndex ==> AllDigits(part.key) && part.key != "";
    var slot := HandlePathPart(part, cur, loc, o1).value;
    PlaceUnfold(cur, loc, parts, v1, o1);
    child := if slot.next.Some? then slot.next.value else EmptyContainer(part.default);
    at := slot.at;
    oc := slot.ordered;
    var rec := Place(child, loc + [at], parts[1..], v1, oc).value;
    PlaceOrderedGrows(child, loc + [at], parts[1..], v1, oc);
    NoAppendTail(parts);
    RevisitSlot(part, cur, loc, o1, o2, rec.0);
    var first := Write(cur, at, rec.0);
    oc2 := HandlePathPart(part, first, loc, o2).value.ordered;
    PlaceDescendsError(first, loc, parts, v2, o2);
  }

  /** The last segment written twice. */
  lemma PlaceLastTwice(cur: Value, loc: Loc, part: PathPart, v1: Value, v2: Value, o1: set<Loc>, o2: set<Loc>)
    requires IsContainer(cur) && (part.kind == ArrayIndex ==> AllDigits(part.key) && part.key != "")
    requires Place(cur, loc, [part], v1, o1).Ok?
    requires Place(cur, loc, [part], v1, o1).value.1 <= o2
    ensures Place(Place(cur, loc, [part], v1, o1).value.0, loc, [part], v2, o2) == Err(DuplicateKey(part.pathToPart))
  {
    RevisitSlot(part, cur, loc, o1, o2, v1);
  }

  lemma NoAppendTail(parts: seq<PathPart>)
    requires |parts| > 0 && NoAppend(parts)
    ensures NoAppend(parts[1..])
  {
    forall i | 0 <= i < |parts[1..]| ensures parts[1..][i].kind == ArrayIndex ==> parts[1..][i].key != "" {
      assert parts[1..][i] == parts[i + 1];
    }
  }

  /**
   * Two entries with the same path and no append segment: the second one
   * throws DuplicateKeyError at the full path's last segment.
   */
  lemma ApplySamePathTwice(st: State, path: string, v1: Value, v2: Value)
    requires st.result.Obj?
    requires PathPartsOf(path) != [] && NoAppend(PathPartsOf(path))
    requires Apply(st, Entry(path, v1)).Ok?
    ensures var parts := PathPartsOf(path);
      Apply(Apply(st, Entry(path, v1)).value, Entry(path, v2)) == Err(DuplicateKey(parts[|parts| - 1].pathToPart))
  {
    var parts := PathPartsOf(path);
    var placed := Place(st.result, [], parts, v1, st.ordered).value;
    PlaceTwice(st.result, [], parts, v1, v2, st.ordered, placed.1);
  }

  // ---------------------------------------------------------------------
  // The squash: `array.flat(0)` removes holes and keeps the order.
  // ---------------------------------------------------------------------

  /** Number of present (non-hole) slots. */
  function Present(slots: seq<Option<Value>>): nat {
    if slots == [] then 0 else (if slots[0].Some? then 1 else 0) + Present(slots[1..])
  }

  lemma {:induction false} FlatConcat(a: seq<Option<Value>>, b: seq<Option<Value>>)
    ensures Flat(a + b) == Flat(a) + Flat(b)
    decreases |a|
  {
    if a == [] {
      assert a + b == b;
    } else {
      var head := if a[0].Some? then [a[0]] else [];
      assert (a + b)[0] == a[0];
      assert (a + b)[1..] == a[1..] + b;
      FlatConcat(a[1..], b);
      calc {
        Flat(a + b);
        head + Flat(a[1..] + b);
        head + (Flat(a[1..]) + Flat(b));
        (head + Flat(a[1..])) + Flat(b);
      }
    }
  }

  /** The squashed array has no holes and exactly as many elements as were present. */
  lemma {:induction false} FlatNoHoles(slots: seq<Option<Value>>)
    ensures |Flat(slots)| == Present(slots)
    ensures forall i :: 0 <= i < |Flat(slots)| ==> Flat(slots)[i].Some?
    decreases |slots|
  {
    if slots != [] {
      FlatNoHoles(slots[1..]);
    }
  }

  /** An array without holes is left as it is. */
  lemma {:induction false} FlatDense(slots: seq<Option<Value>>)
    requires forall i :: 0 <= i < |slots| ==> slots[i].Some?
    ensures Flat(slots) == slots
    decreases |slots|
  {
    if slots != [] {
      FlatDense(slots[1..]);
    }
  }

  /**
   * The element present at index i lands at position Present(slots[..i]),
   * the number of present elements before it; so present elements keep
   * their relative order.
   */
  lemma {:induction false} FlatPosition(slots: seq<Option<Value>>, i: nat)
    requires i < |slots| && slots[i].Some?
    ensures Present(slots[..i]) < |Flat(slots)|
    ensures Flat(slots)[Present(slots[..i])] == slots[i]
  {
    assert slots == slots[..i] + [slots[i]] + slots[i + 1..];
    FlatConcat(slots[..i] + [slots[i]], slots[i + 1..]);
    FlatConcat(slots[..i], [slots[i]]);
    FlatNoHoles(slots[..i]);
    assert Flat([slots[i]]) == [slots[i]] + Flat([]);
  }

  lemma {:induction false} PresentConcat(a: seq<Option<Value>>, b: seq<Option<Value>>)
    ensures Present(a + b) == Present(a) + Present(b)
    decreases |a|
  {
    if a == [] {
      assert a + b == b;
    } else {
      assert (a + b)[1..] == a[1..] + b;
      PresentConcat(a[1..], b);
    }
  }

  /** Present elements at indices i < j land at positions in the same order. */
  lemma FlatKeepsOrder(slots: seq<Option<Value>>, i: nat, j: nat)
    requires i < j < |slots| && slots[i].Some? && slots[j].Some?
    ensures Present(slots[..i]) < Present(slots[..j])
  {
    assert slots[..j] == slots[..i] + slots[i..j];
    PresentConcat(slots[..i], slots[i..j]);
    assert slots[i..j] == [slots[i]] + slots[i + 1..j];
  }

  // ---------------------------------------------------------------------
  // Squash leaves alone every part of the tree that holds no ordered array.
  // ---------------------------------------------------------------------

  predicate IsPrefix(a: Loc, b: Loc) {
    |a| <= |b| && b[..|a|] == a
  }

  /** No ordered location lies at or below `loc`. */
  predicate NoneBelow(loc: Loc, ordered: set<Loc>) {
    forall l :: l in ordered ==> !IsPrefix(loc, l)
  }

  lemma PrefixOfStep(loc: Loc, s: Step, l: Loc)
    ensures IsPrefix(loc + [s], l) ==> IsPrefix(loc, l)
  {
    if IsPrefix(loc + [s], l) {
      assert l[..|loc|] == (loc + [s])[..|loc + [s]|][..|loc|];
    }
  }

  lemma NoneBelowStep(loc: Loc, s: Step, ordered: set<Loc>)
    requires NoneBelow(loc, ordered)
    ensures NoneBelow(loc + [s], ordered)
  {
    forall l | l in ordered ensures !IsPrefix(loc + [s], l) {
      PrefixOfStep(loc, s, l);
    }
  }

  /** Append-only arrays, and everything outside the ordered arrays, are not touched by the squash. */
  lemma {:induction false} SquashOutside(v: Value, loc: Loc, ordered: set<Loc>)
    requires NoneBelow(loc, ordered)
    ensures Squash(v, loc, ordered) == v
    decreases v
  {
    assert loc !in ordered by {
      assert IsPrefix(loc, loc);
    }
    match v
    case Obj(fields) =>
      forall k | k in fields ensures Squash(fields[k], loc + [Key(k)], ordered) == fields[k] {
        NoneBelowStep(loc, Key(k), ordered);
        SquashOutside(fields[k], loc + [Key(k)], ordered);
      }
      assert Squash(v, loc, ordered).fields == fields;
    case Arr(slots) =>
      forall i | 0 <= i < |slots| && slots[i].Some?
        ensures Squash(slots[i].value, loc + [Index(i)], ordered) == slots[i].value
      {
        NoneBelowStep(loc, Index(i), ordered);
        SquashOutside(slots[i].value, loc + [Index(i)], ordered);
      }
      assert Squash(v, loc, ordered).slots == slots;
    case _ =>
  }

  /** Without any indexed write the squash changes nothing. */
  lemma SquashUnordered(v: Value)
    ensures Squash(v, [], {}) == v
  {
    SquashOutside(v, [], {});
  }
}

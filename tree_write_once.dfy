/**
 * The single-write and mixed-array rules of convertToNestedObject over the
 * whole input, whatever entries come in between. A successful entry leaves
 * its path filled; every later successful entry keeps every filled slot
 * filled and every container on the way of the same kind (the frame
 * lemmas); so a later entry with the same path, or with the other kind of
 * array segment at the same array, throws.
 */
module TreeWriteOnce {
  import opened Wrappers
  import opened JsonValue
  import opened PathParts
  import opened TreeBuilder
  import opened TreeProps
  import opened TreeExamples

  /** The step an object segment or an indexed array segment takes. */
  function StepOf(p: PathPart): Step
    requires p.kind == ArrayIndex ==> AllDigits(p.key)
  {
    if p.kind == ObjectKey then Key(p.key) else Index(DecimalValue(p.key))
  }

  /** The slot a segment without `[]` addresses in `cur` holds a value. */
  predicate Filled(cur: Value, p: PathPart) {
    if p.kind == ObjectKey then cur.Obj? && p.key in cur.fields
    else
      (cur.Arr? && AllDigits(p.key) && p.key != ""
       && DecimalValue(p.key) < |cur.slots| && cur.slots[DecimalValue(p.key)].Some?)
  }

  /** The value in that slot. */
  function Occupant(cur: Value, p: PathPart): Value
    requires Filled(cur, p)
  {
    if p.kind == ObjectKey then cur.fields[p.key] else cur.slots[DecimalValue(p.key)].value
  }

  /**
   * Every segment of `parts` finds its slot filled, every array on the way
   * is ordered, and every value passed through is a container: the path has
   * been written.
   */
  predicate Written(cur: Value, loc: Loc, parts: seq<PathPart>, o: set<Loc>)
    decreases |parts|
  {
    && |parts| > 0
    && Filled(cur, parts[0])
    && (cur.Arr? ==> loc in o)
    && (|parts| > 1 ==>
          IsContainer(Occupant(cur, parts[0]))
          && Written(Occupant(cur, parts[0]), loc + [StepOf(parts[0])], parts[1..], o))
  }

  /**
   * The walk along `parts` finds every slot filled and every array on the
   * way ordered, and ends at a non-empty array that is not ordered: the
   * array an append `[]` has written to.
   */
  predicate Appended(cur: Value, loc: Loc, parts: seq<PathPart>, o: set<Loc>)
    decreases |parts|
  {
    if parts == [] then cur.Arr? && |cur.slots| > 0 && loc !in o
    else
      && Filled(cur, parts[0])
      && (cur.Arr? ==> loc in o)
      && IsContainer(Occupant(cur, parts[0]))
      && Appended(Occupant(cur, parts[0]), loc + [StepOf(parts[0])], parts[1..], o)
  }

  /** The location the walk along `parts` ends at. */
  function Target(loc: Loc, parts: seq<PathPart>): (r: Loc)
    requires DigitKeys(parts)
    ensures |r| == |loc| + |parts| && r[..|loc|] == loc
    decreases |parts|
  {
    if parts == [] then loc
    else
      DigitKeysTail(parts);
      assert parts[0].kind == ArrayIndex ==> AllDigits(parts[0].key);
      Target(loc + [StepOf(parts[0])], parts[1..])
  }

  // ---------------------------------------------------------------------
  // handlePathPart on a filled slot.
  // ---------------------------------------------------------------------

  /** A filled slot of the right container is read without error and without a new ordered array. */
  lemma HandleFilled(p: PathPart, cur: Value, loc: Loc, o: set<Loc>)
    requires IsContainer(cur) && Filled(cur, p) && (cur.Arr? ==> loc in o)
    ensures p.kind == ArrayIndex ==> AllDigits(p.key)
    ensures HandlePathPart(p, cur, loc, o) == Ok(Slot(Some(Occupant(cur, p)), StepOf(p), o))
  {
    if p.kind == ArrayIndex {
      assert o + {loc} == o;
    }
  }

  /** Where a successful segment writes back: the slot at `at` after `Write`. */
  lemma WriteOther(cur: Value, at: Step, x: Value, p: PathPart)
    requires (cur.Obj? && at.Key?) || (cur.Arr? && at.Index?)
    requires Filled(cur, p) && StepOf(p) != at
    ensures Filled(Write(cur, at, x), p) && Occupant(Write(cur, at, x), p) == Occupant(cur, p)
  {
    if cur.Arr? {
      var n := DecimalValue(p.key);
      assert Index(n) != at;
      assert SetSlot(cur.slots, at.i, x)[n] == SlotAt(cur.slots, n);
    }
  }

  lemma WriteSame(cur: Value, at: Step, x: Value, p: PathPart)
    requires (cur.Obj? && at.Key?) || (cur.Arr? && at.Index?)
    requires (p.kind == ArrayIndex ==> AllDigits(p.key) && p.key != "") && StepOf(p) == at
    requires p.kind == ObjectKey <==> cur.Obj?
    ensures Filled(Write(cur, at, x), p) && Occupant(Write(cur, at, x), p) == x
  {
  }

  // ---------------------------------------------------------------------
  // The ordered set.
  // ---------------------------------------------------------------------

  /** An entry adds to the ordered set only arrays at or below where it starts. */
  lemma {:induction false} PlaceAddsBelow(cur: Value, loc: Loc, parts: seq<PathPart>, value: Value, o: set<Loc>)
    requires IsContainer(cur) && |parts| > 0 && DigitKeys(parts)
    requires Place(cur, loc, parts, value, o).Ok?
    ensures forall l :: l in Place(cur, loc, parts, value, o).value.1 && l !in o ==> IsPrefix(loc, l)
    decreases |parts|
  {
    var part := parts[0];
    assert part.kind == ArrayIndex ==> AllDigits(part.key);
    var slot := HandlePathPart(part, cur, loc, o).value;
    assert IsPrefix(loc, loc);
    if |parts| > 1 {
      var child := if slot.next.Some? then slot.next.value else EmptyContainer(part.default);
      PlaceUnfold(cur, loc, parts, value, o);
      PlaceAddsBelow(child, loc + [slot.at], parts[1..], value, slot.ordered);
      forall l | l in Place(cur, loc, parts, value, o).value.1 && l !in o ensures IsPrefix(loc, l) {
        if l !in slot.ordered {
          PrefixOfStep(loc, slot.at, l);
        }
      }
    }
  }

  /** The target of a walk that starts with a different step is not below that step. */
  lemma TargetAside(loc: Loc, parts: seq<PathPart>, s: Step)
    requires DigitKeys(parts) && |parts| > 0
    requires parts[0].kind == ArrayIndex ==> AllDigits(parts[0].key)
    requires StepOf(parts[0]) != s
    ensures !IsPrefix(loc + [s], Target(loc, parts)) && Target(loc, parts) != loc
  {
    DigitKeysTail(parts);
    var t := Target(loc, parts);
    assert t == Target(loc + [StepOf(parts[0])], parts[1..]);
    assert t[..|loc| + 1] == loc + [StepOf(parts[0])];
    assert t[|loc|] == StepOf(parts[0]);
    assert (loc + [s])[|loc|] == s;
  }

  // ---------------------------------------------------------------------
  // Same path twice.
  // ---------------------------------------------------------------------

  lemma {:induction false} WrittenGrows(cur: Value, loc: Loc, parts: seq<PathPart>, o: set<Loc>, o2: set<Loc>)
    requires Written(cur, loc, parts, o) && o <= o2
    ensures Written(cur, loc, parts, o2)
    decreases |parts|
  {
    if |parts| > 1 {
      WrittenGrows(Occupant(cur, parts[0]), loc + [StepOf(parts[0])], parts[1..], o, o2);
    }
  }

  /** A successful entry without `[]` leaves its path written. */
  lemma {:induction false} PlaceWrites(cur: Value, loc: Loc, parts: seq<PathPart>, value: Value, o: set<Loc>)
    requires IsContainer(cur) && |parts| > 0 && DigitKeys(parts) && NoAppend(parts)
    requires Place(cur, loc, parts, value, o).Ok?
    ensures Written(Place(cur, loc, parts, value, o).value.0, loc, parts, Place(cur, loc, parts, value, o).value.1)
    decreases |parts|
  {
    var part := parts[0];
    assert part.kind == ArrayIndex ==> AllDigits(part.key) && part.key != "";
    var slot := HandlePathPart(part, cur, loc, o).value;
    SlotMatchesContainer(part, cur, loc, o);
    var r := Place(cur, loc, parts, value, o).value;
    if |parts| == 1 {
      WriteSame(cur, slot.at, value, part);
    } else {
      var child := if slot.next.Some? then slot.next.value else EmptyContainer(part.default);
      PlaceUnfold(cur, loc, parts, value, o);
      NoAppendTail(parts);
      var placed := Place(child, loc + [slot.at], parts[1..], value, slot.ordered).value;
      PlaceWrites(child, loc + [slot.at], parts[1..], value, slot.ordered);
      PlaceOrderedGrows(child, loc + [slot.at], parts[1..], value, slot.ordered);
      WriteSame(cur, slot.at, placed.0, part);
    }
  }

  /** An entry along a written path throws DuplicateKeyError at its last segment. */
  lemma {:induction false} WrittenThrows(cur: Value, loc: Loc, parts: seq<PathPart>, value: Value, o: set<Loc>)
    requires IsContainer(cur) && DigitKeys(parts) && Written(cur, loc, parts, o)
    ensures Place(cur, loc, parts, value, o) == Err(DuplicateKey(parts[|parts| - 1].pathToPart))
    decreases |parts|
  {
    HandleFilled(parts[0], cur, loc, o);
    if |parts| > 1 {
      DigitKeysTail(parts);
      var child := Occupant(cur, parts[0]);
      WrittenThrows(child, loc + [StepOf(parts[0])], parts[1..], value, o);
      assert parts[1..][|parts[1..]| - 1] == parts[|parts| - 1];
    }
  }

  /** The frame: any successful entry keeps a written path written. */
  lemma {:induction false} PlaceKeepsWritten(
    cur: Value, loc: Loc, ps: seq<PathPart>, qs: seq<PathPart>, value: Value, o: set<Loc>)
    requires IsContainer(cur) && Written(cur, loc, ps, o)
    requires |qs| > 0 && DigitKeys(qs) && Place(cur, loc, qs, value, o).Ok?
    ensures Written(Place(cur, loc, qs, value, o).value.0, loc, ps, Place(cur, loc, qs, value, o).value.1)
    decreases |qs|
  {
    var q := qs[0];
    assert q.kind == ArrayIndex ==> AllDigits(q.key);
    var slot := HandlePathPart(q, cur, loc, o).value;
    SlotMatchesContainer(q, cur, loc, o);
    var r := Place(cur, loc, qs, value, o).value;
    PlaceOrderedGrows(cur, loc, qs, value, o);
    var p := ps[0];
    var a := StepOf(p);
    if |qs| == 1 {
      assert slot.at != a by {
        if slot.at == a { HandleFilled(p, cur, loc, o); }
      }
      WriteOther(cur, slot.at, value, p);
      if |ps| > 1 {
        WrittenGrows(Occupant(cur, p), loc + [a], ps[1..], o, r.1);
      }
    } else {
      var child := if slot.next.Some? then slot.next.value else EmptyContainer(q.default);
      PlaceUnfold(cur, loc, qs, value, o);
      var placed := Place(child, loc + [slot.at], qs[1..], value, slot.ordered).value;
      PlaceOrderedGrows(child, loc + [slot.at], qs[1..], value, slot.ordered);
      if slot.at != a {
        WriteOther(cur, slot.at, placed.0, p);
        if |ps| > 1 {
          WrittenGrows(Occupant(cur, p), loc + [a], ps[1..], o, r.1);
        }
      } else {
        HandleFilled(p, cur, loc, o);
        assert child == Occupant(cur, p);
        WriteSame(cur, slot.at, placed.0, p);
        if |ps| > 1 {
          WrittenGrows(child, loc + [a], ps[1..], o, slot.ordered);
          PlaceKeepsWritten(child, loc + [a], ps[1..], qs[1..], value, slot.ordered);
        }
      }
    }
  }

  // ---------------------------------------------------------------------
  // An append, then an index into the same array.
  // ---------------------------------------------------------------------

  lemma {:induction false} AppendedGrows(cur: Value, loc: Loc, parts: seq<PathPart>, o: set<Loc>, o2: set<Loc>)
    requires DigitKeys(parts) && Appended(cur, loc, parts, o) && o <= o2
    requires Target(loc, parts) !in o2
    ensures Appended(cur, loc, parts, o2)
    decreases |parts|
  {
    if parts != [] {
      DigitKeysTail(parts);
      AppendedGrows(Occupant(cur, parts[0]), loc + [StepOf(parts[0])], parts[1..], o, o2);
    }
  }

  lemma {:induction false} AppendedTarget(cur: Value, loc: Loc, parts: seq<PathPart>, o: set<Loc>)
    requires DigitKeys(parts) && Appended(cur, loc, parts, o)
    ensures Target(loc, parts) !in o
    decreases |parts|
  {
    if parts != [] {
      DigitKeysTail(parts);
      AppendedTarget(Occupant(cur, parts[0]), loc + [StepOf(parts[0])], parts[1..], o);
    }
  }

  /** A successful entry `P[]` (no `[]` in P) leaves the array at P appended to. */
  lemma {:induction false} PlaceAppends(cur: Value, loc: Loc, ps: seq<PathPart>, a: PathPart, value: Value, o: set<Loc>)
    requires IsContainer(cur) && DigitKeys(ps + [a]) && NoAppend(ps) && a.kind == ArrayIndex && a.key == ""
    requires Place(cur, loc, ps + [a], value, o).Ok?
    ensures DigitKeys(ps)
    ensures Appended(Place(cur, loc, ps + [a], value, o).value.0, loc, ps, Place(cur, loc, ps + [a], value, o).value.1)
    decreases |ps|
  {
    var parts := ps + [a];
    assert DigitKeys(ps) by {
      forall i | 0 <= i < |ps| ensures ps[i].kind == ArrayIndex ==> AllDigits(ps[i].key) {
        assert ps[i] == parts[i];
      }
    }
    var part := parts[0];
    assert part.kind == ArrayIndex ==> AllDigits(part.key);
    var slot := HandlePathPart(part, cur, loc, o).value;
    SlotMatchesContainer(part, cur, loc, o);
    if ps == [] {
      assert parts == [a];
      assert |SetSlot(cur.slots, slot.at.i, value)| > 0;
    } else {
      assert ps[0] == part && (part.kind == ArrayIndex ==> part.key != "");
      var child := if slot.next.Some? then slot.next.value else EmptyContainer(part.default);
      PlaceUnfold(cur, loc, parts, value, o);
      assert parts[1..] == ps[1..] + [a];
      NoAppendTail(ps);
      var placed := Place(child, loc + [slot.at], parts[1..], value, slot.ordered).value;
      PlaceAppends(child, loc + [slot.at], ps[1..], a, value, slot.ordered);
      PlaceOrderedGrows(child, loc + [slot.at], parts[1..], value, slot.ordered);
      WriteSame(cur, slot.at, placed.0, part);
    }
  }

  /** An indexed entry `P[d]` into an array that `P[]` appended to throws MixedArrayError at `P[d]`. */
  lemma {:induction false} AppendedThrowsOnIndex(cur: Value, loc: Loc, ps: seq<PathPart>, q: PathPart, value: Value, o: set<Loc>)
    requires IsContainer(cur) && DigitKeys(ps + [q]) && Appended(cur, loc, ps, o)
    requires q.kind == ArrayIndex && q.key != ""
    ensures Place(cur, loc, ps + [q], value, o) == Err(MixedArray(q.pathToPart))
    decreases |ps|
  {
    var parts := ps + [q];
    if ps == [] {
      assert parts[0] == q;
      assert AllDigits(q.key);
    } else {
      assert parts[0] == ps[0];
      HandleFilled(ps[0], cur, loc, o);
      DigitKeysTail(parts);
      assert parts[1..] == ps[1..] + [q];
      AppendedThrowsOnIndex(Occupant(cur, ps[0]), loc + [StepOf(ps[0])], ps[1..], q, value, o);
    }
  }

  /** The frame: any successful entry keeps an appended array appended to and not ordered. */
  lemma {:induction false} PlaceKeepsAppended(
    cur: Value, loc: Loc, ps: seq<PathPart>, qs: seq<PathPart>, value: Value, o: set<Loc>)
    requires IsContainer(cur) && DigitKeys(ps) && Appended(cur, loc, ps, o)
    requires |qs| > 0 && DigitKeys(qs) && Place(cur, loc, qs, value, o).Ok?
    ensures Appended(Place(cur, loc, qs, value, o).value.0, loc, ps, Place(cur, loc, qs, value, o).value.1)
    decreases |qs|
  {
    var q := qs[0];
    assert q.kind == ArrayIndex ==> AllDigits(q.key);
    var slot := HandlePathPart(q, cur, loc, o).value;
    SlotMatchesContainer(q, cur, loc, o);
    var r := Place(cur, loc, qs, value, o).value;
    PlaceOrderedGrows(cur, loc, qs, value, o);
    PlaceAddsBelow(cur, loc, qs, value, o);
    var child := if slot.next.Some? then slot.next.value else EmptyContainer(q.default);
    if |qs| > 1 {
      PlaceUnfold(cur, loc, qs, value, o);
      PlaceAddsBelow(child, loc + [slot.at], qs[1..], value, slot.ordered);
    }
    if ps == [] {
      // the appended array itself: only another append can succeed here
      assert q.kind == ArrayIndex && q.key == "";
      assert slot.ordered == o;
      assert |qs| > 1 ==> forall l :: l in r.1 && l !in o ==> IsPrefix(loc + [slot.at], l);
      assert loc !in r.1;
    } else {
      var p := ps[0];
      var a := StepOf(p);
      DigitKeysTail(ps);
      AppendedTarget(cur, loc, ps, o);
      if slot.at != a {
        TargetAside(loc, ps, slot.at);
        assert Target(loc, ps) == Target(loc + [a], ps[1..]);
        WriteOther(cur, slot.at, if |qs| == 1 then value else Place(child, loc + [slot.at], qs[1..], value, slot.ordered).value.0, p);
        AppendedGrows(Occupant(cur, p), loc + [a], ps[1..], o, r.1);
      } else {
        HandleFilled(p, cur, loc, o);
        assert |qs| > 1;
        assert child == Occupant(cur, p);
        var placed := Place(child, loc + [a], qs[1..], value, slot.ordered).value;
        assert Target(loc, ps) == Target(loc + [a], ps[1..]);
        AppendedGrows(child, loc + [a], ps[1..], o, slot.ordered);
        PlaceKeepsAppended(child, loc + [a], ps[1..], qs[1..], value, slot.ordered);
        WriteSame(cur, slot.at, placed.0, p);
      }
    }
  }

  /** An index `P[d]`, then an append `P[]` to the same array: the append throws MixedArrayError. */
  lemma {:induction false} WrittenThrowsOnAppend(cur: Value, loc: Loc, ps: seq<PathPart>, q: PathPart, a: PathPart, value: Value, o: set<Loc>)
    requires IsContainer(cur) && DigitKeys(ps + [a]) && Written(cur, loc, ps + [q], o)
    requires q.kind == ArrayIndex && a.kind == ArrayIndex && a.key == ""
    ensures Place(cur, loc, ps + [a], value, o) == Err(MixedArray(a.pathToPart))
    decreases |ps|
  {
    var parts := ps + [a];
    if ps == [] {
      assert parts == [a] && (ps + [q])[0] == q;
    } else {
      assert parts[0] == ps[0] && (ps + [q])[0] == ps[0];
      assert (ps + [q])[1..] == ps[1..] + [q];
      HandleFilled(ps[0], cur, loc, o);
      DigitKeysTail(parts);
      assert parts[1..] == ps[1..] + [a];
      WrittenThrowsOnAppend(Occupant(cur, ps[0]), loc + [StepOf(ps[0])], ps[1..], q, a, value, o);
    }
  }

  // ---------------------------------------------------------------------
  // Over the whole input.
  // ---------------------------------------------------------------------

  /** Every successful entry keeps a written path written. */
  lemma ApplyKeepsWritten(st: State, e: Entry, ps: seq<PathPart>)
    requires st.result.Obj? && Written(st.result, [], ps, st.ordered)
    requires Apply(st, e).Ok?
    ensures Written(Apply(st, e).value.result, [], ps, Apply(st, e).value.ordered)
  {
    var parts := PathPartsOf(e.path);
    if parts != [] {
      PlaceKeepsWritten(st.result, [], ps, parts, e.value, st.ordered);
    }
  }

  lemma {:induction false} FoldKeepsWritten(st: State, es: seq<Entry>, isIterable: bool, opts: Options, ps: seq<PathPart>)
    requires st.result.Obj? && Written(st.result, [], ps, st.ordered)
    requires Fold(st, es, isIterable, opts).Ok?
    ensures Written(Fold(st, es, isIterable, opts).value.result, [], ps, Fold(st, es, isIterable, opts).value.ordered)
    decreases |es|
  {
    if es != [] {
      match Prepare(es[0], isIterable, opts)
      case None =>
        FoldKeepsWritten(st, es[1..], isIterable, opts, ps);
      case Some(e) =>
        ApplyKeepsWritten(st, e, ps);
        FoldKeepsWritten(Apply(st, e).value, es[1..], isIterable, opts, ps);
    }
  }

  /** Every successful entry keeps an appended array appended to and not ordered. */
  lemma ApplyKeepsAppended(st: State, e: Entry, ps: seq<PathPart>)
    requires st.result.Obj? && DigitKeys(ps) && Appended(st.result, [], ps, st.ordered)
    requires Apply(st, e).Ok?
    ensures Appended(Apply(st, e).value.result, [], ps, Apply(st, e).value.ordered)
  {
    var parts := PathPartsOf(e.path);
    if parts != [] {
      PlaceKeepsAppended(st.result, [], ps, parts, e.value, st.ordered);
    }
  }

  lemma {:induction false} FoldKeepsAppended(st: State, es: seq<Entry>, isIterable: bool, opts: Options, ps: seq<PathPart>)
    requires st.result.Obj? && DigitKeys(ps) && Appended(st.result, [], ps, st.ordered)
    requires Fold(st, es, isIterable, opts).Ok?
    ensures Appended(Fold(st, es, isIterable, opts).value.result, [], ps, Fold(st, es, isIterable, opts).value.ordered)
    decreases |es|
  {
    if es != [] {
      match Prepare(es[0], isIterable, opts)
      case None =>
        FoldKeepsAppended(st, es[1..], isIterable, opts, ps);
      case Some(e) =>
        ApplyKeepsAppended(st, e, ps);
        FoldKeepsAppended(Apply(st, e).value, es[1..], isIterable, opts, ps);
    }
  }

  /** The loop over `a + b` is the loop over `a`, then, unless it threw, the loop over `b`. */
  lemma {:induction false} FoldSplit(st: State, a: seq<Entry>, b: seq<Entry>, isIterable: bool, opts: Options)
    requires st.result.Obj?
    ensures Fold(st, a, isIterable, opts).Err? ==> Fold(st, a + b, isIterable, opts) == Fold(st, a, isIterable, opts)
    ensures Fold(st, a, isIterable, opts).Ok? ==>
      Fold(st, a + b, isIterable, opts) == Fold(Fold(st, a, isIterable, opts).value, b, isIterable, opts)
    decreases |a|
  {
    if a == [] {
      assert a + b == b;
    } else {
      assert (a + b)[0] == a[0];
      assert (a + b)[1..] == a[1..] + b;
      match Prepare(a[0], isIterable, opts)
      case None =>
        FoldSplit(st, a[1..], b, isIterable, opts);
      case Some(e) =>
        if Apply(st, e).Ok? {
          FoldSplit(Apply(st, e).value, a[1..], b, isIterable, opts);
        }
    }
  }

  /** An input whose first k entries throw throws. */
  lemma PrefixThrows(entries: seq<Entry>, k: nat, isIterable: bool, opts: Options)
    requires k <= |entries| && Fold(Init, entries[..k], isIterable, opts).Err?
    ensures Build(entries, isIterable, opts).Err?
  {
    assert entries == entries[..k] + entries[k..];
    FoldSplit(Init, entries[..k], entries[k..], isIterable, opts);
  }

  /**
   * When the entries before j went through, so did the entries before i and
   * entry i itself, and the entries between i and j started from there.
   */
  lemma FoldThrough(entries: seq<Entry>, i: nat, j: nat, isIterable: bool, opts: Options)
    requires i < j <= |entries| && Prepare(entries[i], isIterable, opts).Some?
    requires Fold(Init, entries[..j], isIterable, opts).Ok?
    ensures Fold(Init, entries[..i], isIterable, opts).Ok?
    ensures var s0 := Fold(Init, entries[..i], isIterable, opts).value;
      var e := Prepare(entries[i], isIterable, opts).value;
      && Apply(s0, e).Ok?
      && Fold(Apply(s0, e).value, entries[i + 1..j], isIterable, opts) == Fold(Init, entries[..j], isIterable, opts)
  {
    assert entries[..j] == entries[..i] + entries[i..j];
    FoldSplit(Init, entries[..i], entries[i..j], isIterable, opts);
    assert entries[i..j][0] == entries[i];
    assert entries[i..j][1..] == entries[i + 1..j];
  }

  /** After entries that went through, entry j's error is the error of the first j + 1 entries. */
  lemma FoldStep(entries: seq<Entry>, j: nat, isIterable: bool, opts: Options)
    requires j < |entries| && Prepare(entries[j], isIterable, opts).Some?
    requires Fold(Init, entries[..j], isIterable, opts).Ok?
    ensures var s := Fold(Init, entries[..j], isIterable, opts).value;
      var e := Prepare(entries[j], isIterable, opts).value;
      Apply(s, e).Err? ==> Fold(Init, entries[..j + 1], isIterable, opts) == Err(Apply(s, e).error)
  {
    assert entries[..j + 1] == entries[..j] + [entries[j]];
    FoldSplit(Init, entries[..j], [entries[j]], isIterable, opts);
  }

  /** A successful indexed entry `P[d]` leaves `P[d]` written. */
  lemma ApplyWrites(st: State, e: Entry)
    requires st.result.Obj? && PathPartsOf(e.path) != [] && NoAppend(PathPartsOf(e.path))
    requires Apply(st, e).Ok?
    ensures Written(Apply(st, e).value.result, [], PathPartsOf(e.path), Apply(st, e).value.ordered)
  {
    PlaceWrites(st.result, [], PathPartsOf(e.path), e.value, st.ordered);
  }

  /** An append `P[]` on a state where `P[d]` is written throws MixedArrayError at `P[]`. */
  lemma ApplyThrowsOnAppend(st: State, e: Entry, ps: seq<PathPart>, q: PathPart, a: PathPart)
    requires st.result.Obj? && Written(st.result, [], ps + [q], st.ordered)
    requires PathPartsOf(e.path) == ps + [a]
    requires q.kind == ArrayIndex && a.kind == ArrayIndex && a.key == ""
    ensures Apply(st, e) == Err(MixedArray(a.pathToPart))
  {
    WrittenThrowsOnAppend(st.result, [], ps, q, a, e.value, st.ordered);
  }

  /** A successful append `P[]` leaves the array at P appended to. */
  lemma ApplyAppends(st: State, e: Entry, ps: seq<PathPart>, a: PathPart)
    requires st.result.Obj? && PathPartsOf(e.path) == ps + [a] && NoAppend(ps)
    requires a.kind == ArrayIndex && a.key == ""
    requires Apply(st, e).Ok?
    ensures DigitKeys(ps) && Appended(Apply(st, e).value.result, [], ps, Apply(st, e).value.ordered)
  {
    PlaceAppends(st.result, [], ps, a, e.value, st.ordered);
  }

  /** An indexed entry `P[d]` on a state where P was appended to throws MixedArrayError at `P[d]`. */
  lemma ApplyThrowsOnIndex(st: State, e: Entry, ps: seq<PathPart>, q: PathPart)
    requires st.result.Obj? && DigitKeys(ps) && Appended(st.result, [], ps, st.ordered)
    requires PathPartsOf(e.path) == ps + [q]
    requires q.kind == ArrayIndex && q.key != ""
    ensures Apply(st, e) == Err(MixedArray(q.pathToPart))
  {
    AppendedThrowsOnIndex(st.result, [], ps, q, e.value, st.ordered);
  }

  /** When the entries before j went through, the path of kept entry i < j, without `[]`, is written. */
  lemma WrittenBefore(entries: seq<Entry>, i: nat, j: nat, isIterable: bool, opts: Options)
    requires i < j <= |entries| && Prepare(entries[i], isIterable, opts).Some?
    requires var ps := PathPartsOf(Prepare(entries[i], isIterable, opts).value.path); ps != [] && NoAppend(ps)
    requires Fold(Init, entries[..j], isIterable, opts).Ok?
    ensures var s := Fold(Init, entries[..j], isIterable, opts).value;
      Written(s.result, [], PathPartsOf(Prepare(entries[i], isIterable, opts).value.path), s.ordered)
  {
    var e := Prepare(entries[i], isIterable, opts).value;
    FoldThrough(entries, i, j, isIterable, opts);
    var s0 := Fold(Init, entries[..i], isIterable, opts).value;
    ApplyWrites(s0, e);
    FoldKeepsWritten(Apply(s0, e).value, entries[i + 1..j], isIterable, opts, PathPartsOf(e.path));
  }

  /** When the entries before j went through, the array that kept entry `P[]` at i < j appended to is still appended to and not ordered. */
  lemma AppendedBefore(entries: seq<Entry>, i: nat, j: nat, isIterable: bool, opts: Options, ps: seq<PathPart>, a: PathPart)
    requires i < j <= |entries| && Prepare(entries[i], isIterable, opts).Some?
    requires PathPartsOf(Prepare(entries[i], isIterable, opts).value.path) == ps + [a] && NoAppend(ps)
    requires a.kind == ArrayIndex && a.key == ""
    requires Fold(Init, entries[..j], isIterable, opts).Ok?
    ensures DigitKeys(ps)
    ensures var s := Fold(Init, entries[..j], isIterable, opts).value; Appended(s.result, [], ps, s.ordered)
  {
    var e := Prepare(entries[i], isIterable, opts).value;
    FoldThrough(entries, i, j, isIterable, opts);
    var s0 := Fold(Init, entries[..i], isIterable, opts).value;
    ApplyAppends(s0, e, ps, a);
    FoldKeepsAppended(Apply(s0, e).value, entries[i + 1..j], isIterable, opts, ps);
  }

  /**
   * A value is written at most once, whatever comes in between: when two
   * kept entries i < j have the same path, without `[]`, entry j throws
   * DuplicateKeyError at the path's last segment unless an earlier entry
   * threw; either way the conversion throws.
   */
  lemma WriteOnce(entries: seq<Entry>, i: nat, j: nat, isIterable: bool, opts: Options)
    requires i < j < |entries|
    requires Prepare(entries[i], isIterable, opts).Some? && Prepare(entries[j], isIterable, opts).Some?
    requires Prepare(entries[i], isIterable, opts).value.path == Prepare(entries[j], isIterable, opts).value.path
    requires var ps := PathPartsOf(Prepare(entries[i], isIterable, opts).value.path); ps != [] && NoAppend(ps)
    ensures var ps := PathPartsOf(Prepare(entries[i], isIterable, opts).value.path);
      Fold(Init, entries[..j], isIterable, opts).Ok? ==>
      Fold(Init, entries[..j + 1], isIterable, opts) == Err(DuplicateKey(ps[|ps| - 1].pathToPart))
    ensures Build(entries, isIterable, opts).Err?
  {
    var e2 := Prepare(entries[j], isIterable, opts).value;
    if Fold(Init, entries[..j], isIterable, opts).Ok? {
      WrittenBefore(entries, i, j, isIterable, opts);
      var s := Fold(Init, entries[..j], isIterable, opts).value;
      WrittenThrows(s.result, [], PathPartsOf(e2.path), e2.value, s.ordered);
      FoldStep(entries, j, isIterable, opts);
      PrefixThrows(entries, j + 1, isIterable, opts);
    } else {
      PrefixThrows(entries, j, isIterable, opts);
    }
  }

  /**
   * An indexed entry `P[d]`, then, whatever comes in between, an append
   * `P[]` to the same array: the append throws MixedArrayError at `P[]`
   * unless an earlier entry threw; either way the conversion throws.
   */
  lemma IndexThenAppendLater(
    entries: seq<Entry>, i: nat, j: nat, isIterable: bool, opts: Options, ps: seq<PathPart>, q: PathPart, a: PathPart)
    requires i < j < |entries|
    requires Prepare(entries[i], isIterable, opts).Some? && Prepare(entries[j], isIterable, opts).Some?
    requires PathPartsOf(Prepare(entries[i], isIterable, opts).value.path) == ps + [q] && NoAppend(ps + [q])
    requires PathPartsOf(Prepare(entries[j], isIterable, opts).value.path) == ps + [a]
    requires q.kind == ArrayIndex && a.kind == ArrayIndex && a.key == ""
    ensures Fold(Init, entries[..j], isIterable, opts).Ok? ==>
      Fold(Init, entries[..j + 1], isIterable, opts) == Err(MixedArray(a.pathToPart))
    ensures Build(entries, isIterable, opts).Err?
  {
    if Fold(Init, entries[..j], isIterable, opts).Ok? {
      WrittenBefore(entries, i, j, isIterable, opts);
      ApplyThrowsOnAppend(Fold(Init, entries[..j], isIterable, opts).value, Prepare(entries[j], isIterable, opts).value, ps, q, a);
      FoldStep(entries, j, isIterable, opts);
      PrefixThrows(entries, j + 1, isIterable, opts);
    } else {
      PrefixThrows(entries, j, isIterable, opts);
    }
  }

  /**
   * An append `P[]`, then, whatever comes in between, an indexed entry
   * `P[d]` into the same array: the index throws MixedArrayError at `P[d]`
   * unless an earlier entry threw; either way the conversion throws.
   */
  lemma AppendThenIndexLater(
    entries: seq<Entry>, i: nat, j: nat, isIterable: bool, opts: Options, ps: seq<PathPart>, a: PathPart, q: PathPart)
    requires i < j < |entries|
    requires Prepare(entries[i], isIterable, opts).Some? && Prepare(entries[j], isIterable, opts).Some?
    requires PathPartsOf(Prepare(entries[i], isIterable, opts).value.path) == ps + [a] && NoAppend(ps)
    requires PathPartsOf(Prepare(entries[j], isIterable, opts).value.path) == ps + [q]
    requires a.kind == ArrayIndex && a.key == "" && q.kind == ArrayIndex && q.key != ""
    ensures Fold(Init, entries[..j], isIterable, opts).Ok? ==>
      Fold(Init, entries[..j + 1], isIterable, opts) == Err(MixedArray(q.pathToPart))
    ensures Build(entries, isIterable, opts).Err?
  {
    if Fold(Init, entries[..j], isIterable, opts).Ok? {
      AppendedBefore(entries, i, j, isIterable, opts, ps, a);
      ApplyThrowsOnIndex(Fold(Init, entries[..j], isIterable, opts).value, Prepare(entries[j], isIterable, opts).value, ps, q);
      FoldStep(entries, j, isIterable, opts);
      PrefixThrows(entries, j + 1, isIterable, opts);
    } else {
      PrefixThrows(entries, j, isIterable, opts);
    }
  }

  /** `a.b`, then `a.c`, then `a.b` again: the third entry collides with the first across the second. */
  lemma FieldWrittenAgainLater(name: string, f: string, g: string, v1: Value, v2: Value, v3: Value)
    requires PlainName(name) && PlainName(f) && PlainName(g)
    ensures Build([Entry(name + "." + f, v1), Entry(name + "." + g, v2), Entry(name + "." + f, v3)], true, Options(false, [])).Err?
  {
    var entries := [Entry(name + "." + f, v1), Entry(name + "." + g, v2), Entry(name + "." + f, v3)];
    PartsOfField(name, f);
    WriteOnce(entries, 0, 2, true, Options(false, []));
  }
}

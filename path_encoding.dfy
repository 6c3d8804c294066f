/**
 * The inverse of extractPathParts: a well-formed list of segments is written
 * out as a path (`a`, `.b`, `[2]`, `[]`), and scanning that path gives back
 * exactly those segments, each with the prefix of the path that ends at it.
 */
module PathEncoding {
  import opened PathParts

  datatype Segment = Field(name: string) | Index(digits: string) | Append

  /** A key that the first alternative of the expression would read as `digits]`. */
  predicate LooksLikeIndex(name: string) {
    |name| > 0 && name[|name| - 1] == ']' && AllDigits(name[..|name| - 1])
  }

  predicate ValidSegment(seg: Segment) {
    match seg
    case Field(name) => name != "" && NoSeparator(name) && !LooksLikeIndex(name)
    case Index(digits) => digits != "" && AllDigits(digits)
    case Append => true
  }

  predicate ValidSegments(segs: seq<Segment>) {
    forall i :: 0 <= i < |segs| ==> ValidSegment(segs[i])
  }

  /** What a segment contributes before the separator that follows it. */
  function Body(seg: Segment): string {
    match seg
    case Field(name) => name
    case Index(digits) => digits + "]"
    case Append => "]"
  }

  /** The separator that opens a segment: `.` for a key, `[` for a bracket. */
  function OpenerChar(seg: Segment): char {
    if seg.Field? then '.' else '['
  }

  function Opener(seg: Segment): string {
    [OpenerChar(seg)]
  }

  function Chunks(segs: seq<Segment>): string {
    if segs == [] then ""
    else Body(segs[0]) + (if |segs| > 1 then Opener(segs[1]) else "") + Chunks(segs[1..])
  }

  /** The path that addresses `segs`; a leading bracket segment gets its `[`. */
  function Encode(segs: seq<Segment>): string {
    (if |segs| > 0 && !segs[0].Field? then "[" else "") + Chunks(segs)
  }

  function KeyOf(seg: Segment): string {
    match seg
    case Field(name) => name
    case Index(digits) => digits
    case Append => ""
  }

  function KindOf(seg: Segment): Kind {
    if seg.Field? then ObjectKey else ArrayIndex
  }

  /** The default container of the segment before position `next`. */
  function DefaultBefore(segs: seq<Segment>, next: nat): Container {
    if next < |segs| && !segs[next].Field? then EmptyArray else EmptyObject
  }

  /** The parts expected from scanning Chunks(segs) after the text `prefix`. */
  function Expected(prefix: string, segs: seq<Segment>): (parts: seq<PathPart>)
    ensures |parts| == |segs|
    decreases |segs|
  {
    if segs == [] then []
    else
      [PathPart(KeyOf(segs[0]), KindOf(segs[0]), DefaultBefore(segs, 1), prefix + Body(segs[0]))]
      + Expected(prefix + Body(segs[0]) + (if |segs| > 1 then Opener(segs[1]) else ""), segs[1..])
  }

  lemma ChunksCons(segs: seq<Segment>)
    requires |segs| > 1
    ensures Chunks(segs) == Body(segs[0]) + Opener(segs[1]) + Chunks(segs[1..])
  {
  }

  lemma ExpectedTail(prefix: string, segs: seq<Segment>, i: nat)
    requires 0 < i < |segs|
    ensures Expected(prefix, segs)[i] == Expected(prefix + Body(segs[0]) + Opener(segs[1]), segs[1..])[i - 1]
  {
  }

  /** Growing the prefix by the first chunk is the same as writing the first two segments. */
  lemma PrefixGrows(prefix: string, segs: seq<Segment>, i: nat)
    requires 0 < i < |segs|
    ensures prefix + Body(segs[0]) + Opener(segs[1]) + Chunks(segs[1..][..i]) == prefix + Chunks(segs[..i + 1])
  {
    var pre := segs[..i + 1];
    assert pre[1..] == segs[1..][..i];
    ChunksCons(pre);
  }

  /** The i-th expected part, written out. */
  lemma {:induction false} ExpectedAt(prefix: string, segs: seq<Segment>, i: nat)
    requires i < |segs|
    ensures Expected(prefix, segs)[i]
         == PathPart(KeyOf(segs[i]), KindOf(segs[i]), DefaultBefore(segs, i + 1), prefix + Chunks(segs[..i + 1]))
    decreases |segs|
  {
    if i == 0 {
      assert segs[..1] == [segs[0]];
      assert Chunks([segs[0]]) == Body(segs[0]) + "" + Chunks([]);
    } else {
      var rest := prefix + Body(segs[0]) + Opener(segs[1]);
      ExpectedTail(prefix, segs, i);
      ExpectedAt(rest, segs[1..], i - 1);
      PrefixGrows(prefix, segs, i);
    }
  }

  /** The text at p spells `b` and is then followed by a separator or the end. */
  predicate SpellsAt(s: string, p: nat, b: string) {
    && p + |b| <= |s|
    && (forall i :: 0 <= i < |b| ==> s[p + i] == b[i])
    && (p + |b| == |s| || IsSeparator(s[p + |b|]))
  }

  lemma FieldKeyRun(s: string, p: nat, name: string)
    requires name != "" && NoSeparator(name) && SpellsAt(s, p, name)
    ensures KeyRun(s, p) == |name| && s[p..p + KeyRun(s, p)] == name
  {
    KeyRunMaximal(s, p);
    var n := KeyRun(s, p);
    var j := if n < |name| then n else 0;
    assert s[p + j] == name[j];
    assert p + |name| < |s| ==> IsSeparator(s[p + |name|]);
    forall i | 0 <= i < n ensures s[p..p + n][i] == name[i] {
      assert s[p + i] == name[i];
    }
  }

  lemma FieldNotBracket(s: string, p: nat, name: string)
    requires ValidSegment(Field(name)) && SpellsAt(s, p, name)
    ensures !BracketMatchAt(s, p)
  {
    DigitRunMaximal(s, p);
    var d := DigitRun(s, p);
    assert p + |name| < |s| ==> IsSeparator(s[p + |name|]);
    var j := if d < |name| then d else 0;
    assert s[p + j] == name[j];
    var k := if d + 1 < |name| then d + 1 else 0;
    assert s[p + k] == name[k];
    assert d + 1 == |name| ==> name[..|name| - 1] == s[p..p + d];
  }

  /** The scanner reads a key segment written at p as that key. */
  lemma FieldMatch(s: string, p: nat, name: string)
    requires ValidSegment(Field(name)) && SpellsAt(s, p, name)
    ensures p < |s| && !IsSeparator(s[p])
    ensures MatchEnd(s, p) == p + |name|
    ensures MatchPart(s, p) == PathPart(name, ObjectKey, DefaultAt(s, p + |name|), s[..p + |name|])
  {
    assert s[p] == name[0];
    FieldKeyRun(s, p, name);
    FieldNotBracket(s, p, name);
  }

  lemma IndexDigitRun(s: string, p: nat, digits: string)
    requires ValidSegment(Index(digits)) && SpellsAt(s, p, digits + "]")
    ensures DigitRun(s, p) == |digits| && s[p..p + DigitRun(s, p)] == digits
  {
    DigitRunMaximal(s, p);
    var b := digits + "]";
    var d := DigitRun(s, p);
    var j := if d < |digits| then d else 0;
    assert s[p + j] == b[j];
    assert s[p + |digits|] == b[|digits|];
    assert s[p + d] == b[d];
    forall i | 0 <= i < d ensures s[p..p + d][i] == digits[i] {
      assert s[p + i] == b[i];
    }
  }

  /** The scanner reads a bracket segment `digits]` written at p as those digits. */
  lemma IndexMatch(s: string, p: nat, digits: string)
    requires ValidSegment(Index(digits)) && SpellsAt(s, p, digits + "]")
    ensures p < |s| && !IsSeparator(s[p])
    ensures MatchEnd(s, p) == p + |digits| + 1
    ensures MatchPart(s, p)
         == PathPart(digits, ArrayIndex, DefaultAt(s, p + |digits| + 1), s[..p + |digits| + 1])
  {
    var b := digits + "]";
    assert s[p] == b[0];
    IndexDigitRun(s, p, digits);
    assert s[p + |digits|] == b[|digits|];
  }

  /** The scanner reads `]` written at p as an append segment. */
  lemma AppendMatch(s: string, p: nat)
    requires SpellsAt(s, p, "]")
    ensures p < |s| && !IsSeparator(s[p])
    ensures MatchEnd(s, p) == p + 1
    ensures MatchPart(s, p) == PathPart("", ArrayIndex, DefaultAt(s, p + 1), s[..p + 1])
  {
    assert s[p] == "]"[0];
    assert DigitRun(s, p) == 0;
  }

  /** The scanner reads the body of a well-formed segment written at p as that segment. */
  lemma ScanStep(s: string, p: nat, seg: Segment)
    requires ValidSegment(seg) && SpellsAt(s, p, Body(seg))
    ensures p < |s| && !IsSeparator(s[p])
    ensures MatchEnd(s, p) == p + |Body(seg)|
    ensures MatchPart(s, p)
         == PathPart(KeyOf(seg), KindOf(seg), DefaultAt(s, p + |Body(seg)|), s[..p + |Body(seg)|])
  {
    match seg
    case Field(name) => FieldMatch(s, p, name);
    case Index(digits) => IndexMatch(s, p, digits);
    case Append => AppendMatch(s, p);
  }

  lemma ScanStepResume(s: string, p: nat, seg: Segment, end: nat, part: PathPart)
    requires ValidSegment(seg) && SpellsAt(s, p, Body(seg))
    requires end == p + |Body(seg)| && end < |s|
    requires part == PathPart(KeyOf(seg), KindOf(seg), DefaultAt(s, end), s[..end])
    ensures Scan(s, p) == [part] + Scan(s, end + 1)
  {
    ScanStep(s, p, seg);
    assert After(s, MatchEnd(s, p)) == end + 1;
  }

  lemma ScanStepLast(s: string, p: nat, seg: Segment, part: PathPart)
    requires ValidSegment(seg) && SpellsAt(s, p, Body(seg))
    requires p + |Body(seg)| == |s|
    requires part == PathPart(KeyOf(seg), KindOf(seg), EmptyObject, s)
    ensures Scan(s, p) == [part]
  {
    ScanStep(s, p, seg);
    assert After(s, MatchEnd(s, p)) == |s|;
    assert s[..|s|] == s;
  }

  lemma ExpectedCons(prefix: string, segs: seq<Segment>, pre: string, part: PathPart)
    requires |segs| > 1
    requires part == PathPart(KeyOf(segs[0]), KindOf(segs[0]), DefaultBefore(segs, 1), prefix + Body(segs[0]))
    requires pre == prefix + Body(segs[0]) + Opener(segs[1])
    ensures Expected(prefix, segs) == [part] + Expected(pre, segs[1..])
  {
  }

  lemma ExpectedOne(prefix: string, segs: seq<Segment>, part: PathPart)
    requires |segs| == 1
    requires part == PathPart(KeyOf(segs[0]), KindOf(segs[0]), DefaultBefore(segs, 1), prefix + Body(segs[0]))
    ensures Expected(prefix, segs) == [part]
  {
    assert Expected(prefix + Body(segs[0]), segs[1..]) == [];
  }

  /** The text from p on is exactly the chunks of `segs`, read segment by segment. */
  predicate Spelled(s: string, p: nat, segs: seq<Segment>)
    decreases |segs|
  {
    if segs == [] then p == |s|
    else
      var end := p + |Body(segs[0])|;
      && SpellsAt(s, p, Body(segs[0]))
      && (|segs| == 1 ==> end == |s|)
      && (|segs| > 1 ==> end < |s| && s[end] == OpenerChar(segs[1]) && Spelled(s, end + 1, segs[1..]))
  }

  lemma SpellsAtCons(s: string, p: nat, b: string, c: char, rest: string)
    requires p <= |s| && s[p..] == b + [c] + rest && IsSeparator(c)
    ensures SpellsAt(s, p, b)
    ensures p + |b| < |s| && s[p + |b|] == c
    ensures s[p + |b| + 1..] == rest
  {
    forall i | 0 <= i < |b| ensures s[p + i] == b[i] {
      assert s[p..][i] == b[i];
    }
    assert s[p..][|b|] == c;
    assert s[p + |b| + 1..] == s[p..][|b| + 1..];
  }

  lemma SpellsAtLast(s: string, p: nat, b: string)
    requires p <= |s| && s[p..] == b
    ensures SpellsAt(s, p, b) && p + |b| == |s|
  {
    forall i | 0 <= i < |b| ensures s[p + i] == b[i] {
      assert s[p..][i] == b[i];
    }
  }

  lemma {:induction false} ChunksSpelled(s: string, p: nat, segs: seq<Segment>)
    requires p <= |s| && s[p..] == Chunks(segs)
    ensures Spelled(s, p, segs)
    decreases |segs|
  {
    if segs == [] {
      assert |s[p..]| == 0;
    } else if |segs| == 1 {
      assert Chunks(segs) == Body(segs[0]) + "" + Chunks([]);
      SpellsAtLast(s, p, Body(segs[0]));
    } else {
      var b := Body(segs[0]);
      ChunksCons(segs);
      SpellsAtCons(s, p, b, OpenerChar(segs[1]), Chunks(segs[1..]));
      ChunksSpelled(s, p + |b| + 1, segs[1..]);
      SpelledStep(s, p, segs);
    }
  }

  lemma SpelledStep(s: string, p: nat, segs: seq<Segment>)
    requires |segs| > 0 && SpellsAt(s, p, Body(segs[0]))
    requires |segs| == 1 ==> p + |Body(segs[0])| == |s|
    requires |segs| > 1 ==> var end := p + |Body(segs[0])|;
      end < |s| && s[end] == OpenerChar(segs[1]) && Spelled(s, end + 1, segs[1..])
    ensures Spelled(s, p, segs)
  {
  }

  lemma SpelledPrefix(s: string, p: nat, b: string)
    requires SpellsAt(s, p, b)
    ensures s[..p + |b|] == s[..p] + b
  {
    forall i | 0 <= i < p + |b| ensures s[..p + |b|][i] == (s[..p] + b)[i] {
      if i >= p {
        assert s[p + (i - p)] == b[i - p];
      }
    }
  }

  /** The part the scanner reads for the first segment, as Expected describes it. */
  lemma HeadPart(s: string, p: nat, segs: seq<Segment>)
    requires |segs| > 1 && SpellsAt(s, p, Body(segs[0]))
    requires p + |Body(segs[0])| < |s| && s[p + |Body(segs[0])|] == OpenerChar(segs[1])
    ensures DefaultAt(s, p + |Body(segs[0])|) == DefaultBefore(segs, 1)
    ensures s[..p + |Body(segs[0])|] == s[..p] + Body(segs[0])
  {
    SpelledPrefix(s, p, Body(segs[0]));
  }

  lemma OpenerPrefix(s: string, p: nat, segs: seq<Segment>)
    requires |segs| > 1 && SpellsAt(s, p, Body(segs[0]))
    requires p + |Body(segs[0])| < |s| && s[p + |Body(segs[0])|] == OpenerChar(segs[1])
    ensures s[..p + |Body(segs[0])| + 1] == s[..p] + Body(segs[0]) + Opener(segs[1])
  {
    var end := p + |Body(segs[0])|;
    SpelledPrefix(s, p, Body(segs[0]));
    assert s[..end + 1] == s[..end] + [s[end]];
  }

  /** The last segment: scanning its chunk gives its single part. */
  lemma ScanSpelledLast(s: string, p: nat, segs: seq<Segment>)
    requires |segs| == 1 && ValidSegments(segs) && Spelled(s, p, segs)
    ensures Scan(s, p) == Expected(s[..p], segs)
  {
    var part := PathPart(KeyOf(segs[0]), KindOf(segs[0]), DefaultBefore(segs, 1), s[..p] + Body(segs[0]));
    assert ValidSegment(segs[0]);
    SpelledPrefix(s, p, Body(segs[0]));
    assert s[..|s|] == s;
    ScanStepLast(s, p, segs[0], part);
    ExpectedOne(s[..p], segs, part);
  }

  /** The first of several segments: its part, and the prefix through the next opener. */
  lemma ScanSpelledHead(s: string, p: nat, segs: seq<Segment>, part: PathPart)
    requires |segs| > 1 && ValidSegment(segs[0]) && SpellsAt(s, p, Body(segs[0]))
    requires p + |Body(segs[0])| < |s| && s[p + |Body(segs[0])|] == OpenerChar(segs[1])
    requires part == PathPart(KeyOf(segs[0]), KindOf(segs[0]), DefaultBefore(segs, 1), s[..p] + Body(segs[0]))
    ensures p + |Body(segs[0])| < |s|
    ensures Scan(s, p) == [part] + Scan(s, p + |Body(segs[0])| + 1)
    ensures s[..p + |Body(segs[0])| + 1] == s[..p] + Body(segs[0]) + Opener(segs[1])
  {
    HeadPart(s, p, segs);
    OpenerPrefix(s, p, segs);
    ScanStepResume(s, p, segs[0], p + |Body(segs[0])|, part);
  }

  /** A segment followed by others: its part, then what scanning the rest gives. */
  lemma ScanSpelledCons(s: string, p: nat, segs: seq<Segment>, part: PathPart, next: nat)
    requires p <= next <= |s| && |segs| > 1
    requires part == PathPart(KeyOf(segs[0]), KindOf(segs[0]), DefaultBefore(segs, 1), s[..p] + Body(segs[0]))
    requires s[..next] == s[..p] + Body(segs[0]) + Opener(segs[1])
    requires Scan(s, p) == [part] + Scan(s, next)
    requires Scan(s, next) == Expected(s[..next], segs[1..])
    ensures Scan(s, p) == Expected(s[..p], segs)
  {
    ExpectedCons(s[..p], segs, s[..next], part);
  }

  /** Scanning well-formed segments spelled from any point of a path reproduces Expected. */
  lemma {:induction false} ScanSpelled(s: string, p: nat, segs: seq<Segment>)
    requires ValidSegments(segs) && Spelled(s, p, segs)
    ensures p <= |s|
    ensures Scan(s, p) == Expected(s[..p], segs)
    decreases |segs|
  {
    if segs == [] {
    } else if |segs| == 1 {
      ScanSpelledLast(s, p, segs);
    } else {
      var next := p + |Body(segs[0])| + 1;
      var part := PathPart(KeyOf(segs[0]), KindOf(segs[0]), DefaultBefore(segs, 1), s[..p] + Body(segs[0]));
      assert ValidSegment(segs[0]);
      ScanSpelledHead(s, p, segs, part);
      ScanSpelled(s, next, segs[1..]);
      ScanSpelledCons(s, p, segs, part, next);
    }
  }

  /**
   * Round trip of the path grammar: scanning the path written for
   * well-formed segments gives one part per segment, with the segment's key
   * and kind, the default container its successor needs, and as pathToPart
   * the path written for the segments up to and including it.
   */
  lemma ExtractEncode(segs: seq<Segment>)
    requires ValidSegments(segs)
    ensures |ExtractPathParts(Encode(segs))| == |segs|
    ensures forall i :: 0 <= i < |segs| ==>
      ExtractPathParts(Encode(segs))[i]
        == PathPart(KeyOf(segs[i]), KindOf(segs[i]), DefaultBefore(segs, i + 1), Encode(segs[..i + 1]))
  {
    var s := Encode(segs);
    var lead := if |segs| > 0 && !segs[0].Field? then "[" else "";
    var p := |lead|;
    assert s[p..] == Chunks(segs);
    assert s[..p] == lead;
    if p == 1 {
      assert IsSeparator(s[0]);
      assert Scan(s, 0) == Scan(s, 1);
    }
    ChunksSpelled(s, p, segs);
    ScanSpelled(s, p, segs);
    forall i | 0 <= i < |segs|
      ensures ExtractPathParts(s)[i]
        == PathPart(KeyOf(segs[i]), KindOf(segs[i]), DefaultBefore(segs, i + 1), Encode(segs[..i + 1]))
    {
      ExpectedAt(lead, segs, i);
      assert segs[..i + 1][0] == segs[0];
    }
  }
}

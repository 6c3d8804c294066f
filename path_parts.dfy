/**
 * extractPathParts: the path `a.b[2].c` or `tags[]` is cut into segments by
 * the global regular expression `((\d*)\]|([^.[]+))([\[\.]|$)`. This module
 * models `matchAll` of that expression as a left-to-right scanner.
 *
 * At a position p the expression behaves as follows (no match is ever empty):
 *  - if s[p] is `.` or `[`, neither alternative matches and the search moves on;
 *  - otherwise the first alternative matches when the maximal run of digits
 *    at p is followed by `]` and then by `.`, `[` or the end of the string;
 *  - otherwise the second alternative takes the maximal run of characters
 *    other than `.` and `[`, which is always followed by `.`, `[` or the end.
 * The separator that follows a match (group 4) is consumed by that match.
 */
module PathParts {

  /** `type`: 'object' for a key segment, 'array' for a bracket segment. */
  datatype Kind = ObjectKey | ArrayIndex

  /** `default`: the empty container a missing slot is filled with. */
  datatype Container = EmptyObject | EmptyArray

  /**
   * One element of extractPathParts' result. `key` is the source's `path`
   * field: the object key, or the digits between brackets ("" for `[]`).
   */
  datatype PathPart = PathPart(key: string, kind: Kind, default: Container, pathToPart: string)

  predicate IsDigit(c: char) { '0' <= c <= '9' }

  predicate IsSeparator(c: char) { c == '.' || c == '[' }

  predicate AllDigits(s: string) { forall i :: 0 <= i < |s| ==> IsDigit(s[i]) }

  predicate NoSeparator(s: string) { forall i :: 0 <= i < |s| ==> !IsSeparator(s[i]) }

  /** Length of the maximal run of digits starting at p (`\d*`). */
  function DigitRun(s: string, p: nat): (n: nat)
    requires p <= |s|
    ensures p + n <= |s|
    decreases |s| - p
  {
    if p < |s| && IsDigit(s[p]) then 1 + DigitRun(s, p + 1) else 0
  }

  /** The run of digits is as long as possible. */
  lemma {:induction false} DigitRunMaximal(s: string, p: nat)
    requires p <= |s|
    ensures forall i :: p <= i < p + DigitRun(s, p) ==> IsDigit(s[i])
    ensures p + DigitRun(s, p) == |s| || !IsDigit(s[p + DigitRun(s, p)])
    decreases |s| - p
  {
    if p < |s| && IsDigit(s[p]) {
      DigitRunMaximal(s, p + 1);
    }
  }

  /** Length of the maximal run of characters other than `.` and `[` (`[^.[]+`). */
  function KeyRun(s: string, p: nat): (n: nat)
    requires p <= |s|
    ensures p + n <= |s|
    decreases |s| - p
  {
    if p < |s| && !IsSeparator(s[p]) then 1 + KeyRun(s, p + 1) else 0
  }

  /** The run of key characters is as long as possible. */
  lemma {:induction false} KeyRunMaximal(s: string, p: nat)
    requires p <= |s|
    ensures forall i :: p <= i < p + KeyRun(s, p) ==> !IsSeparator(s[i])
    ensures p + KeyRun(s, p) == |s| || IsSeparator(s[p + KeyRun(s, p)])
    decreases |s| - p
  {
    if p < |s| && !IsSeparator(s[p]) {
      KeyRunMaximal(s, p + 1);
    }
  }

  /** `nextType === '[' ? [] : {}`, where group 4 starts at `end`. */
  function DefaultAt(s: string, end: nat): Container
    requires end <= |s|
  {
    if end < |s| && s[end] == '[' then EmptyArray else EmptyObject
  }

  /** Does the first alternative `(\d*)\]([\[\.]|$)` match at p? */
  predicate BracketMatchAt(s: string, p: nat)
    requires p <= |s|
  {
    var d := DigitRun(s, p);
    p + d < |s| && s[p + d] == ']' && (p + d + 1 == |s| || IsSeparator(s[p + d + 1]))
  }

  /** The position after a match whose group 1 ends at `end`: group 4 is consumed. */
  function After(s: string, end: nat): (q: nat)
    requires end <= |s|
    ensures end <= q <= |s|
  {
    if end < |s| then end + 1 else end
  }

  /** Where group 1 of the match found at p ends (p holds neither `.` nor `[`). */
  function MatchEnd(s: string, p: nat): (end: nat)
    requires p < |s| && !IsSeparator(s[p])
    ensures p < end <= |s|
  {
    if BracketMatchAt(s, p) then p + DigitRun(s, p) + 1 else p + KeyRun(s, p)
  }

  /** The segment built from the match found at p. */
  function MatchPart(s: string, p: nat): PathPart
    requires p < |s| && !IsSeparator(s[p])
  {
    var end := MatchEnd(s, p);
    if BracketMatchAt(s, p) then PathPart(s[p..end - 1], ArrayIndex, DefaultAt(s, end), s[..end])
    else PathPart(s[p..end], ObjectKey, DefaultAt(s, end), s[..end])
  }

  /** The segments `matchAll` finds from position p on. */
  function Scan(s: string, p: nat): (parts: seq<PathPart>)
    requires p <= |s|
    decreases |s| - p
  {
    if p == |s| then []
    else if IsSeparator(s[p]) then Scan(s, p + 1)
    else [MatchPart(s, p)] + Scan(s, After(s, MatchEnd(s, p)))
  }

  /** What every segment of a path satisfies (the contract of extractPathParts). */
  predicate WellFormedPart(s: string, part: PathPart) {
    var n := |part.pathToPart|;
    && 0 < n <= |s|
    && part.pathToPart == s[..n]
    && (n == |s| || IsSeparator(s[n]))
    && (part.default == EmptyArray <==> n < |s| && s[n] == '[')
    && match part.kind
       case ArrayIndex =>
         && AllDigits(part.key)
         && n >= |part.key| + 1
         && s[n - 1] == ']'
         && s[n - 1 - |part.key|..n - 1] == part.key
       case ObjectKey =>
         && part.key != ""
         && NoSeparator(part.key)
         && n >= |part.key|
         && s[n - |part.key|..n] == part.key
  }

  /** A match of the first alternative gives a well-formed bracket segment. */
  lemma BracketPartWellFormed(s: string, p: nat)
    requires p < |s| && !IsSeparator(s[p]) && BracketMatchAt(s, p)
    ensures WellFormedPart(s, MatchPart(s, p)) && |MatchPart(s, p).pathToPart| == MatchEnd(s, p)
  {
    DigitRunMaximal(s, p);
    var d := DigitRun(s, p);
    var part := MatchPart(s, p);
    assert part.key == s[p..p + d];
    assert |part.pathToPart| == p + d + 1;
  }

  /** A match of the second alternative gives a well-formed key segment. */
  lemma KeyPartWellFormed(s: string, p: nat)
    requires p < |s| && !IsSeparator(s[p]) && !BracketMatchAt(s, p)
    ensures WellFormedPart(s, MatchPart(s, p)) && |MatchPart(s, p).pathToPart| == MatchEnd(s, p)
  {
    KeyRunMaximal(s, p);
    var n := KeyRun(s, p);
    var part := MatchPart(s, p);
    assert part.key == s[p..p + n];
    assert NoSeparator(part.key) by {
      forall i | 0 <= i < |part.key| ensures !IsSeparator(part.key[i]) {
        assert part.key[i] == s[p + i];
      }
    }
  }

  /** The match found at p gives a well-formed segment that ends after p. */
  lemma MatchWellFormed(s: string, p: nat)
    requires p < |s| && !IsSeparator(s[p])
    ensures WellFormedPart(s, MatchPart(s, p)) && |MatchPart(s, p).pathToPart| == MatchEnd(s, p)
  {
    if BracketMatchAt(s, p) {
      BracketPartWellFormed(s, p);
    } else {
      KeyPartWellFormed(s, p);
    }
  }

  /**
   * Every segment found from position p on is well formed, ends after p,
   * and the segments come in the order of the path.
   */
  lemma {:induction false} ScanWellFormed(s: string, p: nat)
    requires p <= |s|
    ensures forall i :: 0 <= i < |Scan(s, p)| ==> WellFormedPart(s, Scan(s, p)[i]) && p < |Scan(s, p)[i].pathToPart|
    ensures forall i, j :: 0 <= i < j < |Scan(s, p)| ==> |Scan(s, p)[i].pathToPart| < |Scan(s, p)[j].pathToPart|
    decreases |s| - p
  {
    if p == |s| {
    } else if IsSeparator(s[p]) {
      ScanWellFormed(s, p + 1);
    } else {
      MatchWellFormed(s, p);
      ScanWellFormed(s, After(s, MatchEnd(s, p)));
    }
  }

  /**
   * extractPathParts(path). Each part's pathToPart is a prefix of the path
   * that ends at a separator or at the end; a bracket part carries digits
   * (or nothing) just before a `]`, a key part a non-empty key without `.`
   * or `[` that ends its pathToPart; the default is an array exactly when
   * `[` follows the part; parts come in path order.
   */
  function ExtractPathParts(path: string): (parts: seq<PathPart>)
    ensures forall i :: 0 <= i < |parts| ==> WellFormedPart(path, parts[i])
    ensures forall i, j :: 0 <= i < j < |parts| ==> |parts[i].pathToPart| < |parts[j].pathToPart|
  {
    ScanWellFormed(path, 0);
    Scan(path, 0)
  }
}

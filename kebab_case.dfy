/**
 * toKebabCase (public/browser/todos-form-create.mjs): the element's class
 * name turned into its tag name. `replace(/([a-z])([A-Z])/g, "$1-$2")`
 * puts a dash into every lowercase-uppercase pair the global search finds
 * (a matched pair is consumed, so pairs do not overlap), then
 * `toLowerCase` lowers the whole string. Letters are ASCII here.
 */
module KebabCase {

  predicate IsLower(c: char) { 'a' <= c <= 'z' }

  predicate IsUpper(c: char) { 'A' <= c <= 'Z' }

  /** `toLowerCase` on one character. */
  function Lower(c: char): (r: char)
    ensures !IsUpper(r)
    ensures !IsUpper(c) ==> r == c
    ensures IsUpper(c) ==> IsLower(r)
  {
    if IsUpper(c) then (c as int - 'A' as int + 'a' as int) as char else c
  }

  function ToLower(s: string): (r: string)
    ensures |r| == |s|
    ensures forall i :: 0 <= i < |s| ==> r[i] == Lower(s[i])
  {
    seq(|s|, i requires 0 <= i < |s| => Lower(s[i]))
  }

  /** The global replace: the search resumes after a matched pair, or one character further on. */
  function InsertDashes(s: string): string
    decreases |s|
  {
    if |s| >= 2 && IsLower(s[0]) && IsUpper(s[1]) then [s[0], '-', s[1]] + InsertDashes(s[2..])
    else if s == [] then []
    else [s[0]] + InsertDashes(s[1..])
  }

  /** toKebabCase: no uppercase letter is left. */
  function ToKebabCase(s: string): (r: string)
    ensures forall i :: 0 <= i < |r| ==> !IsUpper(r[i])
  {
    ToLower(InsertDashes(s))
  }

  /** `s` without its dashes. */
  function Undashed(s: string): string {
    if s == [] then [] else (if s[0] == '-' then [] else [s[0]]) + Undashed(s[1..])
  }

  lemma {:induction false} UndashedConcat(a: string, b: string)
    ensures Undashed(a + b) == Undashed(a) + Undashed(b)
    decreases |a|
  {
    if a != [] {
      assert (a + b)[1..] == a[1..] + b;
      UndashedConcat(a[1..], b);
    } else {
      assert a + b == b;
    }
  }

  lemma {:induction false} InsertDashesUndashed(s: string)
    ensures Undashed(InsertDashes(s)) == Undashed(s)
    decreases |s|
  {
    if |s| >= 2 && IsLower(s[0]) && IsUpper(s[1]) {
      InsertDashesUndashed(s[2..]);
      UndashedConcat([s[0], '-', s[1]], InsertDashes(s[2..]));
      assert s == [s[0], s[1]] + s[2..];
      UndashedConcat([s[0], s[1]], s[2..]);
      assert Undashed([s[0], '-', s[1]]) == [s[0], s[1]] by {
        assert [s[0], '-', s[1]][1..] == ['-', s[1]];
        assert ['-', s[1]][1..] == [s[1]];
        assert [s[1]][1..] == [];
      }
      assert Undashed([s[0], s[1]]) == [s[0], s[1]] by {
        assert [s[0], s[1]][1..] == [s[1]];
        assert [s[1]][1..] == [];
      }
    } else if s != [] {
      InsertDashesUndashed(s[1..]);
      UndashedConcat([s[0]], InsertDashes(s[1..]));
      assert s == [s[0]] + s[1..];
      UndashedConcat([s[0]], s[1..]);
    }
  }

  lemma {:induction false} UndashedLower(s: string)
    ensures Undashed(ToLower(s)) == ToLower(Undashed(s))
    decreases |s|
  {
    if s != [] {
      UndashedLower(s[1..]);
      assert ToLower(s)[1..] == ToLower(s[1..]);
      assert ToLower(Undashed(s)) == ToLower(if s[0] == '-' then [] else [s[0]]) + ToLower(Undashed(s[1..]));
    }
  }

  /** toKebabCase only adds dashes: without them, the result is the lowered input without its dashes. */
  lemma OnlyDashesAdded(s: string)
    ensures Undashed(ToKebabCase(s)) == ToLower(Undashed(s))
  {
    InsertDashesUndashed(s);
    UndashedLower(InsertDashes(s));
  }

  /** A string with no uppercase letter has no pair to match. */
  lemma {:induction false} InsertDashesNoUpper(s: string)
    requires forall i :: 0 <= i < |s| ==> !IsUpper(s[i])
    ensures InsertDashes(s) == s
    decreases |s|
  {
    if s != [] {
      InsertDashesNoUpper(s[1..]);
    }
  }

  /** Applying toKebabCase twice changes nothing more. */
  lemma Idempotent(s: string)
    ensures ToKebabCase(ToKebabCase(s)) == ToKebabCase(s)
  {
    var r := ToKebabCase(s);
    InsertDashesNoUpper(r);
  }

  /**
   * At a lowercase-uppercase boundary between `a` and `b` the search
   * matches the pair that straddles it: the result is the two halves
   * joined by a dash.
   */
  lemma {:induction false} InsertDashesBoundary(a: string, b: string)
    requires a != [] && b != [] && IsLower(a[|a| - 1]) && IsUpper(b[0])
    ensures InsertDashes(a + b) == InsertDashes(a) + "-" + InsertDashes(b)
    decreases |a|
  {
    assert InsertDashes(b) == [b[0]] + InsertDashes(b[1..]);
    if |a| == 1 {
      assert (a + b)[2..] == b[1..];
    } else if IsLower(a[0]) && IsUpper(a[1]) {
      assert (a + b)[2..] == a[2..] + b;
      InsertDashesBoundary(a[2..], b);
    } else {
      assert (a + b)[1..] == a[1..] + b;
      InsertDashesBoundary(a[1..], b);
    }
  }

  /** A capitalised word: an uppercase letter followed by at least one lowercase letter. */
  predicate IsCapitalized(w: string) {
    |w| >= 2 && IsUpper(w[0]) && forall i :: 1 <= i < |w| ==> IsLower(w[i])
  }

  /** The words written one after the other, as in a class name. */
  function Concat(words: seq<string>): string {
    if words == [] then "" else words[0] + Concat(words[1..])
  }

  /** The words joined by dashes. */
  function DashJoin(words: seq<string>): string
    requires |words| > 0
  {
    if |words| == 1 then words[0] else words[0] + "-" + DashJoin(words[1..])
  }

  lemma {:induction false} InsertDashesWords(words: seq<string>)
    requires |words| > 0 && forall i :: 0 <= i < |words| ==> IsCapitalized(words[i])
    ensures InsertDashes(Concat(words)) == DashJoin(words)
    decreases |words|
  {
    var w := words[0];
    assert InsertDashes(w) == w by {
      assert InsertDashes(w) == [w[0]] + InsertDashes(w[1..]);
      InsertDashesNoUpper(w[1..]);
    }
    if |words| == 1 {
      assert Concat(words) == w + Concat([]);
      assert w + "" == w;
    } else {
      var rest := Concat(words[1..]);
      assert rest == words[1] + Concat(words[2..]) by {
        assert words[1..][1..] == words[2..];
      }
      assert rest[0] == words[1][0];
      InsertDashesBoundary(w, rest);
      InsertDashesWords(words[1..]);
    }
  }

  /**
   * A class name made of capitalised words becomes the lowercased words
   * joined by dashes, as `TodosFormCreate` becomes `todos-form-create`.
   */
  lemma PascalCaseToKebab(words: seq<string>)
    requires |words| > 0 && forall i :: 0 <= i < |words| ==> IsCapitalized(words[i])
    ensures ToKebabCase(Concat(words)) == ToLower(DashJoin(words))
  {
    InsertDashesWords(words);
  }
}

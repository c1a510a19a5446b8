/**
 * The JavaScript string operations the core relies on: `toLowerCase`,
 * `includes`, `split` with a literal separator, `trim`, template
 * interpolation of a possibly-undefined value and the `x || default` idiom.
 * Strings are sequences of Dafny characters (Unicode scalar values); a
 * JavaScript string's UTF-16 code units are not modelled.
 */
module Strings {
  import opened Wrappers

  // ---------------------------------------------------------------- case

  predicate IsUpper(c: char) { 'A' <= c <= 'Z' }

  /** `toLowerCase` on one code unit; only the ASCII letters are folded. */
  function LowerChar(c: char): char {
    if IsUpper(c) then (c as int + 32) as char else c
  }

  /** `s.toLowerCase()`, folding the ASCII letters. */
  function ToLower(s: string): (r: string)
    ensures |r| == |s|
    ensures forall k :: 0 <= k < |s| ==> r[k] == LowerChar(s[k])
  {
    if s == [] then [] else [LowerChar(s[0])] + ToLower(s[1..])
  }

  /** Lower-casing a second time changes nothing. */
  lemma ToLowerIdempotent(s: string)
    ensures ToLower(ToLower(s)) == ToLower(s)
  {
    var once := ToLower(s);
    assert forall k :: 0 <= k < |once| ==> LowerChar(once[k]) == once[k];
  }

  /** Case-insensitive equality, as `a.toLowerCase() === b.toLowerCase()`. */
  predicate EqualsIgnoreCase(a: string, b: string) {
    ToLower(a) == ToLower(b)
  }

  // ------------------------------------------------------------ substring

  /** `sep` occurs in `s` at position `j`. */
  predicate OccursAt(s: string, sep: string, j: int) {
    0 <= j && j + |sep| <= |s| && s[j..j + |sep|] == sep
  }

  /** An occurrence past the first position is an occurrence in the tail, one position earlier. */
  lemma OccursShift(s: string, sep: string, j: int)
    requires s != [] && j > 0
    ensures OccursAt(s, sep, j) <==> OccursAt(s[1..], sep, j - 1)
  {
    if j + |sep| <= |s| {
      assert s[1..][j - 1..j - 1 + |sep|] == s[j..j + |sep|];
    }
  }

  /** `s.includes(t)`: the empty string is a substring of every string. */
  function Contains(s: string, t: string): (b: bool)
    ensures b <==> exists j :: OccursAt(s, t, j)
    decreases |s|
  {
    if |t| <= |s| && s[..|t|] == t then
      assert OccursAt(s, t, 0);
      true
    else if |s| == 0 then
      false
    else
      var rest := Contains(s[1..], t);
      if rest then
        var j :| OccursAt(s[1..], t, j);
        assert s[1..][j..j + |t|] == s[j + 1..j + 1 + |t|];
        assert OccursAt(s, t, j + 1);
        true
      else
        assert forall j :: OccursAt(s, t, j) ==> j == 0 || OccursAt(s[1..], t, j - 1) by {
          forall j | OccursAt(s, t, j) && j > 0 ensures OccursAt(s[1..], t, j - 1) {
            assert s[1..][j - 1..j - 1 + |t|] == s[j..j + |t|];
          }
        }
        false
  }

  // ---------------------------------------------------------------- split

  /** The position of the first occurrence of `sep` in `s`, searching from the left. */
  function IndexOf(s: string, sep: string): (r: Option<nat>)
    requires |sep| > 0
    ensures r.Some? ==> OccursAt(s, sep, r.value)
    ensures r.Some? ==> forall j :: 0 <= j < r.value ==> !OccursAt(s, sep, j)
    ensures r.None? ==> forall j :: !OccursAt(s, sep, j)
    decreases |s|
  {
    if |s| < |sep| then
      None
    else if s[..|sep|] == sep then
      Some(0)
    else
      var rest := IndexOf(s[1..], sep);
      assert !OccursAt(s, sep, 0);
      forall j | j > 0 ensures OccursAt(s, sep, j) <==> OccursAt(s[1..], sep, j - 1) {
        OccursShift(s, sep, j);
      }
      match rest
      case None => None
      case Some(i) => Some(i + 1)
  }

  /** `s.split(sep)` for a non-empty literal separator. */
  function Split(s: string, sep: string): (r: seq<string>)
    requires |sep| > 0
    ensures |r| >= 1
    decreases |s|
  {
    match IndexOf(s, sep)
    case None => [s]
    case Some(i) => [s[..i]] + Split(s[i + |sep|..], sep)
  }

  /** `parts.join(sep)`. */
  function Join(parts: seq<string>, sep: string): string {
    if |parts| == 0 then ""
    else if |parts| == 1 then parts[0]
    else parts[0] + sep + Join(parts[1..], sep)
  }

  /** Splitting loses nothing: joining the pieces back gives the original string. */
  lemma {:induction false} JoinSplit(s: string, sep: string)
    requires |sep| > 0
    ensures Join(Split(s, sep), sep) == s
    decreases |s|
  {
    match IndexOf(s, sep)
    case None =>
    case Some(i) =>
      var tail := s[i + |sep|..];
      var rest := Split(tail, sep);
      JoinSplit(tail, sep);
      var parts := [s[..i]] + rest;
      assert Split(s, sep) == parts;
      assert parts[1..] == rest;
      assert Join(parts, sep) == s[..i] + sep + Join(rest, sep);
      assert s == s[..i] + s[i..i + |sep|] + tail;
  }

  /** No piece of a split contains the separator. */
  lemma {:induction false} SplitPiecesFree(s: string, sep: string)
    requires |sep| > 0
    ensures forall k :: 0 <= k < |Split(s, sep)| ==> !Contains(Split(s, sep)[k], sep)
    decreases |s|
  {
    match IndexOf(s, sep)
    case None =>
    case Some(i) =>
      var tail := s[i + |sep|..];
      SplitPiecesFree(tail, sep);
      PrefixBeforeFirstIsFree(s, sep, i);
      var r := Split(s, sep);
      assert r == [s[..i]] + Split(tail, sep);
      forall k | 0 <= k < |r| ensures !Contains(r[k], sep) {
        if k > 0 { assert r[k] == Split(tail, sep)[k - 1]; }
      }
  }

  /** The text before the first occurrence of a separator does not contain it. */
  lemma PrefixBeforeFirstIsFree(s: string, sep: string, i: nat)
    requires |sep| > 0 && i <= |s|
    requires forall j :: 0 <= j < i ==> !OccursAt(s, sep, j)
    ensures !Contains(s[..i], sep)
  {
    forall j | OccursAt(s[..i], sep, j) ensures false {
      assert s[..i][j..j + |sep|] == s[j..j + |sep|];
      assert OccursAt(s, sep, j);
    }
  }

  /** `s.split(sep)[0]`, the text before the first separator (all of `s` when there is none). */
  function BeforeFirst(s: string, sep: string): string
    requires |sep| > 0
  {
    Split(s, sep)[0]
  }

  /**
   * `BeforeFirst` is characterised by three facts: it is a prefix of `s`, it
   * contains no separator, and it is either all of `s` or is followed by one.
   */
  lemma BeforeFirstSpec(s: string, sep: string)
    requires |sep| > 0
    ensures var r := BeforeFirst(s, sep);
      |r| <= |s| && r == s[..|r|] && !Contains(r, sep) &&
      (|r| < |s| ==> OccursAt(s, sep, |r|)) &&
      (Contains(s, sep) <==> |r| < |s|)
  {
    var r := BeforeFirst(s, sep);
    SplitPiecesFree(s, sep);
    match IndexOf(s, sep)
    case None =>
    case Some(i) =>
      assert r == s[..i];
  }

  // ----------------------------------------------------------------- trim

  /** The code units `String.prototype.trim` removes: white space and line terminators. */
  predicate IsSpace(c: char) {
    c == ' ' || c == '\t' || c == '\n' || c == '\r' || c == '\U{B}' || c == '\U{C}' ||
    c == '\U{A0}' || c == '\U{1680}' || ('\U{2000}' <= c <= '\U{200A}') ||
    c == '\U{2028}' || c == '\U{2029}' || c == '\U{202F}' || c == '\U{205F}' ||
    c == '\U{3000}' || c == '\U{FEFF}'
  }

  /** `s` with its leading white space removed. */
  function TrimStart(s: string): (r: string)
    ensures |r| <= |s| && r == s[|s| - |r|..]
    ensures forall k :: 0 <= k < |s| - |r| ==> IsSpace(s[k])
    ensures r != [] ==> !IsSpace(r[0])
  {
    if s != [] && IsSpace(s[0]) then
      var r := TrimStart(s[1..]);
      assert forall k :: 1 <= k < |s| - |r| ==> s[k] == s[1..][k - 1];
      r
    else s
  }

  /** `s` with its trailing white space removed. */
  function TrimEnd(s: string): (r: string)
    ensures |r| <= |s| && r == s[..|r|]
    ensures forall k :: |r| <= k < |s| ==> IsSpace(s[k])
    ensures r != [] ==> !IsSpace(r[|r| - 1])
  {
    if s != [] && IsSpace(s[|s| - 1]) then
      var r := TrimEnd(s[..|s| - 1]);
      assert forall k :: |r| <= k < |s| - 1 ==> s[k] == s[..|s| - 1][k];
      r
    else s
  }

  /** `s.trim()`. */
  function Trim(s: string): string {
    TrimEnd(TrimStart(s))
  }

  /** `s.trim()` is empty (falsy) exactly when `s` is all white space. */
  lemma TrimEmptyIffBlank(s: string)
    ensures Trim(s) == "" <==> forall k :: 0 <= k < |s| ==> IsSpace(s[k])
    ensures Trim(s) != "" <==> exists k :: 0 <= k < |s| && !IsSpace(s[k])
  {
    var a := TrimStart(s);
    if Trim(s) == "" {
      forall k | 0 <= k < |s| ensures IsSpace(s[k]) {
        if k >= |s| - |a| {
          assert s[k] == a[k - (|s| - |a|)];
        }
      }
    } else {
      var r := Trim(s);
      assert r == a[..|r|] && !IsSpace(r[0]) && r[0] == a[0];
      assert a[0] == s[|s| - |a|];
      assert !IsSpace(s[|s| - |a|]);
    }
  }

  /** Trimming keeps the non-blank core of the text: its ends are not white space. */
  lemma TrimEnds(s: string)
    ensures var r := Trim(s);
      r != [] ==> !IsSpace(r[0]) && !IsSpace(r[|r| - 1])
  {
    var a := TrimStart(s);
    var r := Trim(s);
    if r != [] {
      assert r[0] == a[0];
    }
  }

  /**
   * `s.trim()` where it is used only when truthy: nothing for text that is
   * all white space, and otherwise the trimmed text, which is never blank
   * and has no white space at either end.
   */
  function TrimmedNonBlank(s: string): (r: Option<string>)
    ensures r.Some? <==> exists k :: 0 <= k < |s| && !IsSpace(s[k])
    ensures r.Some? ==> r.value == Trim(s)
    ensures r.Some? ==> (r.value != "" && !IsSpace(r.value[0]) && !IsSpace(r.value[|r.value| - 1]))
  {
    TrimEmptyIffBlank(s);
    TrimEnds(s);
    var t := Trim(s);
    if t != "" then Some(t) else None
  }

  // ------------------------------------------------------- JavaScript idioms

  /** JavaScript truthiness of a possibly-undefined string. */
  predicate Truthy(x: Option<string>) {
    x.Some? && x.value != ""
  }

  /** `x || fallback` for a possibly-undefined string: undefined and "" both fall back. */
  function OrElse(x: Option<string>, fallback: string): string {
    if Truthy(x) then x.value else fallback
  }

  /** Template interpolation `${x}`: an undefined value prints as "undefined". */
  function Interpolate(x: Option<string>): string {
    match x
    case Some(s) => s
    case None => "undefined"
  }
}

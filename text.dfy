/**
 * The string operations the simulated backend relies on: JavaScript's
 * `toLowerCase`, the `\s` character class, `replace(/\s+/g, "-")`,
 * `replace(/[^a-z0-9-]/g, "")` and `includes`.
 */
module Text {

  predicate IsUpper(c: char) { 'A' <= c <= 'Z' }

  /** The lower-case form of one character (ASCII letters only). */
  function LowerChar(c: char): (r: char)
    ensures !IsUpper(r)
    ensures IsUpper(c) ==> r as int == c as int + 32
    ensures !IsUpper(c) ==> r == c
  {
    if IsUpper(c) then (c as int + 32) as char else c
  }

  /** `s.toLowerCase()`. */
  function Lower(s: string): string {
    seq(|s|, i requires 0 <= i < |s| => LowerChar(s[i]))
  }

  predicate NoUpper(s: string) {
    forall i :: 0 <= i < |s| ==> !IsUpper(s[i])
  }

  /** Lowering keeps the length, leaves no upper-case letter, and changes nothing else. */
  lemma LowerFacts(s: string)
    ensures |Lower(s)| == |s| && NoUpper(Lower(s))
    ensures forall i :: 0 <= i < |s| && !IsUpper(s[i]) ==> Lower(s)[i] == s[i]
  {
  }

  /** A string without upper-case letters is its own lower-case form. */
  lemma LowerOfNoUpper(s: string)
    requires NoUpper(s)
    ensures Lower(s) == s
  {
  }

  /** `toLowerCase` is idempotent. */
  lemma LowerIdempotent(s: string)
    ensures Lower(Lower(s)) == Lower(s)
  {
    LowerFacts(s);
    LowerOfNoUpper(Lower(s));
  }

  lemma LowerAppend(a: string, b: string)
    ensures Lower(a + b) == Lower(a) + Lower(b)
  {
  }

  /** The characters JavaScript's `\s` matches. */
  predicate IsSpace(c: char) {
    || c == '\t' || c == '\n' || c == '\U{000B}' || c == '\U{000C}' || c == '\r' || c == ' '
    || c == '\U{00A0}' || c == '\U{1680}' || ('\U{2000}' <= c <= '\U{200A}')
    || c == '\U{2028}' || c == '\U{2029}' || c == '\U{202F}' || c == '\U{205F}'
    || c == '\U{3000}' || c == '\U{FEFF}'
  }

  predicate NoSpace(s: string) {
    forall i :: 0 <= i < |s| ==> !IsSpace(s[i])
  }

  /** The rest of `s` after its leading run of whitespace. */
  function DropSpaces(s: string): (r: string)
    ensures |r| <= |s|
    ensures r == [] || !IsSpace(r[0])
    decreases |s|
  {
    if s != [] && IsSpace(s[0]) then DropSpaces(s[1..]) else s
  }

  /** What is left after the leading run is a suffix of the input. */
  lemma {:induction false} DropSpacesIsSuffix(s: string)
    ensures DropSpaces(s) == s[|s| - |DropSpaces(s)|..]
    decreases |s|
  {
    if s != [] && IsSpace(s[0]) {
      DropSpacesIsSuffix(s[1..]);
    }
  }

  /** `s.replace(/\s+/g, "-")`: every maximal run of whitespace becomes one hyphen. */
  function CollapseSpaces(s: string): (r: string)
    decreases |s|
  {
    if s == [] then []
    else if IsSpace(s[0]) then "-" + CollapseSpaces(DropSpaces(s[1..]))
    else [s[0]] + CollapseSpaces(s[1..])
  }

  /** No whitespace survives the replacement. */
  lemma {:induction false} CollapseLeavesNoSpace(s: string)
    ensures NoSpace(CollapseSpaces(s))
    decreases |s|
  {
    if s == [] {
    } else if IsSpace(s[0]) {
      CollapseLeavesNoSpace(DropSpaces(s[1..]));
    } else {
      CollapseLeavesNoSpace(s[1..]);
    }
  }

  /** A string without whitespace is left as it is. */
  lemma {:induction false} CollapseOfNoSpace(s: string)
    requires NoSpace(s)
    ensures CollapseSpaces(s) == s
    decreases |s|
  {
    if s != [] {
      CollapseOfNoSpace(s[1..]);
    }
  }

  /** The replacement inserts only hyphens, so it introduces no upper-case letter. */
  lemma {:induction false} CollapsePreservesNoUpper(s: string)
    requires NoUpper(s)
    ensures NoUpper(CollapseSpaces(s))
    decreases |s|
  {
    if s == [] {
    } else if IsSpace(s[0]) {
      DropSpacesIsSuffix(s[1..]);
      CollapsePreservesNoUpper(DropSpaces(s[1..]));
    } else {
      CollapsePreservesNoUpper(s[1..]);
    }
  }

  predicate AllSpace(w: string) {
    forall i :: 0 <= i < |w| ==> IsSpace(w[i])
  }

  lemma {:induction false} DropSpacesOfRun(w: string, b: string)
    requires AllSpace(w)
    requires b == [] || !IsSpace(b[0])
    ensures DropSpaces(w + b) == b
    decreases |w|
  {
    if w != [] {
      assert (w + b)[1..] == w[1..] + b;
      DropSpacesOfRun(w[1..], b);
    }
  }

  lemma {:induction false} DropSpacesAppend(x: string, y: string)
    requires x != [] && !IsSpace(x[|x| - 1])
    ensures DropSpaces(x + y) == DropSpaces(x) + y
    decreases |x|
  {
    if IsSpace(x[0]) {
      assert (x + y)[1..] == x[1..] + y;
      DropSpacesAppend(x[1..], y);
    }
  }

  /** How the replacement unfolds on a string that starts with a non-space character. */
  lemma CollapseCons(c: char, s: string)
    requires !IsSpace(c)
    ensures CollapseSpaces([c] + s) == [c] + CollapseSpaces(s)
  {
    assert ([c] + s)[1..] == s;
  }

  /** How the replacement unfolds on a string that starts with whitespace. */
  lemma CollapseSpaceCons(c: char, s: string)
    requires IsSpace(c)
    ensures CollapseSpaces([c] + s) == "-" + CollapseSpaces(DropSpaces(s))
  {
    assert ([c] + s)[1..] == s;
  }

  /**
   * The replacement treats runs one at a time: a non-empty run `w` of
   * whitespace between a prefix that does not end in whitespace and a suffix
   * that does not start with whitespace turns into exactly one hyphen.
   */
  lemma {:induction false} CollapseRun(a: string, w: string, b: string)
    requires a == [] || !IsSpace(a[|a| - 1])
    requires w != [] && AllSpace(w)
    requires b == [] || !IsSpace(b[0])
    ensures CollapseSpaces(a + w + b) == CollapseSpaces(a) + "-" + CollapseSpaces(b)
    decreases |a|, 1
  {
    if a == [] {
      assert a + w + b == [w[0]] + (w[1..] + b);
      CollapseSpaceCons(w[0], w[1..] + b);
      DropSpacesOfRun(w[1..], b);
    } else if !IsSpace(a[0]) {
      CollapseRunAfterWord(a, w, b);
    } else {
      CollapseRunAfterSpace(a, w, b);
    }
  }

  lemma {:induction false} CollapseRunAfterWord(a: string, w: string, b: string)
    requires a != [] && !IsSpace(a[0]) && !IsSpace(a[|a| - 1])
    requires w != [] && AllSpace(w)
    requires b == [] || !IsSpace(b[0])
    ensures CollapseSpaces(a + w + b) == CollapseSpaces(a) + "-" + CollapseSpaces(b)
    decreases |a|, 0
  {
    calc {
      CollapseSpaces(a + w + b);
      { assert a + w + b == [a[0]] + (a[1..] + w + b); }
      CollapseSpaces([a[0]] + (a[1..] + w + b));
      { CollapseCons(a[0], a[1..] + w + b); }
      [a[0]] + CollapseSpaces(a[1..] + w + b);
      { CollapseRun(a[1..], w, b); }
      [a[0]] + (CollapseSpaces(a[1..]) + "-" + CollapseSpaces(b));
      { CollapseCons(a[0], a[1..]); assert [a[0]] + a[1..] == a; }
      CollapseSpaces(a) + "-" + CollapseSpaces(b);
    }
  }

  /** Dropping leading whitespace from a string that ends in a non-space keeps that last character. */
  lemma {:induction false} DropSpacesKeepsLast(s: string)
    requires s != [] && !IsSpace(s[|s| - 1])
    ensures DropSpaces(s) != [] && !IsSpace(DropSpaces(s)[|DropSpaces(s)| - 1])
    decreases |s|
  {
    if IsSpace(s[0]) {
      assert s[1..][|s[1..]| - 1] == s[|s| - 1];
      DropSpacesKeepsLast(s[1..]);
    }
  }

  /** A leading whitespace run that ends inside `x` becomes one hyphen, whatever follows `x`. */
  lemma CollapseLeadingRun(c: char, x: string, y: string)
    requires IsSpace(c) && x != [] && !IsSpace(x[|x| - 1])
    ensures CollapseSpaces([c] + (x + y)) == "-" + CollapseSpaces(DropSpaces(x) + y)
  {
    CollapseSpaceCons(c, x + y);
    DropSpacesAppend(x, y);
  }

  lemma {:induction false} CollapseRunAfterSpace(a: string, w: string, b: string)
    requires a != [] && IsSpace(a[0]) && !IsSpace(a[|a| - 1])
    requires w != [] && AllSpace(w)
    requires b == [] || !IsSpace(b[0])
    ensures CollapseSpaces(a + w + b) == CollapseSpaces(a) + "-" + CollapseSpaces(b)
    decreases |a|, 0
  {
    // the leading run of `a` ends inside `a`, since `a` ends in a non-space
    var x := a[1..];
    assert x[|x| - 1] == a[|a| - 1];
    DropSpacesKeepsLast(x);
    var d := DropSpaces(x);
    calc {
      CollapseSpaces(a + w + b);
      { assert a == [a[0]] + x; AppendAssoc(a, w, b); AppendAssoc([a[0]], x, w + b); }
      CollapseSpaces([a[0]] + (x + (w + b)));
      { CollapseLeadingRun(a[0], x, w + b); AppendAssoc(d, w, b); }
      "-" + CollapseSpaces(d + w + b);
      { CollapseRun(d, w, b); }
      "-" + (CollapseSpaces(d) + "-" + CollapseSpaces(b));
      { AppendAssoc("-", CollapseSpaces(d) + "-", CollapseSpaces(b)); AppendAssoc("-", CollapseSpaces(d), "-"); }
      "-" + CollapseSpaces(d) + "-" + CollapseSpaces(b);
      { assert a == [a[0]] + x; CollapseSpaceCons(a[0], x); }
      CollapseSpaces(a) + "-" + CollapseSpaces(b);
    }
  }

  lemma AppendAssoc<T>(x: seq<T>, y: seq<T>, z: seq<T>)
    ensures x + (y + z) == x + y + z
  {
  }


  predicate IsSlugChar(c: char) {
    ('a' <= c <= 'z') || ('0' <= c <= '9') || c == '-'
  }

  predicate AllSlugChars(s: string) {
    forall i :: 0 <= i < |s| ==> IsSlugChar(s[i])
  }

  /** `s.replace(/[^a-z0-9-]/g, "")`: every character outside [a-z0-9-] is dropped. */
  function KeepSlugChars(s: string): (r: string)
    ensures |r| <= |s|
  {
    if s == [] then []
    else if IsSlugChar(s[0]) then [s[0]] + KeepSlugChars(s[1..])
    else KeepSlugChars(s[1..])
  }

  lemma {:induction false} KeepSlugCharsSound(s: string)
    ensures AllSlugChars(KeepSlugChars(s))
    ensures multiset(KeepSlugChars(s)) <= multiset(s)
  {
    if s != [] {
      KeepSlugCharsSound(s[1..]);
      assert s == [s[0]] + s[1..];
    }
  }

  lemma {:induction false} KeepSlugCharsOfSlug(s: string)
    requires AllSlugChars(s)
    ensures KeepSlugChars(s) == s
  {
    if s != [] {
      KeepSlugCharsOfSlug(s[1..]);
    }
  }

  /** `s.toLowerCase().replace(/\s+/g, "-")`: the default job slug and every option value. */
  function Hyphenate(s: string): (r: string)
    ensures NoSpace(r) && NoUpper(r)
  {
    CollapseLeavesNoSpace(Lower(s));
    LowerFacts(s);
    CollapsePreservesNoUpper(Lower(s));
    CollapseSpaces(Lower(s))
  }

  /** `s.includes(sub)`: `sub` occurs in `s` at some offset. */
  predicate Contains(s: string, sub: string) {
    exists i | 0 <= i <= |s| - |sub| :: OccursAt(s, sub, i)
  }

  predicate OccursAt(s: string, sub: string, i: nat)
    requires i + |sub| <= |s|
  {
    s[i..i + |sub|] == sub
  }

  lemma ContainsEmpty(s: string)
    ensures Contains(s, "")
  {
    assert OccursAt(s, "", 0);
  }

  lemma ContainsSelf(s: string)
    ensures Contains(s, s)
  {
    assert OccursAt(s, s, 0);
  }

  /** Lowering commutes with taking a slice. */
  lemma LowerSlice(s: string, i: nat, j: nat)
    requires i <= j <= |s|
    ensures Lower(s)[i..j] == Lower(s[i..j])
  {
  }

  /** A case-sensitive occurrence is also a case-insensitive one. */
  lemma LowerKeepsContains(s: string, sub: string)
    requires Contains(s, sub)
    ensures Contains(Lower(s), Lower(sub))
  {
    var i :| 0 <= i <= |s| - |sub| && OccursAt(s, sub, i);
    LowerSlice(s, i, i + |sub|);
    assert OccursAt(Lower(s), Lower(sub), i);
  }
}

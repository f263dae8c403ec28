/**
 * The string operations the category logic relies on: ASCII `toLowerCase`,
 * the identifier slug `toLowerCase().replace(/[^a-z0-9]/g, '-')`, and the
 * substring test that `String.prototype.includes` performs.
 */
module Text {

  /** Lower-casing of one character; only 'A'..'Z' are changed. */
  function LowerChar(ch: char): (r: char)
    ensures !('A' <= r <= 'Z')
    ensures !('A' <= ch <= 'Z') ==> r == ch
    ensures 'A' <= ch <= 'Z' ==> 'a' <= r <= 'z' && r as int == ch as int + 32
  {
    if 'A' <= ch <= 'Z' then (ch as int - 'A' as int + 'a' as int) as char else ch
  }

  predicate IsLower(s: string) {
    forall i :: 0 <= i < |s| ==> !('A' <= s[i] <= 'Z')
  }

  /** `s.toLowerCase()`, restricted to ASCII letters. */
  function Lower(s: string): (r: string)
    ensures |r| == |s| && IsLower(r)
    ensures forall i :: 0 <= i < |s| ==> r[i] == LowerChar(s[i])
    ensures IsLower(s) ==> r == s
  {
    seq(|s|, i requires 0 <= i < |s| => LowerChar(s[i]))
  }

  /** The characters the slug keeps: `[a-z0-9]`. */
  predicate IsSlugChar(ch: char) {
    'a' <= ch <= 'z' || '0' <= ch <= '9'
  }

  predicate IsSlug(s: string) {
    forall i :: 0 <= i < |s| ==> IsSlugChar(s[i]) || s[i] == '-'
  }

  /**
   * `name.toLowerCase().replace(/[^a-z0-9]/g, '-')`: the global regular
   * expression replaces every single character outside `[a-z0-9]`, so each
   * such character becomes exactly one dash and runs are not collapsed.
   */
  function Slug(name: string): (r: string)
    ensures |r| == |name|
    ensures IsSlug(r)
    ensures r == "" <==> name == ""
  {
    var l := Lower(name);
    seq(|l|, i requires 0 <= i < |l| => if IsSlugChar(l[i]) then l[i] else '-')
  }

  /** A slug is its own slug: deriving an identifier from an identifier changes nothing. */
  lemma SlugIsFixedPoint(name: string)
    ensures Slug(Slug(name)) == Slug(name)
  {
  }

  /** Position by position, a letter or digit survives lower-cased and anything else becomes '-'. */
  lemma SlugAt(name: string, i: nat)
    requires i < |name|
    ensures IsSlugChar(LowerChar(name[i])) ==> Slug(name)[i] == LowerChar(name[i])
    ensures !IsSlugChar(LowerChar(name[i])) ==> Slug(name)[i] == '-'
  {
  }

  /** `s.includes(x)` for a string `s`: `x` occurs in `s` at some position. */
  predicate HasSubstring(s: string, x: string)
    decreases |s|
  {
    (|x| <= |s| && s[..|x|] == x) || (|s| > 0 && HasSubstring(s[1..], x))
  }

  /** Every string contains each of its own substrings, in particular every prefix of every suffix. */
  lemma {:induction false} HasSubstringAt(s: string, i: nat, x: string)
    requires i + |x| <= |s| && s[i..i + |x|] == x
    ensures HasSubstring(s, x)
    decreases i
  {
    if i > 0 {
      assert s[1..][i - 1..i - 1 + |x|] == x;
      HasSubstringAt(s[1..], i - 1, x);
    } else {
      assert s[..|x|] == x;
    }
  }

  /** Conversely, a string found by `includes` occurs at some position. */
  lemma {:induction false} SubstringPosition(s: string, x: string) returns (i: nat)
    requires HasSubstring(s, x)
    ensures i + |x| <= |s| && s[i..i + |x|] == x
    decreases |s|
  {
    if |x| <= |s| && s[..|x|] == x {
      i := 0;
    } else {
      var j := SubstringPosition(s[1..], x);
      assert s[1..][j..j + |x|] == s[j + 1..j + 1 + |x|];
      i := j + 1;
    }
  }

  /** `x` occurs in `s` starting at position `i`. */
  predicate OccursAt(s: string, x: string, i: nat) {
    i + |x| <= |s| && s[i..i + |x|] == x
  }

  /** `includes` holds exactly when `x` occurs at some position of `s`. */
  lemma HasSubstringIff(s: string, x: string)
    ensures HasSubstring(s, x) <==> exists i: nat :: OccursAt(s, x, i)
  {
    if HasSubstring(s, x) {
      var i := SubstringPosition(s, x);
      assert OccursAt(s, x, i);
    }
    if exists i: nat :: OccursAt(s, x, i) {
      var i: nat :| OccursAt(s, x, i);
      HasSubstringAt(s, i, x);
    }
  }
}

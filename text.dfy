/** String primitives the chatbot relies on: ASCII lower-casing and the
    substring test that Python's `in` performs on two strings. */
module Text {

  predicate IsUpper(c: char) {
    'A' <= c <= 'Z'
  }

  /** True when no character of `s` is an upper-case ASCII letter. */
  predicate IsLowerCase(s: string) {
    forall i :: 0 <= i < |s| ==> !IsUpper(s[i])
  }

  /** Lower-cases one character: 'A'..'Z' become 'a'..'z', everything else is kept. */
  function LowerChar(c: char): (r: char)
    ensures !IsUpper(r)
    ensures !IsUpper(c) ==> r == c
  {
    if IsUpper(c) then (c as int - 'A' as int + 'a' as int) as char else c
  }

  const Uppers := "ABCDEFGHIJKLMNOPQRSTUVWXYZ"
  const Lowers := "abcdefghijklmnopqrstuvwxyz"

  /** Each capital letter becomes its own lower-case letter, in alphabet order. */
  lemma LowerLetters()
    ensures forall k :: 0 <= k < |Uppers| ==> LowerChar(Uppers[k]) == Lowers[k]
  {
  }

  /** Lower-cases a whole string character by character; the length never changes. */
  function Lower(s: string): (r: string)
    ensures |r| == |s|
    ensures IsLowerCase(r)
  {
    seq(|s|, i requires 0 <= i < |s| => LowerChar(s[i]))
  }

  /** Lower-casing leaves a string alone exactly when it has no upper-case letter. */
  lemma LowerFixedPoint(s: string)
    ensures Lower(s) == s <==> IsLowerCase(s)
  {
  }

  /** Lower-casing twice is lower-casing once. */
  lemma LowerIdempotent(s: string)
    ensures Lower(Lower(s)) == Lower(s)
  {
  }

  /** Lower-casing commutes with taking a slice. */
  lemma LowerSlice(s: string, i: nat, j: nat)
    requires i <= j <= |s|
    ensures Lower(s)[i..j] == Lower(s[i..j])
  {
  }

  /** `sub` occurs in `s` starting at index `i`. */
  ghost predicate OccursAt(s: string, sub: string, i: nat) {
    i + |sub| <= |s| && s[i..i + |sub|] == sub
  }

  /** Python's `sub in s` on strings: scans `s` for the first place where `sub` is a prefix.
      The empty string is contained in every string. */
  function Contains(s: string, sub: string): (r: bool)
    ensures r ==> |sub| <= |s|
    ensures sub <= s ==> r
    decreases |s|
  {
    if |sub| > |s| then false
    else if sub <= s then true
    else Contains(s[1..], sub)
  }

  /** Slicing the tail of `s` is slicing `s` one place further on. */
  lemma TailSlice(s: string, a: nat, b: nat)
    requires 1 <= a <= b <= |s|
    ensures s[1..][a - 1..b - 1] == s[a..b]
  {
  }

  /** The scan finds `sub` exactly when `sub` occurs somewhere in `s`. */
  lemma {:induction false} ContainsIff(s: string, sub: string)
    ensures Contains(s, sub) <==> exists i: nat :: OccursAt(s, sub, i)
    decreases |s|
  {
    if |sub| > |s| {
      forall i: nat ensures !OccursAt(s, sub, i) { }
    } else if sub <= s {
      assert OccursAt(s, sub, 0);
    } else {
      ContainsIff(s[1..], sub);
      assert !OccursAt(s, sub, 0);
      forall i: nat | 0 < i
        ensures OccursAt(s, sub, i) <==> OccursAt(s[1..], sub, i - 1)
      {
        if i + |sub| <= |s| {
          TailSlice(s, i, i + |sub|);
        }
      }
      if Contains(s[1..], sub) {
        var i: nat :| OccursAt(s[1..], sub, i);
        assert OccursAt(s, sub, i + 1);
      }
    }
  }

  /** An occurrence at a known position is found by the scan. */
  lemma ContainsAt(s: string, sub: string, i: nat)
    requires i + |sub| <= |s| && s[i..i + |sub|] == sub
    ensures Contains(s, sub)
  {
    assert OccursAt(s, sub, i);
    ContainsIff(s, sub);
  }

  /** Every character of a contained string occurs in the containing one; so a string that
      lacks one of the characters of `sub` cannot contain `sub`. */
  lemma ContainsHasChars(s: string, sub: string, k: nat)
    requires k < |sub|
    ensures Contains(s, sub) ==> sub[k] in s
  {
    ContainsIff(s, sub);
    if Contains(s, sub) {
      var i: nat :| OccursAt(s, sub, i);
      assert s[i..i + |sub|][k] == s[i + k];
    }
  }

  /** A string always contains itself, and whatever surrounds an occurrence keeps it. */
  lemma ContainsMiddle(pre: string, sub: string, post: string)
    ensures Contains(pre + sub + post, sub)
  {
    var s := pre + sub + post;
    assert s[|pre|..|pre| + |sub|] == sub;
    assert OccursAt(s, sub, |pre|);
    ContainsIff(s, sub);
  }

  /** A substring found in any spelling is found again, lower-cased, in the lower-cased text:
      lower-casing never destroys a match. */
  lemma ContainsLower(s: string, sub: string)
    requires Contains(s, sub)
    ensures Contains(Lower(s), Lower(sub))
  {
    ContainsIff(s, sub);
    var i: nat :| OccursAt(s, sub, i);
    LowerSlice(s, i, i + |sub|);
    ContainsAt(Lower(s), Lower(sub), i);
  }
}

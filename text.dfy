/** The one string primitive the extension relies on: `String.prototype.includes`. */
module Text {

  /** `sub` occurs in `s` starting at index `i`. */
  predicate OccursAt(s: string, sub: string, i: int)
  {
    0 <= i && i + |sub| <= |s| && s[i..i + |sub|] == sub
  }

  /** `s.includes(sub)`: true exactly when `sub` occurs somewhere in `s`
      (so every string includes the empty string). */
  function Includes(s: string, sub: string): (b: bool)
    ensures b <==> exists i :: OccursAt(s, sub, i)
    decreases |s|
  {
    if |s| < |sub| then
      false
    else if s[..|sub|] == sub then
      assert OccursAt(s, sub, 0);
      true
    else
      var rest := Includes(s[1..], sub);
      assert forall j :: OccursAt(s[1..], sub, j) ==> OccursAt(s, sub, j + 1);
      assert forall j :: OccursAt(s, sub, j) ==> j != 0 && OccursAt(s[1..], sub, j - 1);
      rest
  }

  /** A string that lacks one of the characters of `sub` does not include `sub`. */
  lemma MissingCharExcludes(s: string, sub: string, c: char)
    requires c in sub && c !in s
    ensures !Includes(s, sub)
  {
  }
}

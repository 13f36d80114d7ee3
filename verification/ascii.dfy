/** ASCII-only case mapping, the way `str::to_ascii_lowercase` does it:
    'A'..'Z' become 'a'..'z' and every other character is left alone
    (no Unicode case folding). */
module Ascii {

  predicate IsUpper(c: char) {
    'A' <= c <= 'Z'
  }

  /** No ASCII capital letter occurs in `s`. */
  predicate NoUpper(s: string) {
    forall i :: 0 <= i < |s| ==> !IsUpper(s[i])
  }

  /** `x` and `y` are the same character once ASCII case is ignored:
      equal, or one is a capital letter and the other its small letter. */
  predicate SameIgnoringCase(x: char, y: char) {
    || x == y
    || (IsUpper(x) && y as int == x as int + 32)
    || (IsUpper(y) && x as int == y as int + 32)
  }

  function ToLowerChar(c: char): (r: char)
    ensures !IsUpper(r)
    ensures SameIgnoringCase(c, r)
    ensures !IsUpper(c) ==> r == c
  {
    if IsUpper(c) then (c as int - 'A' as int + 'a' as int) as char else c
  }

  /** `to_ascii_lowercase` on a string. */
  function ToLower(s: string): (r: string)
    ensures |r| == |s|
    ensures NoUpper(r)
    ensures forall i :: 0 <= i < |s| ==> SameIgnoringCase(s[i], r[i])
  {
    seq(|s|, i requires 0 <= i < |s| => ToLowerChar(s[i]))
  }

  /** Two characters lower to the same character exactly when they are the
      same letter up to ASCII case. */
  lemma ToLowerCharAgrees(x: char, y: char)
    ensures ToLowerChar(x) == ToLowerChar(y) <==> SameIgnoringCase(x, y)
  {
  }

  /** Two strings lower to the same string exactly when they have the same
      length and agree character by character up to ASCII case. */
  lemma ToLowerAgrees(a: string, b: string)
    ensures ToLower(a) == ToLower(b) <==>
            |a| == |b| && forall i :: 0 <= i < |a| ==> SameIgnoringCase(a[i], b[i])
  {
    forall i | 0 <= i < |a| && i < |b| {
      ToLowerCharAgrees(a[i], b[i]);
    }
  }

  /** Lowering leaves a string unchanged exactly when it has no capital. */
  lemma ToLowerFixes(s: string)
    ensures ToLower(s) == s <==> NoUpper(s)
  {
  }

  lemma ToLowerIdempotent(s: string)
    ensures ToLower(ToLower(s)) == ToLower(s)
  {
  }

  /** A string holding an ASCII capital is never the lowered form of any
      input. */
  lemma NeverLowersTo(tok: string, s: string)
    requires !NoUpper(tok)
    ensures ToLower(s) != tok
  {
  }
}

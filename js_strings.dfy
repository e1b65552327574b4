/** The string operations the URL classifier uses, on strings as sequences of characters. */
module JsStrings {
  /** `sub` occurs in `s` starting at position `i`. */
  predicate StartsAt(s: string, i: nat, sub: string) {
    i + |sub| <= |s| && s[i..i + |sub|] == sub
  }

  /** `s.includes(sub)`. */
  predicate Includes(s: string, sub: string) {
    exists i: nat | i <= |s| :: StartsAt(s, i, sub)
  }

  /** The number of occurrences of the character `c` in `s`. */
  function Occurrences(s: string, c: char): nat {
    multiset(s)[c]
  }
}

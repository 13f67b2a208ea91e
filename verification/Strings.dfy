/** Searching in text. */
module Strings {

  predicate StartsWith(s: string, w: string)
  {
    w <= s
  }

  predicate Occurs(s: string, w: string, i: int)
  {
    0 <= i <= |s| - |w| && s[i..i + |w|] == w
  }

  predicate Contains(s: string, w: string)
  {
    exists i :: 0 <= i <= |s| - |w| && Occurs(s, w, i)
  }
}

/** Case folding and substring search, as `toLowerCase` and `includes` are used by the filters. */
module Text {

  /** Lower-cases one ASCII letter; every other character is left alone. */
  function LowerChar(c: char): (r: char)
    ensures 'A' <= c <= 'Z' ==> 'a' <= r <= 'z'
    ensures !('A' <= c <= 'Z') ==> r == c
  {
    if 'A' <= c <= 'Z' then (c as int + 32) as char else c
  }

  /** `s.toLowerCase()`, restricted to ASCII letters. */
  function Lower(s: string): (r: string)
    ensures |r| == |s|
    ensures forall i :: 0 <= i < |s| ==> r[i] == LowerChar(s[i])
  {
    seq(|s|, i requires 0 <= i < |s| => LowerChar(s[i]))
  }

  /** `s.includes(sub)`: `sub` occurs in `s` as a contiguous block. */
  predicate Contains(s: string, sub: string)
    decreases |s|
  {
    sub <= s || (s != [] && Contains(s[1..], sub))
  }

  /** Contains agrees with the textbook definition of an occurrence at some index. */
  lemma {:induction false} ContainsAt(s: string, sub: string)
    ensures Contains(s, sub) <==> exists i :: 0 <= i <= |s| && sub <= s[i..]
    decreases |s|
  {
    if sub <= s {
      assert s[0..] == s;
    } else if s != [] {
      ContainsAt(s[1..], sub);
      if exists i :: 0 <= i <= |s[1..]| && sub <= s[1..][i..] {
        var i :| 0 <= i <= |s[1..]| && sub <= s[1..][i..];
        assert s[1..][i..] == s[i + 1..];
      }
      if exists i :: 0 <= i <= |s| && sub <= s[i..] {
        var i :| 0 <= i <= |s| && sub <= s[i..];
        assert i != 0 by { assert s[0..] == s; }
        assert s[1..][i - 1..] == s[i..];
      }
    }
  }
}

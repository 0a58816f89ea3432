/**
 * The glob patterns that Redis `KEYS` accepts, restricted to `*` (any run of
 * characters), `?` (one character), backslash escapes and literal characters.
 */
module Glob {

  /** A character that a Redis glob pattern does not read literally. */
  predicate IsMeta(c: char)
  {
    c == '*' || c == '?' || c == '[' || c == '\\'
  }

  /** `s` matches only itself when read as a pattern. */
  predicate NoMeta(s: string)
  {
    forall i :: 0 <= i < |s| ==> !IsMeta(s[i])
  }

  /** Whether key `s` matches `pattern`. A backslash as the last pattern character matches itself. */
  predicate Match(pattern: string, s: string)
    decreases |pattern| + |s|
  {
    if |pattern| == 0 then |s| == 0
    else if pattern[0] == '*' then Match(pattern[1..], s) || (|s| > 0 && Match(pattern, s[1..]))
    else if pattern[0] == '?' then |s| > 0 && Match(pattern[1..], s[1..])
    else if pattern[0] == '\\' && |pattern| >= 2 then |s| > 0 && s[0] == pattern[1] && Match(pattern[2..], s[1..])
    else |s| > 0 && s[0] == pattern[0] && Match(pattern[1..], s[1..])
  }

  /** The pattern `*` matches every key. */
  lemma {:induction false} StarMatchesAll(s: string)
    ensures Match("*", s)
  {
    if |s| > 0 {
      StarMatchesAll(s[1..]);
    }
  }

  /**
   * A pattern that starts with a literal part matches exactly the keys that
   * start with that part and continue with a match of the rest.
   */
  lemma {:induction false} LiteralHead(lit: string, rest: string, s: string)
    requires NoMeta(lit)
    ensures Match(lit + rest, s) <==> |lit| <= |s| && s[..|lit|] == lit && Match(rest, s[|lit|..])
  {
    if |lit| == 0 {
      assert lit + rest == rest;
      assert s[..0] == lit;
      assert s[0..] == s;
    } else {
      var p := lit + rest;
      assert p[0] == lit[0] && !IsMeta(lit[0]);
      assert p[1..] == lit[1..] + rest;
      assert NoMeta(lit[1..]) by {
        forall i | 0 <= i < |lit[1..]| ensures !IsMeta(lit[1..][i]) { assert lit[1..][i] == lit[i + 1]; }
      }
      if |s| > 0 {
        LiteralHead(lit[1..], rest, s[1..]);
        if |lit| <= |s| {
          assert s[1..][|lit| - 1..] == s[|lit|..];
          assert s[..|lit|] == [s[0]] + s[1..][..|lit| - 1];
          assert lit == [lit[0]] + lit[1..];
        }
      }
    }
  }
}

/** Shell-style name matching as Go's `filepath.Match` does it, for patterns
    made of literal characters, `*` (any run of non-'/' characters) and `?`
    (one non-'/' character). */
module Glob {
  import opened Strings

  predicate Match(pattern: string, name: string)
    decreases |pattern| + |name|
  {
    if |pattern| == 0 then |name| == 0
    else if pattern[0] == '*' then
      Match(pattern[1..], name) || (|name| > 0 && name[0] != '/' && Match(pattern, name[1..]))
    else
      && |name| > 0
      && (if pattern[0] == '?' then name[0] != '/' else name[0] == pattern[0])
      && Match(pattern[1..], name[1..])
  }

  /** Neither `*` nor `?` crosses a '/', so a pattern holding a '/' only
      matches names holding one. */
  lemma {:induction false} MatchNeedsSlash(pattern: string, name: string)
    requires '/' in pattern
    requires Match(pattern, name)
    ensures '/' in name
    decreases |pattern| + |name|
  {
    var i :| 0 <= i < |pattern| && pattern[i] == '/';
    if pattern[0] == '*' {
      if Match(pattern[1..], name) {
        assert pattern[1..][i - 1] == '/';
        MatchNeedsSlash(pattern[1..], name);
      } else {
        MatchNeedsSlash(pattern, name[1..]);
        var j :| 0 <= j < |name[1..]| && name[1..][j] == '/';
        assert name[j + 1] == '/';
      }
    } else if pattern[0] != '/' {
      assert pattern[1..][i - 1] == '/';
      MatchNeedsSlash(pattern[1..], name[1..]);
      var j :| 0 <= j < |name[1..]| && name[1..][j] == '/';
      assert name[j + 1] == '/';
    }
  }

  /** Two adjacent stars match exactly what one star matches. */
  lemma {:induction false} DoubleStar(rest: string, name: string)
    ensures Match("**" + rest, name) == Match("*" + rest, name)
    decreases |name|
  {
    var p2 := "**" + rest;
    var p1 := "*" + rest;
    assert p2[1..] == p1;
    assert p1[1..] == rest;
    if |name| > 0 && name[0] != '/' {
      DoubleStar(rest, name[1..]);
    }
  }

  lemma {:induction false} PrefixCongruence(c: char, x: string, y: string, name: string)
    requires forall t :: Match(x, t) == Match(y, t)
    ensures Match([c] + x, name) == Match([c] + y, name)
    decreases |name|
  {
    assert ([c] + x)[1..] == x;
    assert ([c] + y)[1..] == y;
    if c == '*' && |name| > 0 && name[0] != '/' {
      PrefixCongruence(c, x, y, name[1..]);
    }
  }

  /** Rewriting every `**` to `*` never changes what a pattern matches. */
  lemma {:induction false} CollapseStars(pattern: string, name: string)
    ensures Match(ReplaceAll(pattern, "**", "*"), name) == Match(pattern, name)
    decreases |pattern|
  {
    if HasPrefix(pattern, "**") {
      var rest := pattern[2..];
      forall t ensures Match(ReplaceAll(rest, "**", "*"), t) == Match(rest, t) {
        CollapseStars(rest, t);
      }
      assert ReplaceAll(pattern, "**", "*") == ['*'] + ReplaceAll(rest, "**", "*");
      PrefixCongruence('*', ReplaceAll(rest, "**", "*"), rest, name);
      DoubleStar(rest, name);
      assert pattern == "**" + rest;
    } else if |pattern| > 0 {
      var rest := pattern[1..];
      forall t ensures Match(ReplaceAll(rest, "**", "*"), t) == Match(rest, t) {
        CollapseStars(rest, t);
      }
      assert ReplaceAll(pattern, "**", "*") == [pattern[0]] + ReplaceAll(rest, "**", "*");
      PrefixCongruence(pattern[0], ReplaceAll(rest, "**", "*"), rest, name);
      assert pattern == [pattern[0]] + rest;
    }
  }
}

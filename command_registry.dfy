/**
 * The shape shared by both command tables of the rex-* tools: a tool name
 * (`mongo`, `redis`, `git`) maps to its actions, and each action to a shell
 * command template. Templates are plain strings; a `{{dbname}}` token marks
 * where a caller is expected to splice in a database name. No substitution
 * routine exists in the modelled code, so only lookup is modelled here.
 */
module CommandRegistry {
  import opened Wrappers

  /** tool -> action -> template */
  type Registry = map<string, map<string, string>>

  /** The placeholder token that the mongo templates carry. */
  const DbNameToken: string := "{{dbname}}"

  /**
   * Looks up the template registered for `tool` and `action`; `None` when
   * either key is missing.
   */
  function Lookup(table: Registry, tool: string, action: string): (r: Option<string>)
    ensures r.Some? <==> tool in table && action in table[tool]
    ensures r.Some? ==> r.value == table[tool][action]
  {
    if tool in table && action in table[tool] then Some(table[tool][action]) else None
  }

  /** Number of positions at which `pat` starts in `s` (overlaps included). */
  function Occurrences(s: string, pat: string): (n: nat)
    requires pat != ""
    ensures n <= |s|
    decreases |s|
  {
    if |s| < |pat| then 0
    else (if s[..|pat|] == pat then 1 else 0) + Occurrences(s[1..], pat)
  }

  /** A pattern that opens with `{{`, as every placeholder token does. */
  predicate OpensWithDoubleBrace(pat: string)
  {
    |pat| >= 2 && pat[0] == '{' && pat[1] == '{'
  }

  /**
   * A text that cannot take part in a `{{` token: no `{` after its first
   * character, and a leading `{` is followed by at least one character.
   */
  predicate BraceSafe(s: string)
  {
    && (forall i :: 0 < i < |s| ==> s[i] != '{')
    && (s != [] && s[0] == '{' ==> |s| >= 2)
  }

  /** A brace-safe prefix adds no occurrence of a `{{` token. */
  lemma {:induction false} BraceSafePrefix(a: string, rest: string, pat: string)
    requires OpensWithDoubleBrace(pat)
    requires BraceSafe(a)
    ensures Occurrences(a + rest, pat) == Occurrences(rest, pat)
    decreases |a|
  {
    if a != [] {
      var s := a + rest;
      if |s| >= |pat| {
        if a[0] == '{' {
          assert s[..|pat|][1] == a[1];
        } else {
          assert s[..|pat|][0] == a[0];
        }
      }
      assert s[1..] == a[1..] + rest;
      assert BraceSafe(a[1..]) by {
        forall i | 0 <= i < |a[1..]| ensures a[1..][i] != '{' {
          assert a[1..][i] == a[i + 1];
        }
      }
      BraceSafePrefix(a[1..], rest, pat);
    } else {
      assert a + rest == rest;
    }
  }

  /** A token at the front counts once when the rest of the token is brace-safe. */
  lemma TokenPrefix(pat: string, rest: string)
    requires OpensWithDoubleBrace(pat) && BraceSafe(pat[1..])
    ensures Occurrences(pat + rest, pat) == 1 + Occurrences(rest, pat)
  {
    var s := pat + rest;
    assert s[..|pat|] == pat;
    assert s[1..] == pat[1..] + rest;
    BraceSafePrefix(pat[1..], rest, pat);
  }

  /** The `{{dbname}}` token opens with `{{`, and the text after its first `{` is brace-safe. */
  lemma DbNameTokenShape()
    ensures OpensWithDoubleBrace(DbNameToken) && BraceSafe(DbNameToken[1..])
  {
  }

  /** A brace-safe text holds no `{{` token. */
  lemma BraceSafeTokenFree(s: string, pat: string)
    requires OpensWithDoubleBrace(pat) && BraceSafe(s)
    ensures Occurrences(s, pat) == 0
  {
  }

  /** A brace-safe head, then a `{{` token, then a token-free tail: exactly one token. */
  lemma TokenOnce(head: string, pat: string, tail: string)
    requires OpensWithDoubleBrace(pat) && BraceSafe(pat[1..])
    requires BraceSafe(head)
    requires Occurrences(tail, pat) == 0
    ensures Occurrences(head + pat + tail, pat) == 1
  {
    TokenPrefix(pat, tail);
    BraceSafePrefix(head, pat + tail, pat);
    assert head + pat + tail == head + (pat + tail);
  }

  /**
   * A template laid out as a brace-safe head, a `{{` token and two
   * brace-safe pieces carries the token exactly once.
   */
  lemma TokenOnceTwo(head: string, pat: string, p1: string, p2: string)
    requires OpensWithDoubleBrace(pat) && BraceSafe(pat[1..])
    requires BraceSafe(head) && BraceSafe(p1) && BraceSafe(p2)
    ensures Occurrences(head + pat + p1 + p2, pat) == 1
  {
    BraceSafeTokenFree(p2, pat);
    BraceSafePrefix(p1, p2, pat);
    TokenOnce(head, pat, p1 + p2);
    Regroup2(head + pat, p1, p2);
  }

  /** As `TokenOnceTwo`, for five pieces. */
  lemma TokenOnceFive(head: string, pat: string, p1: string, p2: string, p3: string, p4: string, p5: string)
    requires OpensWithDoubleBrace(pat) && BraceSafe(pat[1..])
    requires BraceSafe(head) && BraceSafe(p1) && BraceSafe(p2) && BraceSafe(p3)
    requires BraceSafe(p4) && BraceSafe(p5)
    ensures Occurrences(head + pat + p1 + p2 + p3 + p4 + p5, pat) == 1
  {
    var r4 := p4 + p5;
    var r3 := p3 + r4;
    var r2 := p2 + r3;
    var r1 := p1 + r2;
    BraceSafeTokenFree(p5, pat);
    BraceSafePrefix(p4, p5, pat);
    BraceSafePrefix(p3, r4, pat);
    BraceSafePrefix(p2, r3, pat);
    BraceSafePrefix(p1, r2, pat);
    TokenOnce(head, pat, r1);
    Regroup(head + pat, p1, p2, p3, p4, p5);
  }

  /** Regrouping a left-nested concatenation to the right. */
  lemma Regroup2(a: string, p1: string, p2: string)
    ensures a + p1 + p2 == a + (p1 + p2)
  {
  }

  /** Regrouping a left-nested concatenation to the right. */
  lemma Regroup(a: string, p1: string, p2: string, p3: string, p4: string, p5: string)
    ensures a + p1 + p2 + p3 + p4 + p5 == a + (p1 + (p2 + (p3 + (p4 + p5))))
  {
  }
}

/**
 * `Criteria.escapeCriteriaValue`: every reserved token of the query syntax
 * is replaced by its backslash form, in one left-to-right pass
 * (`StringUtils.replaceEach` with the RESERVED_CHARS / RESERVED_CHARS_REPLACEMENT
 * tables).  No two reserved tokens start with the same character, so at each
 * position at most one token matches and the pass never rescans what it inserted.
 */
module Escaping {
  import opened Common

  /** RESERVED_CHARS, in the source's table order. */
  const ReservedTokens: seq<string> :=
    ["\"", "+", "-", "&&", "||", "!", "(", ")", "{", "}", "[", "]", "^", "~", "*", "?", ":", "\\"]

  /** RESERVED_CHARS_REPLACEMENT, position by position. */
  const Replacements: seq<string> :=
    ["\\\"", "\\+", "\\-", "\\&\\&", "\\|\\|", "\\!", "\\(", "\\)", "\\{", "\\}", "\\[", "\\]",
     "\\^", "\\~", "\\*", "\\?", "\\:", "\\\\"]

  /** Every character of `t` preceded by a backslash. */
  function Backslashed(t: string): (r: string)
    ensures |r| == 2 * |t|
  {
    if t == [] then [] else ['\\', t[0]] + Backslashed(t[1..])
  }

  /** The two tables agree: each replacement is its token with every character backslashed. */
  lemma ReplacementsAreBackslashed()
    ensures |Replacements| == |ReservedTokens|
    ensures forall k :: 0 <= k < |ReservedTokens| ==>
              |ReservedTokens[k]| > 0 && Replacements[k] == Backslashed(ReservedTokens[k])
  {
    forall k | 0 <= k < |ReservedTokens|
      ensures |ReservedTokens[k]| > 0 && Replacements[k] == Backslashed(ReservedTokens[k])
    {
      var t := ReservedTokens[k];
      assert Backslashed(t[1..]) == if |t| == 1 then [] else ['\\', t[1]];
    }
  }

  /** One row of the tables. */
  lemma TableRow(k: nat)
    requires k < |ReservedTokens|
    ensures k < |Replacements| && |ReservedTokens[k]| > 0
    ensures Replacements[k] == Backslashed(ReservedTokens[k])
  {
    ReplacementsAreBackslashed();
  }

  /** The first token, in table order from index `k`, that `s` starts with. */
  function TokenFrom(s: string, k: nat): (r: Option<nat>)
    decreases |ReservedTokens| - k
    ensures r.Some? ==> k <= r.value < |ReservedTokens| && ReservedTokens[r.value] <= s
    ensures r.None? ==> forall j :: k <= j < |ReservedTokens| ==> !(ReservedTokens[j] <= s)
  {
    if k >= |ReservedTokens| then None
    else if ReservedTokens[k] <= s then Some(k)
    else TokenFrom(s, k + 1)
  }

  /** The reserved token `s` starts with, if any. */
  function TokenAt(s: string): Option<nat>
  {
    TokenFrom(s, 0)
  }

  /** No reserved token starts anywhere in `s`. */
  predicate NoReservedToken(s: string)
  {
    forall i :: 0 <= i < |s| ==> TokenAt(s[i..]).None?
  }

  /** escapeCriteriaValue */
  function Escape(s: string): (r: string)
    ensures |s| <= |r|
    ensures r == [] <==> s == []
    decreases |s|
  {
    if s == [] then []
    else
      match TokenAt(s)
      case Some(k) =>
        TableRow(k);
        Replacements[k] + Escape(s[|ReservedTokens[k]|..])
      case None => [s[0]] + Escape(s[1..])
  }

  /** Reading a backslash-escaped text back: `\x` stands for `x`. */
  function Unescape(s: string): string
    decreases |s|
  {
    if s == [] then []
    else if s[0] == '\\' && |s| >= 2 then [s[1]] + Unescape(s[2..])
    else [s[0]] + Unescape(s[1..])
  }

  lemma {:induction false} UnescapeBackslashed(t: string, rest: string)
    ensures Unescape(Backslashed(t) + rest) == t + Unescape(rest)
  {
    if t != [] {
      calc {
        Unescape(Backslashed(t) + rest);
        { assert Backslashed(t) + rest == ['\\', t[0]] + (Backslashed(t[1..]) + rest); }
        [t[0]] + Unescape(Backslashed(t[1..]) + rest);
        { UnescapeBackslashed(t[1..], rest); }
        [t[0]] + (t[1..] + Unescape(rest));
        { assert [t[0]] + t[1..] == t; }
        t + Unescape(rest);
      }
    } else {
      assert Backslashed(t) + rest == rest;
    }
  }

  /** A position where no token starts does not hold a backslash (the backslash is itself reserved). */
  lemma NoTokenNoBackslash(s: string)
    requires s != [] && TokenAt(s).None?
    ensures s[0] != '\\'
  {
    assert !(ReservedTokens[17] <= s);
  }

  /** Escaping loses nothing: unescaping the escaped text gives the original back. */
  lemma {:induction false} EscapeRoundTrip(s: string)
    ensures Unescape(Escape(s)) == s
    decreases |s|
  {
    if s != [] {
      match TokenAt(s)
      case Some(k) =>
        TableRow(k);
        var t := ReservedTokens[k];
        var rest := s[|t|..];
        assert Escape(s) == Backslashed(t) + Escape(rest);
        UnescapeBackslashed(t, Escape(rest));
        EscapeRoundTrip(rest);
        assert t + rest == s;
      case None =>
        NoTokenNoBackslash(s);
        EscapeRoundTrip(s[1..]);
        assert Escape(s) == [s[0]] + Escape(s[1..]);
        assert [s[0]] + s[1..] == s;
    }
  }

  /** So escaping is injective: distinct inputs never escape to the same text. */
  lemma EscapeInjective(s: string, t: string)
    requires Escape(s) == Escape(t)
    ensures s == t
  {
    EscapeRoundTrip(s);
    EscapeRoundTrip(t);
  }

  /** Escaping never shortens; it keeps the length exactly when no reserved token occurs. */
  lemma {:induction false} EscapeLength(s: string)
    ensures |Escape(s)| >= |s|
    ensures |Escape(s)| == |s| ==> NoReservedToken(s)
    decreases |s|
  {
    if s != [] {
      match TokenAt(s)
      case Some(k) =>
        TableRow(k);
        EscapeLength(s[|ReservedTokens[k]|..]);
      case None =>
        EscapeLength(s[1..]);
        if |Escape(s)| == |s| {
          forall i | 0 <= i < |s| ensures TokenAt(s[i..]).None? {
            if i > 0 { assert s[i..] == s[1..][i - 1..]; }
          }
        }
    }
  }

  /** A string without reserved tokens is returned unchanged. */
  lemma {:induction false} EscapeIdentity(s: string)
    requires NoReservedToken(s)
    ensures Escape(s) == s
    decreases |s|
  {
    if s != [] {
      assert TokenAt(s[0..]).None?;
      assert s[0..] == s;
      assert NoReservedToken(s[1..]) by {
        forall i | 0 <= i < |s[1..]| ensures TokenAt(s[1..][i..]).None? {
          assert s[1..][i..] == s[i + 1..];
        }
      }
      EscapeIdentity(s[1..]);
      assert [s[0]] + s[1..] == s;
    }
  }

  /** Both directions: escaping is the identity exactly on strings without reserved tokens. */
  lemma EscapeFixpoint(s: string)
    ensures Escape(s) == s <==> NoReservedToken(s)
  {
    EscapeLength(s);
    if NoReservedToken(s) { EscapeIdentity(s); }
  }

  /** The characters a reserved token can start with. */
  const ReservedStarts: set<char> :=
    {'"', '+', '-', '&', '|', '!', '(', ')', '{', '}', '[', ']', '^', '~', '*', '?', ':', '\\'}

  /** A string none of whose characters can start a token has no reserved token. */
  lemma NoReservedStart(s: string)
    requires forall i :: 0 <= i < |s| ==> s[i] !in ReservedStarts
    ensures NoReservedToken(s)
  {
    forall i | 0 <= i < |s| ensures TokenAt(s[i..]).None? {
      TokenStart(s[i..]);
    }
  }

  /** A token starts with one of the reserved starting characters. */
  lemma TokenStart(t: string)
    ensures TokenAt(t).Some? ==> t != [] && t[0] in ReservedStarts
  {
    if TokenAt(t).Some? {
      TableRow(TokenAt(t).value);
    }
  }
}

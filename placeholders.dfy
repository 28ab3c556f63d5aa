/**
 * `StringBasedElasticSearchQuery`: a repository method's query string with
 * `?n` placeholders.  The pattern matcher walks the ORIGINAL string; for
 * each placeholder found, every occurrence of that literal token in the
 * current result is replaced by the rendered n-th parameter.
 */
module Placeholders {
  import opened Common
  import opened Entries
  import opened Criterias
  import opened Queries

  /** A bound parameter: null, or a value together with the text it renders to. */
  datatype Param = NullParam | Bound(rendered: string)

  /** getParameterWithIndex's rendering: null renders as "null". */
  function Render(p: Param): (r: string)
    ensures p.NullParam? ==> r == "null"
  {
    match p
    case NullParam => "null"
    case Bound(s) => s
  }

  /** `\d` of java.util.regex without Unicode classes. */
  predicate IsDigit(c: char)
  {
    '0' <= c <= '9'
  }

  /** The length of the run of digits `s` starts with (the greedy `\d+`). */
  function DigitRun(s: string): (n: nat)
    ensures n <= |s|
    ensures forall k :: 0 <= k < n ==> IsDigit(s[k])
    ensures n < |s| ==> !IsDigit(s[n])
  {
    if s == [] || !IsDigit(s[0]) then 0 else 1 + DigitRun(s[1..])
  }

  /** PARAMETER_PLACEHOLDER `\?(\d+)` can start at position i. */
  predicate PlaceholderAt(s: string, i: nat)
  {
    i + 1 < |s| && s[i] == '?' && IsDigit(s[i + 1])
  }

  /** Matcher.find from position `from`: the first position where a placeholder starts. */
  function NextPlaceholder(s: string, from: nat): (r: Option<nat>)
    requires from <= |s|
    decreases |s| - from
    ensures r.Some? ==> from <= r.value < |s| && PlaceholderAt(s, r.value)
    ensures r.Some? ==> forall k :: from <= k < r.value ==> !PlaceholderAt(s, k)
    ensures r.None? ==> forall k :: from <= k < |s| ==> !PlaceholderAt(s, k)
  {
    if from == |s| then None
    else if PlaceholderAt(s, from) then Some(from)
    else NextPlaceholder(s, from + 1)
  }

  /** Where the placeholder starting at i ends: after its last digit. */
  function PlaceholderEnd(s: string, i: nat): (e: nat)
    requires PlaceholderAt(s, i)
    ensures i + 2 <= e <= |s|
    ensures forall k :: i + 1 <= k < e ==> IsDigit(s[k])
    ensures e < |s| ==> !IsDigit(s[e])
  {
    i + 1 + DigitRun(s[i + 1..])
  }

  /** The decimal value of a digit string. */
  function DigitsValue(ds: string): nat
    requires forall k :: 0 <= k < |ds| ==> IsDigit(ds[k])
  {
    if ds == [] then 0
    else
      assert IsDigit(ds[|ds| - 1]);
      10 * DigitsValue(ds[..|ds| - 1]) + (ds[|ds| - 1] as int - '0' as int)
  }

  /** Integer.MAX_VALUE */
  const MaxInt: nat := 0x7FFF_FFFF

  /** Integer.parseInt on a digit string: values beyond the int range fail. */
  function ParseIndex(ds: string): (r: Result<nat>)
    requires forall k :: 0 <= k < |ds| ==> IsDigit(ds[k])
    ensures r.Ok? <==> DigitsValue(ds) <= MaxInt
    ensures r.Ok? ==> r.value == DigitsValue(ds)
    ensures r.Err? ==> r.error == NumberFormat
  {
    var v := DigitsValue(ds);
    if v > MaxInt then Err(NumberFormat) else Ok(v)
  }

  /** `t` occurs in `s` at position i. */
  predicate OccursAt(s: string, t: string, i: nat)
  {
    i <= |s| && t <= s[i..]
  }

  /** String.replace(target, replacement): every occurrence, left to right, without overlaps. */
  function ReplaceAll(s: string, t: string, rep: string): string
    requires t != []
    decreases |s|
  {
    if s == [] then []
    else if t <= s then rep + ReplaceAll(s[|t|..], t, rep)
    else [s[0]] + ReplaceAll(s[1..], t, rep)
  }

  /** The parameter a placeholder names, rendered; an index beyond the parameters fails. */
  function ParamText(params: seq<Param>, index: nat): (r: Result<string>)
    ensures r.Ok? <==> index < |params|
    ensures r.Ok? ==> r.value == Render(params[index])
    ensures r.Err? ==> r.error == IndexOutOfBounds
  {
    if index < |params| then Ok(Render(params[index])) else Err(IndexOutOfBounds)
  }

  /**
   * The substitution from position `from` of the original input on, with
   * `result` the text substituted so far.
   */
  function SubstituteFrom(input: string, from: nat, result: string, params: seq<Param>): Result<string>
    requires from <= |input|
    decreases |input| - from
  {
    match NextPlaceholder(input, from)
    case None => Ok(result)
    case Some(i) =>
      var e := PlaceholderEnd(input, i);
      var index :- ParseIndex(input[i + 1..e]);
      var text :- ParamText(params, index);
      SubstituteFrom(input, e, ReplaceAll(result, input[i..e], text), params)
  }

  /** replacePlaceholders */
  function Substitute(input: string, params: seq<Param>): Result<string>
  {
    SubstituteFrom(input, 0, input, params)
  }

  /** replacePlaceholders as the loop over the matcher's finds. */
  method ReplacePlaceholders(input: string, params: seq<Param>) returns (r: Result<string>)
    ensures r == Substitute(input, params)
  {
    var result := input;
    var pos := 0;
    var next := NextPlaceholder(input, pos);
    while next.Some?
      invariant pos <= |input|
      invariant next == NextPlaceholder(input, pos)
      invariant SubstituteFrom(input, pos, result, params) == Substitute(input, params)
      decreases |input| - pos
    {
      var i := next.value;
      var e := PlaceholderEnd(input, i);
      var index := ParseIndex(input[i + 1..e]);
      if index.Err? {
        assert SubstituteFrom(input, pos, result, params) == Err(index.error);
        return Err(index.error);
      }
      var text := ParamText(params, index.value);
      if text.Err? {
        assert SubstituteFrom(input, pos, result, params) == Err(text.error);
        return Err(text.error);
      }
      SubstituteStep(input, pos, result, params, i, index.value, text.value);
      result := ReplaceAll(result, input[i..e], text.value);
      pos := e;
      next := NextPlaceholder(input, pos);
    }
    r := Ok(result);
  }

  /** createQuery: the substituted string becomes the query string of a query envelope. */
  method CreateQuery(raw: string, params: seq<Param>) returns (r: Result<SimpleQuery>)
    ensures Substitute(raw, params).Err? ==> r == Err(Substitute(raw, params).error)
    ensures Substitute(raw, params).Ok? ==>
      && r.Ok? && fresh(r.value) && r.value.Valid()
      && r.value.criteria != null && fresh(r.value.criteria)
      && r.value.criteria.State() == NodeState(None, Some(Substitute(raw, params).value), [], false, None)
      && r.value.criteria.chain.links == [Link(r.value.criteria, ChainWalk.First)]
      && r.value.pageable.None? && r.value.sort.None?
      && r.value.filterQueries == [] && r.value.projectionOnFields == []
  {
    var s := ReplacePlaceholders(raw, params);
    if s.Err? {
      return Err(s.error);
    }
    var c := new Criteria.StringCriteria(s.value);
    var q := new SimpleQuery.WithCriteria(c);
    r := Ok(q);
  }

  // ----- properties -----

  /** Replacing a token that does not occur changes nothing. */
  lemma {:induction false} ReplaceAbsent(s: string, t: string, rep: string)
    requires t != []
    requires forall i :: 0 <= i <= |s| ==> !OccursAt(s, t, i)
    ensures ReplaceAll(s, t, rep) == s
    decreases |s|
  {
    if s != [] {
      assert !OccursAt(s, t, 0) && s[0..] == s;
      forall i | 0 <= i <= |s[1..]| ensures !OccursAt(s[1..], t, i) {
        assert !OccursAt(s, t, i + 1) && s[1..][i..] == s[i + 1..];
      }
      ReplaceAbsent(s[1..], t, rep);
    }
  }

  /** Without a placeholder from `from` on, the text substituted so far is the result. */
  lemma NoMorePlaceholders(input: string, from: nat, result: string, params: seq<Param>)
    requires from <= |input|
    requires forall k :: from <= k < |input| ==> !PlaceholderAt(input, k)
    ensures SubstituteFrom(input, from, result, params) == Ok(result)
  {
  }

  /** An input without placeholders is returned unchanged, whatever the parameters. */
  lemma NoPlaceholderUnchanged(input: string, params: seq<Param>)
    requires forall k :: 0 <= k < |input| ==> !PlaceholderAt(input, k)
    ensures Substitute(input, params) == Ok(input)
  {
    NoMorePlaceholders(input, 0, input, params);
  }

  /** Substitution fails only on an index beyond the int range or beyond the parameters. */
  lemma {:induction false} SubstituteErrors(input: string, from: nat, result: string, params: seq<Param>)
    requires from <= |input|
    requires SubstituteFrom(input, from, result, params).Err?
    ensures SubstituteFrom(input, from, result, params).error in {NumberFormat, IndexOutOfBounds}
    decreases |input| - from
  {
    var i := NextPlaceholder(input, from).value;
    var e := PlaceholderEnd(input, i);
    if ParseIndex(input[i + 1..e]).Ok? && ParamText(params, ParseIndex(input[i + 1..e]).value).Ok? {
      var text := ParamText(params, ParseIndex(input[i + 1..e]).value).value;
      SubstituteErrors(input, e, ReplaceAll(result, input[i..e], text), params);
    }
  }

  /** A placeholder with an index beyond the parameters fails the substitution once it is reached. */
  lemma MissingParameter(input: string, params: seq<Param>)
    requires NextPlaceholder(input, 0).Some?
    requires var i := NextPlaceholder(input, 0).value;
             var ds := input[i + 1..PlaceholderEnd(input, i)];
             DigitsValue(ds) <= MaxInt && DigitsValue(ds) >= |params|
    ensures Substitute(input, params) == Err(IndexOutOfBounds)
  {
  }

  /** No placeholder starts anywhere in `s`. */
  predicate PlaceholderFree(s: string)
  {
    forall k :: 0 <= k < |s| ==> !PlaceholderAt(s, k)
  }

  /**
   * A single placeholder `?n` between two texts without placeholders (the
   * text after it not starting with a digit, so that `\d+` stops there) is
   * replaced by the n-th parameter, and the texts around it are kept.
   */
  lemma OnePlaceholder(a: string, ds: string, b: string, params: seq<Param>)
    requires PlaceholderFree(a) && PlaceholderFree(b)
    requires ds != [] && forall k :: 0 <= k < |ds| ==> IsDigit(ds[k])
    requires b == [] || !IsDigit(b[0])
    requires DigitsValue(ds) <= MaxInt && DigitsValue(ds) < |params|
    ensures Substitute(a + ("?" + ds) + b, params) == Ok(a + Render(params[DigitsValue(ds)]) + b)
  {
    var input := a + ("?" + ds) + b;
    var i, e := |a|, |a| + 1 + |ds|;
    var text := Render(params[DigitsValue(ds)]);
    OnePlaceholderFound(a, ds, b);
    OnePlaceholderReplaced(a, ds, b, text);
    OnePlaceholderRest(a, ds, b);
    SubstituteOnce(input, params, i, e, DigitsValue(ds), text, a + text + b);
  }

  /** A substitution with exactly one find: the input with that placeholder's token replaced. */
  lemma SubstituteOnce(input: string, params: seq<Param>, i: nat, e: nat, index: nat, text: string, r: string)
    requires NextPlaceholder(input, 0) == Some(i) && PlaceholderAt(input, i) && PlaceholderEnd(input, i) == e
    requires ParseIndex(input[i + 1..e]) == Ok(index) && ParamText(params, index) == Ok(text)
    requires ReplaceAll(input, input[i..e], text) == r
    requires forall k :: e <= k < |input| ==> !PlaceholderAt(input, k)
    ensures Substitute(input, params) == Ok(r)
  {
    SubstituteStep(input, 0, input, params, i, index, text);
    NoMorePlaceholders(input, e, r, params);
  }

  /** The greedy digit run of digits followed by a non-digit is exactly those digits. */
  lemma {:induction false} DigitRunOf(ds: string, b: string)
    requires forall k :: 0 <= k < |ds| ==> IsDigit(ds[k])
    requires b == [] || !IsDigit(b[0])
    ensures DigitRun(ds + b) == |ds|
  {
    if ds == [] {
      assert ds + b == b;
    } else {
      assert (ds + b)[1..] == ds[1..] + b;
      DigitRunOf(ds[1..], b);
    }
  }

  /** The matcher finds the first placeholder: none from `from` up to `target`, one at `target`. */
  lemma {:induction false} NextPlaceholderAt(s: string, from: nat, target: nat)
    requires from <= target < |s| && PlaceholderAt(s, target)
    requires forall k :: from <= k < target ==> !PlaceholderAt(s, k)
    ensures NextPlaceholder(s, from) == Some(target)
    decreases target - from
  {
    if from < target {
      NextPlaceholderAt(s, from + 1, target);
    }
  }

  lemma OnePlaceholderFound(a: string, ds: string, b: string)
    requires PlaceholderFree(a)
    requires ds != [] && forall k :: 0 <= k < |ds| ==> IsDigit(ds[k])
    requires b == [] || !IsDigit(b[0])
    ensures var input := a + ("?" + ds) + b;
      && NextPlaceholder(input, 0) == Some(|a|) && PlaceholderAt(input, |a|)
      && PlaceholderEnd(input, |a|) == |a| + 1 + |ds|
      && input[|a| + 1..|a| + 1 + |ds|] == ds && input[|a|..|a| + 1 + |ds|] == "?" + ds
  {
    var input := a + ("?" + ds) + b;
    forall k | 0 <= k < |a| ensures !PlaceholderAt(input, k) {
      assert input[k] == a[k];
      if k + 1 < |a| {
        assert input[k + 1] == a[k + 1] && !PlaceholderAt(a, k);
      } else {
        assert input[k + 1] == '?';
      }
    }
    assert input[|a|] == '?' && input[|a| + 1] == ds[0];
    NextPlaceholderAt(input, 0, |a|);
    assert input[|a| + 1..] == ds + b;
    DigitRunOf(ds, b);
    assert input[|a| + 1..|a| + 1 + |ds|] == ds;
    assert input[|a|..|a| + 1 + |ds|] == "?" + ds;
  }

  lemma OnePlaceholderReplaced(a: string, ds: string, b: string, text: string)
    requires PlaceholderFree(a) && PlaceholderFree(b)
    requires ds != [] && forall k :: 0 <= k < |ds| ==> IsDigit(ds[k])
    ensures ReplaceAll(a + ("?" + ds) + b, "?" + ds, text) == a + text + b
  {
    var tok := "?" + ds;
    var input := a + (tok + b);
    assert tok[0] == '?' && tok[1] == ds[0];
    forall k | 0 <= k < |a| ensures !OccursAt(input, tok, k) {
      assert input[k..][0] == a[k];
      if k + 1 < |a| {
        assert input[k..][1] == a[k + 1] && !PlaceholderAt(a, k);
      } else {
        assert input[k..][1] == '?';
      }
    }
    ReplaceAfterPlain(a, tok + b, tok, text);
    assert tok <= tok + b && (tok + b)[|tok|..] == b;
    forall k | 0 <= k <= |b| ensures !OccursAt(b, tok, k) {
      if k + 1 < |b| {
        assert b[k..][0] == b[k] && b[k..][1] == b[k + 1] && !PlaceholderAt(b, k);
      }
    }
    ReplaceAbsent(b, tok, text);
    assert a + (tok + b) == a + tok + b;
    assert a + (text + b) == a + text + b;
  }

  lemma OnePlaceholderRest(a: string, ds: string, b: string)
    requires PlaceholderFree(b)
    ensures var input := a + ("?" + ds) + b;
      forall k :: |a| + 1 + |ds| <= k < |input| ==> !PlaceholderAt(input, k)
  {
    var input := a + ("?" + ds) + b;
    var e := |a| + 1 + |ds|;
    forall k | e <= k < |input| ensures !PlaceholderAt(input, k) {
      assert input[k] == b[k - e];
      if k + 1 < |input| {
        assert input[k + 1] == b[k - e + 1] && !PlaceholderAt(b, k - e);
      }
    }
  }

  // ----- worked cases -----

  /** `textGeneral:?0` with one parameter: its rendering, "null" for a null, replaces the placeholder. */
  lemma SingleParameter(p: Param)
    ensures Substitute("textGeneral:?0", [p]) == Ok("textGeneral:" + Render(p))
  {
    var input := "textGeneral:?0";
    FieldPlaceholderFound();
    assert input[13..14] == "0" && input[12..14] == "?0";
    assert DigitsValue("0") == 0;
    FieldPlaceholderReplaced(Render(p));
    SubstituteStep(input, 0, input, [p], 12, 0, Render(p));
  }

  /** One find of the matcher: the substitution goes on after the placeholder with its token replaced. */
  lemma SubstituteStep(input: string, from: nat, result: string, params: seq<Param>, i: nat, index: nat, text: string)
    requires from <= |input| && NextPlaceholder(input, from) == Some(i)
    requires ParseIndex(input[i + 1..PlaceholderEnd(input, i)]) == Ok(index)
    requires ParamText(params, index) == Ok(text)
    ensures SubstituteFrom(input, from, result, params)
         == SubstituteFrom(input, PlaceholderEnd(input, i), ReplaceAll(result, input[i..PlaceholderEnd(input, i)], text), params)
  {
  }

  lemma FieldPlaceholderFound()
    ensures NextPlaceholder("textGeneral:?0", 0) == Some(12)
    ensures PlaceholderAt("textGeneral:?0", 12) && PlaceholderEnd("textGeneral:?0", 12) == 14
    ensures NextPlaceholder("textGeneral:?0", 14) == None
  {
    var input := "textGeneral:?0";
    assert NextPlaceholder(input, 12) == Some(12);
    forall k | 0 <= k < 12 ensures !PlaceholderAt(input, k) {
      assert input[k] != '?';
    }
  }

  lemma FieldPlaceholderReplaced(rep: string)
    ensures ReplaceAll("textGeneral:?0", "?0", rep) == "textGeneral:" + rep
  {
    var a := "textGeneral:";
    assert "textGeneral:?0" == a + "?0";
    FieldPrefixPlain();
    ReplaceAfterPlain(a, "?0", "?0", rep);
    assert ReplaceAll("?0", "?0", rep) == rep + ReplaceAll([], "?0", rep);
  }

  lemma FieldPrefixPlain()
    ensures forall i :: 0 <= i < |"textGeneral:"| ==> !OccursAt("textGeneral:" + "?0", "?0", i)
  {
    var input := "textGeneral:?0";
    assert "textGeneral:" + "?0" == input;
    forall i | 0 <= i < 12 ensures !OccursAt(input, "?0", i) {
      assert input[i] != '?';
    }
  }

  /** A prefix in which the token does not start is kept as it is. */
  lemma {:induction false} ReplaceAfterPlain(a: string, b: string, t: string, rep: string)
    requires t != []
    requires forall i :: 0 <= i < |a| ==> !OccursAt(a + b, t, i)
    ensures ReplaceAll(a + b, t, rep) == a + ReplaceAll(b, t, rep)
    decreases |a|
  {
    if a != [] {
      assert !OccursAt(a + b, t, 0) && (a + b)[0..] == a + b;
      assert (a + b)[1..] == a[1..] + b;
      forall i | 0 <= i < |a[1..]| ensures !OccursAt(a[1..] + b, t, i) {
        assert !OccursAt(a + b, t, i + 1) && (a + b)[i + 1..] == (a[1..] + b)[i..];
      }
      ReplaceAfterPlain(a[1..], b, t, rep);
      assert [a[0]] + a[1..] == a;
    }
  }

  /**
   * The token of `?1` is a prefix of `?10`: replacing it first rewrites the
   * start of `?10` as well, so the later `?10` no longer occurs.
   */
  lemma PrefixPlaceholderRewritten(params: seq<Param>)
    requires |params| > 10 && params[1] == Bound("x") && params[10] == Bound("y")
    ensures Substitute("?1 ?10", params) == Ok("x x0")
  {
    var input := "?1 ?10";
    PrefixPlaceholdersFound();
    assert input[1..2] == "1" && input[0..2] == "?1";
    assert DigitsValue("1") == 1;
    SubstituteStep(input, 0, input, params, 0, 1, "x");
    PrefixTokenReplaced();
    assert input[4..6] == "10" && input[3..6] == "?10";
    assert DigitsValue("10") == 10;
    SubstituteStep(input, 2, "x x0", params, 3, 10, "y");
    PrefixTokenGone();
    NoMorePlaceholders(input, 6, "x x0", params);
  }

  lemma PrefixPlaceholdersFound()
    ensures NextPlaceholder("?1 ?10", 0) == Some(0) && PlaceholderEnd("?1 ?10", 0) == 2
    ensures NextPlaceholder("?1 ?10", 2) == Some(3) && PlaceholderEnd("?1 ?10", 3) == 6
  {
    var input := "?1 ?10";
    assert PlaceholderAt(input, 0) && !PlaceholderAt(input, 2) && PlaceholderAt(input, 3);
    assert DigitRun(input[1..]) == 1 && DigitRun(input[4..]) == 2;
  }

  lemma PrefixTokenReplaced()
    ensures ReplaceAll("?1 ?10", "?1", "x") == "x x0"
  {
    var t := "?1";
    assert ReplaceAll("0", t, "x") == "0";
    assert ReplaceAll("?10", t, "x") == "x" + ReplaceAll("0", t, "x");
    assert ReplaceAll(" ?10", t, "x") == " " + ReplaceAll("?10", t, "x");
    assert ReplaceAll("?1 ?10", t, "x") == "x" + ReplaceAll(" ?10", t, "x");
  }

  lemma PrefixTokenGone()
    ensures ReplaceAll("x x0", "?10", "y") == "x x0"
  {
    var s := "x x0";
    forall i | 0 <= i <= |s| ensures !OccursAt(s, "?10", i) {
      assert i < |s| ==> s[i] != '?';
    }
    ReplaceAbsent(s, "?10", "y");
  }
}

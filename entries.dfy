/**
 * One criteria node on its own: the operations recorded on it
 * (`Criteria.CriteriaEntry`) and how `constructFieldQuery`,
 * `constructFieldFilter`, `constructQueryBuilder` and `constructFilterBuilder`
 * turn them into a leaf tree.  The node's fields are taken as a value
 * (`NodeState`); the class that owns them is in module Criterias.
 */
module Entries {
  import opened Common
  import opened Trees
  import opened Escaping

  /** Criteria.WILDCARD */
  const Wildcard: string := "*"

  /** Criteria.CRITERIA_VALUE_SEPERATOR: wildcard operands must not contain it. */
  const ValueSeparator: char := ' '

  /** A recorded operation: OperationKey with its operand(s). */
  datatype Entry =
    | Equals(value: Value)
    | Between(lower: Option<Value>, upper: Option<Value>)
    | Contains(text: string)
    | StartsWith(text: string)
    | EndsWith(text: string)
    | Fuzzy(text: string, minSimilarity: Option<string>)
    | Expression(text: string)
    | Near(location: GeoLocation, distanceKm: real)
    | In(values: seq<Value>)

  /** The fields of one Criteria object (a SimpleStringCriteria when `queryString` is present). */
  datatype NodeState = NodeState(
    field: Option<string>,
    queryString: Option<string>,
    entries: seq<Entry>,
    negating: bool,
    boost: Option<real>)

  /** The query clause for one entry (one case of constructFieldQuery's switch). */
  function EntryQuery(field: string, e: Entry): (r: Query)
    ensures r.FieldQ? <==> e.Equals? || e.Contains? || e.StartsWith? || e.EndsWith?
    ensures r.FieldQ? ==> (r.analyzeWildcard <==> !e.Equals?)
    ensures r.RangeQ? <==> e.Between?
    ensures r.TermsQ? <==> e.In?
    ensures r.Filtered? <==> e.Near?
  {
    match e
    case Equals(v) => FieldQ(field, v, false)
    case Between(lo, hi) => RangeQ(field, lo, hi)
    case Contains(s) => FieldQ(field, Text(Wildcard + Escape(s) + Wildcard), true)
    case EndsWith(s) => FieldQ(field, Text(Wildcard + Escape(s)), true)
    case StartsWith(s) => FieldQ(field, Text(Escape(s) + Wildcard), true)
    case Fuzzy(s, m) => FuzzyQ(field, Escape(s), m)
    case Expression(s) => QueryStringQ(s, Some(field))
    case Near(loc, d) => Filtered(MatchAll, GeoF(field, loc, d))
    case In(vs) => TermsQ(field, vs)
  }

  /** The filter clause for one entry (one case of constructFieldFilter's switch). */
  function EntryFilter(field: string, e: Entry): (r: Filter)
    ensures r.QueryF? <==> !(e.Between? || e.Near? || e.In?)
    ensures r.RangeF? <==> e.Between?
    ensures r.GeoF? <==> e.Near?
    ensures r.InF? <==> e.In?
  {
    match e
    case Equals(v) => QueryF(FieldQ(field, v, false))
    case Between(lo, hi) => RangeF(field, lo, hi)
    case Contains(s) => QueryF(FieldQ(field, Text(Wildcard + Escape(s) + Wildcard), true))
    case EndsWith(s) => QueryF(FieldQ(field, Text(Wildcard + Escape(s)), true))
    case StartsWith(s) => QueryF(FieldQ(field, Text(Escape(s) + Wildcard), true))
    case Fuzzy(s, m) => QueryF(FuzzyQ(field, Escape(s), m))
    case Expression(s) => QueryF(QueryStringQ(s, Some(field)))
    case Near(loc, d) => GeoF(field, loc, d)
    case In(vs) => InF(field, vs)
  }

  function EntryQueries(field: string, es: seq<Entry>): (r: seq<Query>)
  {
    seq(|es|, i requires 0 <= i < |es| => EntryQuery(field, es[i]))
  }

  function EntryFilters(field: string, es: seq<Entry>): (r: seq<Filter>)
  {
    seq(|es|, i requires 0 <= i < |es| => EntryFilter(field, es[i]))
  }

  /** constructFieldQuery: a bool node with one `must` clause per entry; the field is dereferenced first. */
  function FieldQuery(n: NodeState): (r: Result<Query>)
    ensures r.Err? <==> n.queryString.None? && n.field.None?
    ensures r.Ok? ==> r.value.Bool? && r.value.should == [] && r.value.mustNot == [] && r.value.boost.None?
    ensures r.Ok? && n.queryString.None? ==>
      |r.value.must| == |n.entries| && forall i :: 0 <= i < |n.entries| ==> r.value.must[i] == EntryQuery(n.field.value, n.entries[i])
    ensures n.queryString.Some? ==> r.Ok? && r.value.must == [QueryStringQ(n.queryString.value, None)]
  {
    if n.queryString.Some? then Ok(Bool([QueryStringQ(n.queryString.value, None)], [], [], None))
    else if n.field.None? then Err(NullPointer)
    else Ok(Bool(EntryQueries(n.field.value, n.entries), [], [], None))
  }

  /** constructFieldFilter: an and-filter with one clause per entry. */
  function FieldFilter(n: NodeState): (r: Result<Filter>)
    ensures r.Err? <==> n.field.None?
    ensures r.Ok? ==> r.value.AndF? && |r.value.filters| == |n.entries|
    ensures r.Ok? ==> forall i :: 0 <= i < |n.entries| ==> r.value.filters[i] == EntryFilter(n.field.value, n.entries[i])
  {
    if n.field.None? then Err(NullPointer)
    else Ok(AndF(EntryFilters(n.field.value, n.entries)))
  }

  /** constructQueryBuilder: the boost goes on the field query, negation wraps it in `mustNot`. */
  function LeafQuery(n: NodeState): (r: Result<Query>)
    ensures r.Err? <==> n.queryString.None? && n.field.None?
    ensures r.Err? ==> r.error == NullPointer
    ensures r.Ok? && !n.negating ==>
      r.value.Bool? && r.value.boost == n.boost && r.value.must == FieldQuery(n).value.must
    ensures r.Ok? && n.negating ==> r.value.Bool? && r.value.boost.None? && |r.value.mustNot| == 1
  {
    var q :- FieldQuery(n);
    var boosted := if n.boost.Some? then q.(boost := n.boost) else q;
    Ok(if n.negating then Bool([], [], [boosted], None) else boosted)
  }

  /** constructFilterBuilder: negation wraps the field filter in a not-filter. */
  function LeafFilter(n: NodeState): (r: Result<Filter>)
    ensures r.Err? <==> n.field.None?
    ensures r.Err? ==> r.error == NullPointer
    ensures r.Ok? ==> (r.value.NotF? <==> n.negating)
  {
    var f :- FieldFilter(n);
    Ok(if n.negating then NotF(f) else f)
  }

  // ----- properties of the leaf translation -----

  /**
   * Negation keeps the positive leaf, boost included, as the single `mustNot`
   * clause of an unboosted wrapper.
   */
  lemma NegatedLeafQuery(n: NodeState)
    requires LeafQuery(n.(negating := false)).Ok?
    ensures LeafQuery(n.(negating := true))
         == Ok(Bool([], [], [LeafQuery(n.(negating := false)).value], None))
  {
  }

  /** A boost never reaches the filter side. */
  lemma BoostIgnoredByFilter(n: NodeState, b: Option<real>)
    ensures LeafFilter(n.(boost := b)) == LeafFilter(n)
  {
  }

  /** Negation on the filter side is a not-filter around the positive filter. */
  lemma NegatedLeafFilter(n: NodeState)
    requires LeafFilter(n.(negating := false)).Ok?
    ensures LeafFilter(n.(negating := true)) == Ok(NotF(LeafFilter(n.(negating := false)).value))
  {
  }

  /**
   * The two switches agree: range, geo and terms entries have their own filter
   * kinds; every other entry is filtered by wrapping its query clause.
   */
  lemma EntryFilterWrapsQuery(field: string, e: Entry)
    ensures !(e.Between? || e.Near? || e.In?) ==> EntryFilter(field, e) == QueryF(EntryQuery(field, e))
    ensures e.Near? ==> EntryQuery(field, e) == Filtered(MatchAll, EntryFilter(field, e))
    ensures e.Between? ==>
      EntryFilter(field, e) == RangeF(field, e.lower, e.upper) && EntryQuery(field, e) == RangeQ(field, e.lower, e.upper)
    ensures e.In? ==>
      EntryFilter(field, e) == InF(field, e.values) && EntryQuery(field, e) == TermsQ(field, e.values)
  {
  }

  /** The operand of a wildcard clause: the escaped text inside the wildcards. */
  function WildcardOperand(e: Entry): (r: Option<string>)
  {
    match e
    case Contains(s) => Some(s)
    case StartsWith(s) => Some(s)
    case EndsWith(s) => Some(s)
    case _ => None
  }

  /**
   * A wildcard clause carries its operand escaped, with `*` exactly on the
   * sides the operation asks for: stripping them and unescaping gives the operand back.
   */
  lemma WildcardClauseRoundTrip(field: string, e: Entry)
    requires WildcardOperand(e).Some?
    ensures EntryQuery(field, e).FieldQ? && EntryQuery(field, e).analyzeWildcard
    ensures EntryQuery(field, e).value.Text?
    ensures var t := EntryQuery(field, e).value.text;
            var lead := if e.StartsWith? then 0 else 1;
            var trail := if e.EndsWith? then 0 else 1;
            |t| >= lead + trail
            && (lead == 1 ==> t[0] == '*')
            && (trail == 1 ==> t[|t| - 1] == '*')
            && Unescape(t[lead..|t| - trail]) == WildcardOperand(e).value
  {
    var s := WildcardOperand(e).value;
    var x := Escape(s);
    EscapeRoundTrip(s);
    EscapedOperand(field, e, x);
    match e
    case Contains(_) => Unwrap("*" + x + "*", 1, 1, x);
    case StartsWith(_) => Unwrap(x + "*", 0, 1, x);
    case EndsWith(_) => Unwrap("*" + x, 1, 0, x);
  }

  /** The text between `lead` leading and `trail` trailing wildcard characters. */
  lemma Unwrap(t: string, lead: nat, trail: nat, x: string)
    requires lead <= 1 && trail <= 1
    requires t == (if lead == 1 then "*" else "") + x + (if trail == 1 then "*" else "")
    ensures |t| >= lead + trail && t[lead..|t| - trail] == x
    ensures lead == 1 ==> t[0] == '*'
    ensures trail == 1 ==> t[|t| - 1] == '*'
  {
  }

  /** An operand without reserved tokens appears verbatim between the wildcards. */
  lemma PlainWildcardOperand(field: string, s: string)
    requires NoReservedToken(s)
    ensures EntryQuery(field, Contains(s)) == FieldQ(field, Text("*" + s + "*"), true)
    ensures EntryQuery(field, StartsWith(s)) == FieldQ(field, Text(s + "*"), true)
    ensures EntryQuery(field, EndsWith(s)) == FieldQ(field, Text("*" + s), true)
    ensures EntryQuery(field, Fuzzy(s, None)) == FuzzyQ(field, s, None)
  {
    EscapeIdentity(s);
    EscapedOperand(field, Contains(s), s);
    EscapedOperand(field, StartsWith(s), s);
    EscapedOperand(field, EndsWith(s), s);
    EscapedOperand(field, Fuzzy(s, None), s);
  }

  /** The clauses of the text operations in terms of the escaped operand `x`. */
  lemma EscapedOperand(field: string, e: Entry, x: string)
    requires e.Contains? || e.StartsWith? || e.EndsWith? || e.Fuzzy?
    requires Escape(e.text) == x
    ensures e.Contains? ==> EntryQuery(field, e) == FieldQ(field, Text("*" + x + "*"), true)
    ensures e.StartsWith? ==> EntryQuery(field, e) == FieldQ(field, Text(x + "*"), true)
    ensures e.EndsWith? ==> EntryQuery(field, e) == FieldQ(field, Text("*" + x), true)
    ensures e.Fuzzy? ==> EntryQuery(field, e) == FuzzyQ(field, x, e.minSimilarity)
  {
  }
}

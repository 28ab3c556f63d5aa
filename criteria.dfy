/**
 * `Criteria` (with its `SimpleStringCriteria` variant): a node of the fluent
 * criteria API.  Every node owns its recorded entries, negation flag and
 * boost, and refers to a chain (a LinkedHashMap from criteria to conjunction
 * operator, keyed by identity) that siblings created with `and(field)` /
 * `or(field)` share with their creator.  Emission walks the chain the node
 * refers to, so any sibling emits the whole chain.
 */
module Criterias {
  import opened Common
  import opened Trees
  import opened ChainWalk
  import opened Entries

  /** One entry of the chain map. */
  datatype Link = Link(node: Criteria, op: Conj)

  /** The first position whose key is `c` (keys are compared by identity). */
  function IndexOf(links: seq<Link>, c: Criteria): (r: Option<nat>)
    ensures r.Some? ==> r.value < |links| && links[r.value].node == c
                        && forall j :: 0 <= j < r.value ==> links[j].node != c
    ensures r.None? ==> forall j :: 0 <= j < |links| ==> links[j].node != c
  {
    if links == [] then None
    else if links[0].node == c then Some(0)
    else match IndexOf(links[1..], c)
      case None => None
      case Some(k) => Some(k + 1)
  }

  /** `map.get(c)` */
  function Get(links: seq<Link>, c: Criteria): Option<Conj>
  {
    match IndexOf(links, c)
    case None => None
    case Some(k) => Some(links[k].op)
  }

  /** The keys in iteration order. */
  function Keys(links: seq<Link>): seq<Criteria>
  {
    seq(|links|, i requires 0 <= i < |links| => links[i].node)
  }

  function Ops(links: seq<Link>): seq<Conj>
  {
    seq(|links|, i requires 0 <= i < |links| => links[i].op)
  }

  predicate DistinctKeys(links: seq<Link>)
  {
    forall i, j :: 0 <= i < j < |links| ==> links[i].node != links[j].node
  }

  /** `LinkedHashMap.put`: an existing key keeps its position and takes the new value; a new key goes last. */
  function PutLink(links: seq<Link>, c: Criteria, op: Conj): (r: seq<Link>)
    ensures Link(c, op) in r
    ensures |links| <= |r| <= |links| + 1
    ensures forall j :: 0 <= j < |links| && links[j].node != c ==> r[j] == links[j]
  {
    match IndexOf(links, c)
    case Some(k) =>
      assert links[k := Link(c, op)][k] == Link(c, op);
      links[k := Link(c, op)]
    case None => links + [Link(c, op)]
  }

  /** `put` behaves as a map update and keeps the iteration order of the keys already present. */
  lemma PutLinkIsMapPut(links: seq<Link>, c: Criteria, op: Conj, d: Criteria)
    ensures Get(PutLink(links, c, op), d) == if d == c then Some(op) else Get(links, d)
    ensures Keys(PutLink(links, c, op)) == if Get(links, c).Some? then Keys(links) else Keys(links) + [c]
    ensures DistinctKeys(links) ==> DistinctKeys(PutLink(links, c, op))
  {
    var r := PutLink(links, c, op);
    if IndexOf(links, c).Some? {
      assert Keys(r) == Keys(links);
      assert forall j :: 0 <= j < |r| ==> r[j].node == links[j].node;
      if IndexOf(links, d).Some? {
        IndexOfAt(r, d, IndexOf(links, d).value);
      } else {
        IndexOfAbsent(r, d);
      }
    } else {
      assert Keys(r) == Keys(links) + [c];
      if IndexOf(links, d).Some? {
        IndexOfAt(r, d, IndexOf(links, d).value);
      } else if d == c {
        IndexOfAt(r, d, |links|);
      } else {
        IndexOfAbsent(r, d);
      }
    }
  }

  lemma IndexOfAt(links: seq<Link>, c: Criteria, k: nat)
    requires k < |links| && links[k].node == c && forall j :: 0 <= j < k ==> links[j].node != c
    ensures IndexOf(links, c) == Some(k)
  {
  }

  lemma IndexOfAbsent(links: seq<Link>, c: Criteria)
    requires forall j :: 0 <= j < |links| ==> links[j].node != c
    ensures IndexOf(links, c) == None
  {
  }

  /** Repeated `put` with the same operator: the loop of `and(Criteria...)`. */
  function PutAll(links: seq<Link>, cs: seq<Criteria>, op: Conj): seq<Link>
    decreases |cs|
  {
    if cs == [] then links
    else PutLink(PutAll(links, cs[..|cs| - 1], op), cs[|cs| - 1], op)
  }

  /** After putting every criteria of `cs`, each maps to `op`; every other key keeps its operator. */
  lemma {:induction false} PutAllLookup(links: seq<Link>, cs: seq<Criteria>, op: Conj, d: Criteria)
    ensures Get(PutAll(links, cs, op), d) == if d in cs then Some(op) else Get(links, d)
    decreases |cs|
  {
    if cs != [] {
      var init := cs[..|cs| - 1];
      PutAllLookup(links, init, op, d);
      PutLinkIsMapPut(PutAll(links, init, op), cs[|cs| - 1], op, d);
      assert cs == init + [cs[|cs| - 1]];
      assert d in cs <==> d in init || d == cs[|cs| - 1];
    }
  }

  /** Criteria.criteriaChain, shared by reference between siblings. */
  class Chain {
    var links: seq<Link>

    constructor()
      ensures links == []
    {
      links := [];
    }

    /** criteriaChain.put(c, op) */
    method Put(c: Criteria, op: Conj)
      modifies this
      ensures links == PutLink(old(links), c, op)
    {
      links := PutLink(links, c, op);
    }
  }

  /** An element of the collection handed to `in`: a plain value or a nested collection. */
  datatype InItem = Single(value: Value) | Group(values: seq<Value>)

  /** The one-level flattening `in(Iterable)` performs. */
  function Flatten(items: seq<InItem>): (r: seq<Value>)
    ensures (forall i :: 0 <= i < |items| ==> items[i].Single?) ==>
      |r| == |items| && forall i :: 0 <= i < |items| ==> r[i] == items[i].value
    decreases |items|
  {
    if items == [] then []
    else
      var last := items[|items| - 1];
      Flatten(items[..|items| - 1]) + (if last.Single? then [last.value] else last.values)
  }

  /** A value is in the flattened list exactly when some item is that value or a collection holding it. */
  lemma {:induction false} FlattenMembers(items: seq<InItem>, v: Value)
    ensures v in Flatten(items) <==>
      exists i :: 0 <= i < |items| && (items[i] == Single(v) || (items[i].Group? && v in items[i].values))
    decreases |items|
  {
    if items != [] {
      var init := items[..|items| - 1];
      FlattenMembers(init, v);
      if v in Flatten(init) {
        var i :| 0 <= i < |init| && (init[i] == Single(v) || (init[i].Group? && v in init[i].values));
        assert items[i] == init[i];
      }
      if exists i :: 0 <= i < |items| && (items[i] == Single(v) || (items[i].Group? && v in items[i].values)) {
        var i :| 0 <= i < |items| && (items[i] == Single(v) || (items[i].Group? && v in items[i].values));
        if i < |init| { assert init[i] == items[i]; }
      }
    }
  }

  class Criteria {
    /** The targeted field's name; absent for a criteria made with `new Criteria()` or a query string. */
    const field: Option<string>
    /** SimpleStringCriteria.queryString */
    const queryString: Option<string>
    var entries: seq<Entry>
    var negating: bool
    /** None stands for the NaN the source uses as "no boost". */
    var boost: Option<real>
    const chain: Chain

    function State(): NodeState
      reads this
    {
      NodeState(field, queryString, entries, negating, boost)
    }

    /** Criteria(): a fresh chain holding this node as its FIRST entry. */
    constructor Blank()
      ensures State() == NodeState(None, None, [], false, None)
      ensures fresh(chain) && chain.links == [Link(this, First)]
    {
      field, queryString, entries, negating, boost := None, None, [], false, None;
      chain := new Chain();
      new;
      chain.Put(this, First);
    }

    /** Criteria(Field) once the field name has passed its checks. */
    constructor Named(name: string)
      requires HasText(Some(name))
      ensures State() == NodeState(Some(name), None, [], false, None)
      ensures fresh(chain) && chain.links == [Link(this, First)]
    {
      field, queryString, entries, negating, boost := Some(name), None, [], false, None;
      chain := new Chain();
      new;
      chain.Put(this, First);
    }

    /** Criteria(chain, field): joins an existing chain without entering it itself. */
    constructor InChain(ch: Chain, name: string)
      requires HasText(Some(name))
      ensures State() == NodeState(Some(name), None, [], false, None)
      ensures chain == ch
    {
      field, queryString, entries, negating, boost := Some(name), None, [], false, None;
      chain := ch;
    }

    /** SimpleStringCriteria(queryString): the super constructor's put and its own put of the same key. */
    constructor StringCriteria(q: string)
      ensures State() == NodeState(None, Some(q), [], false, None)
      ensures fresh(chain) && chain.links == [Link(this, First)]
    {
      field, queryString, entries, negating, boost := None, Some(q), [], false, None;
      chain := new Chain();
      new;
      chain.Put(this, First);
      chain.Put(this, First);
    }

    // ----- chaining -----

    /** and(field): a new sibling on the same chain, entered with AND; the sibling is returned. */
    method And(name: Option<string>) returns (r: Result<Criteria>)
      modifies chain
      ensures !HasText(name) ==> r == Err(IllegalArgument) && chain.links == old(chain.links)
      ensures HasText(name) ==>
        && r.Ok? && fresh(r.value) && r.value.chain == chain
        && r.value.State() == NodeState(name, None, [], false, None)
        && chain.links == old(chain.links) + [Link(r.value, Conj.And)]
    {
      r := Sibling(name, Conj.And);
    }

    /** or(field): a new sibling on the same chain, entered with OR; the sibling is returned. */
    method Or(name: Option<string>) returns (r: Result<Criteria>)
      modifies chain
      ensures !HasText(name) ==> r == Err(IllegalArgument) && chain.links == old(chain.links)
      ensures HasText(name) ==>
        && r.Ok? && fresh(r.value) && r.value.chain == chain
        && r.value.State() == NodeState(name, None, [], false, None)
        && chain.links == old(chain.links) + [Link(r.value, Conj.Or)]
    {
      r := Sibling(name, Conj.Or);
    }

    method Sibling(name: Option<string>, op: Conj) returns (r: Result<Criteria>)
      modifies chain
      ensures !HasText(name) ==> r == Err(IllegalArgument) && chain.links == old(chain.links)
      ensures HasText(name) ==>
        && r.Ok? && fresh(r.value) && r.value.chain == chain
        && r.value.State() == NodeState(name, None, [], false, None)
        && chain.links == old(chain.links) + [Link(r.value, op)]
    {
      if !HasText(name) {
        return Err(IllegalArgument);
      }
      var sibling := new Criteria.InChain(chain, name.value);
      assert IndexOf(chain.links, sibling) == None;
      chain.Put(sibling, op);
      r := Ok(sibling);
    }

    /** and(Criteria): the other criteria enters this chain as AND_SUBCRITERIA; this node is returned. */
    method AndCriteria(c: Criteria) returns (r: Criteria)
      modifies chain
      ensures r == this && chain.links == PutLink(old(chain.links), c, AndSub)
    {
      chain.Put(c, AndSub);
      r := this;
    }

    /** and(Criteria...): each criteria in turn enters as AND_SUBCRITERIA. */
    method AndAll(cs: seq<Criteria>) returns (r: Criteria)
      modifies chain
      ensures r == this && chain.links == PutAll(old(chain.links), cs, AndSub)
    {
      for i := 0 to |cs|
        invariant chain.links == PutAll(old(chain.links), cs[..i], AndSub)
      {
        assert cs[..i + 1][..i] == cs[..i];
        chain.Put(cs[i], AndSub);
      }
      assert cs[..|cs|] == cs;
      r := this;
    }

    /** or(Criteria): a null criteria is refused; otherwise it enters as OR_SUBCRITERIA. */
    method OrCriteria(c: Criteria?) returns (r: Result<Criteria>)
      modifies chain
      ensures c == null ==> r == Err(IllegalArgument) && chain.links == old(chain.links)
      ensures c != null ==> r == Ok(this) && chain.links == PutLink(old(chain.links), c, OrSub)
    {
      if c == null {
        return Err(IllegalArgument);
      }
      chain.Put(c, OrSub);
      r := Ok(this);
    }

    // ----- recording entries -----

    method Record(e: Entry)
      modifies this
      ensures entries == old(entries) + [e]
      ensures negating == old(negating) && boost == old(boost)
    {
      entries := entries + [e];
    }

    /** is(o) */
    method Is(v: Value) returns (r: Criteria)
      modifies this
      ensures r == this && entries == old(entries) + [Equals(v)]
      ensures negating == old(negating) && boost == old(boost)
    {
      Record(Equals(v));
      r := this;
    }

    /** between(lower, upper): an open range on both sides is refused. */
    method Between(lower: Option<Value>, upper: Option<Value>) returns (r: Result<Criteria>)
      modifies this
      ensures lower.None? && upper.None? ==> r == Err(InvalidApiUsage) && entries == old(entries)
      ensures lower.Some? || upper.Some? ==>
        r == Ok(this) && entries == old(entries) + [Entry.Between(lower, upper)]
      ensures negating == old(negating) && boost == old(boost)
    {
      if lower.None? && upper.None? {
        return Err(InvalidApiUsage);
      }
      Record(Entry.Between(lower, upper));
      r := Ok(this);
    }

    /** greaterThanEqual(lower) = between(lower, null) */
    method GreaterThanEqual(lower: Option<Value>) returns (r: Result<Criteria>)
      modifies this
      ensures lower.None? ==> r == Err(InvalidApiUsage) && entries == old(entries)
      ensures lower.Some? ==> r == Ok(this) && entries == old(entries) + [Entry.Between(lower, None)]
      ensures negating == old(negating) && boost == old(boost)
    {
      r := Between(lower, None);
    }

    /** lessThanEqual(upper) = between(null, upper) */
    method LessThanEqual(upper: Option<Value>) returns (r: Result<Criteria>)
      modifies this
      ensures upper.None? ==> r == Err(InvalidApiUsage) && entries == old(entries)
      ensures upper.Some? ==> r == Ok(this) && entries == old(entries) + [Entry.Between(None, upper)]
      ensures negating == old(negating) && boost == old(boost)
    {
      r := Between(None, upper);
    }

    /** A wildcard entry whose operand contains the value separator is refused. */
    method Wildcarded(e: Entry) returns (r: Result<Criteria>)
      requires WildcardOperand(e).Some?
      modifies this
      ensures ValueSeparator in WildcardOperand(e).value ==> r == Err(InvalidApiUsage) && entries == old(entries)
      ensures ValueSeparator !in WildcardOperand(e).value ==> r == Ok(this) && entries == old(entries) + [e]
      ensures negating == old(negating) && boost == old(boost)
    {
      if ValueSeparator in WildcardOperand(e).value {
        return Err(InvalidApiUsage);
      }
      Record(e);
      r := Ok(this);
    }

    /** contains(s) */
    method Contains(s: string) returns (r: Result<Criteria>)
      modifies this
      ensures ValueSeparator in s ==> r == Err(InvalidApiUsage) && entries == old(entries)
      ensures ValueSeparator !in s ==> r == Ok(this) && entries == old(entries) + [Entry.Contains(s)]
      ensures negating == old(negating) && boost == old(boost)
    {
      r := Wildcarded(Entry.Contains(s));
    }

    /** startsWith(s) */
    method StartsWith(s: string) returns (r: Result<Criteria>)
      modifies this
      ensures ValueSeparator in s ==> r == Err(InvalidApiUsage) && entries == old(entries)
      ensures ValueSeparator !in s ==> r == Ok(this) && entries == old(entries) + [Entry.StartsWith(s)]
      ensures negating == old(negating) && boost == old(boost)
    {
      r := Wildcarded(Entry.StartsWith(s));
    }

    /** endsWith(s) */
    method EndsWith(s: string) returns (r: Result<Criteria>)
      modifies this
      ensures ValueSeparator in s ==> r == Err(InvalidApiUsage) && entries == old(entries)
      ensures ValueSeparator !in s ==> r == Ok(this) && entries == old(entries) + [Entry.EndsWith(s)]
      ensures negating == old(negating) && boost == old(boost)
    {
      r := Wildcarded(Entry.EndsWith(s));
    }

    /** expression(s): a native query string, kept unescaped. */
    method Expression(s: string) returns (r: Criteria)
      modifies this
      ensures r == this && entries == old(entries) + [Entry.Expression(s)]
      ensures negating == old(negating) && boost == old(boost)
    {
      Record(Entry.Expression(s));
      r := this;
    }

    /** fuzzy(s) and fuzzy(s, minSimilarity) */
    method Fuzzy(s: string, minSimilarity: Option<string>) returns (r: Criteria)
      modifies this
      ensures r == this && entries == old(entries) + [Entry.Fuzzy(s, minSimilarity)]
      ensures negating == old(negating) && boost == old(boost)
    {
      Record(Entry.Fuzzy(s, minSimilarity));
      r := this;
    }

    /** in(Iterable): a null collection is refused; nested collections are flattened one level. */
    method InValues(values: Option<seq<InItem>>) returns (r: Result<Criteria>)
      modifies this
      ensures values.None? ==> r == Err(IllegalArgument) && entries == old(entries)
      ensures values.Some? ==> r == Ok(this) && entries == old(entries) + [In(Flatten(values.value))]
      ensures negating == old(negating) && boost == old(boost)
    {
      if values.None? {
        return Err(IllegalArgument);
      }
      var items := values.value;
      var list: seq<Value> := [];
      for i := 0 to |items|
        invariant list == Flatten(items[..i])
      {
        assert items[..i + 1][..i] == items[..i];
        match items[i]
        case Single(v) => list := list + [v];
        case Group(vs) => list := list + vs;
      }
      assert items[..|items|] == items;
      Record(In(list));
      r := Ok(this);
    }

    /** in(Object...): no argument, or a collection as second argument, is refused. */
    method InVarargs(values: seq<InItem>) returns (r: Result<Criteria>)
      modifies this
      ensures |values| == 0 || (|values| > 1 && values[1].Group?) ==>
        r == Err(InvalidApiUsage) && entries == old(entries)
      ensures !(|values| == 0 || (|values| > 1 && values[1].Group?)) ==>
        r == Ok(this) && entries == old(entries) + [In(Flatten(values))]
      ensures negating == old(negating) && boost == old(boost)
    {
      if |values| == 0 || (|values| > 1 && values[1].Group?) {
        return Err(InvalidApiUsage);
      }
      r := InValues(Some(values));
    }

    /** near(location, distance): the location is required; a missing distance means 0; a negative one is refused. */
    method Near(location: Option<GeoLocation>, distance: Option<real>) returns (r: Result<Criteria>)
      modifies this
      ensures location.None? ==> r == Err(IllegalArgument) && entries == old(entries)
      ensures location.Some? && distance.Some? && distance.value < 0.0 ==>
        r == Err(InvalidApiUsage) && entries == old(entries)
      ensures location.Some? && !(distance.Some? && distance.value < 0.0) ==>
        && r == Ok(this)
        && entries == old(entries) + [Entry.Near(location.value, if distance.Some? then distance.value else 0.0)]
      ensures negating == old(negating) && boost == old(boost)
    {
      if location.None? {
        return Err(IllegalArgument);
      }
      if distance.Some? && distance.value < 0.0 {
        return Err(InvalidApiUsage);
      }
      Record(Entry.Near(location.value, if distance.Some? then distance.value else 0.0));
      r := Ok(this);
    }

    /** not() */
    method Not() returns (r: Criteria)
      modifies this
      ensures r == this && negating && entries == old(entries) && boost == old(boost)
    {
      negating := true;
      r := this;
    }

    /** boost(b): a negative boost is refused. */
    method Boost(b: real) returns (r: Result<Criteria>)
      modifies this
      ensures b < 0.0 ==> r == Err(InvalidApiUsage) && boost == old(boost)
      ensures b >= 0.0 ==> r == Ok(this) && boost == Some(b)
      ensures entries == old(entries) && negating == old(negating)
    {
      if b < 0.0 {
        return Err(InvalidApiUsage);
      }
      boost := Some(b);
      r := Ok(this);
    }

    // ----- emission -----

    /** constructFieldQuery (overridden by SimpleStringCriteria) */
    method ConstructFieldQuery() returns (r: Result<Query>)
      ensures r == FieldQuery(State())
    {
      if queryString.Some? {
        return Ok(Bool([QueryStringQ(queryString.value, None)], [], [], None));
      }
      if field.None? {
        return Err(NullPointer);
      }
      var f := field.value;
      var must: seq<Query> := [];
      for i := 0 to |entries|
        invariant must == EntryQueries(f, entries[..i])
      {
        must := must + [EntryQuery(f, entries[i])];
      }
      assert entries[..|entries|] == entries;
      r := Ok(Bool(must, [], [], None));
    }

    /** constructFieldFilter */
    method ConstructFieldFilter() returns (r: Result<Filter>)
      ensures r == FieldFilter(State())
    {
      if field.None? {
        return Err(NullPointer);
      }
      var f := field.value;
      var all: seq<Filter> := [];
      for i := 0 to |entries|
        invariant all == EntryFilters(f, entries[..i])
      {
        all := all + [EntryFilter(f, entries[i])];
      }
      assert entries[..|entries|] == entries;
      r := Ok(AndF(all));
    }

    /** constructQueryBuilder */
    method ConstructQueryBuilder() returns (r: Result<Query>)
      ensures r == LeafQuery(State())
    {
      var q := ConstructFieldQuery();
      if q.Err? {
        return Err(q.error);
      }
      var b := q.value;
      if boost.Some? {
        b := b.(boost := boost);
      }
      if negating {
        b := Bool([], [], [b], None);
      }
      r := Ok(b);
    }

    /** constructFilterBuilder */
    method ConstructFilterBuilder() returns (r: Result<Filter>)
      ensures r == LeafFilter(State())
    {
      var f := ConstructFieldFilter();
      if f.Err? {
        return Err(f.error);
      }
      r := Ok(if negating then NotF(f.value) else f.value);
    }

    /** The tree of link i: the linked node's leaf, or for a sub-criteria link its own chain's. */
    method EmitLinkQuery(i: nat, ghost sc: Scope) returns (t: Result<Query>)
      requires Ranked(sc) && chain in sc.rank && i < |chain.links|
      ensures t == ItemQuery(chain, i, sc)
      decreases sc.rank[chain], 0
    {
      assert LinkRanked(sc, chain, i);
      var l := chain.links[i];
      if l.op.IsSub() {
        t := l.node.GetQueryBuilder(sc);
      } else {
        t := l.node.ConstructQueryBuilder();
      }
    }

    /** getQueryBuilder: the walk over this node's chain; sub-criteria contribute their own chains. */
    method GetQueryBuilder(ghost sc: Scope) returns (r: Result<Query>)
      requires Ranked(sc) && chain in sc.rank
      ensures r == ChainQuery(chain, sc)
      decreases sc.rank[chain], 1
    {
      var acc: Acc<Query> := Acc([], [], None);
      ghost var ts: seq<Query> := [];
      ghost var ops := Ops(chain.links);
      var i := 0;
      while i < |chain.links|
        invariant 0 <= i <= |chain.links|
        invariant ItemQueries(chain, i, sc) == Ok(ts)
        invariant acc == Fold(ops[..i], ts)
      {
        var l := chain.links[i];
        var t := EmitLinkQuery(i, sc);
        if t.Err? {
          ChainQueryStops(chain, i, sc);
          return Err(t.error);
        }
        ItemQueriesSnoc(chain, i, sc, ts, t.value);
        FoldLinks(chain.links, i, ts, t.value);
        acc := Step(acc, l.op, t.value);
        ts := ts + [t.value];
        i := i + 1;
      }
      assert ops[..i] == ops;
      ChainQueryDone(chain, sc, ts);
      r := Ok(Bool(Musts(acc), acc.should, [], None));
    }

    /** The filter of link i: the linked node's leaf, or for a sub-criteria link its own chain's. */
    method EmitLinkFilter(i: nat, ghost sc: Scope) returns (t: Result<Filter>)
      requires Ranked(sc) && chain in sc.rank && i < |chain.links|
      ensures t == ItemFilter(chain, i, sc)
      decreases sc.rank[chain], 0
    {
      assert LinkRanked(sc, chain, i);
      var l := chain.links[i];
      if l.op.IsSub() {
        t := l.node.GetFilterBuilder(sc);
      } else {
        t := l.node.ConstructFilterBuilder();
      }
    }

    /** getFilterBuilder: the same walk on the filter side. */
    method GetFilterBuilder(ghost sc: Scope) returns (r: Result<Filter>)
      requires Ranked(sc) && chain in sc.rank
      ensures r == ChainFilter(chain, sc)
      decreases sc.rank[chain], 1
    {
      var acc: Acc<Filter> := Acc([], [], None);
      ghost var ts: seq<Filter> := [];
      ghost var ops := Ops(chain.links);
      var i := 0;
      while i < |chain.links|
        invariant 0 <= i <= |chain.links|
        invariant ItemFilters(chain, i, sc) == Ok(ts)
        invariant acc == Fold(ops[..i], ts)
      {
        var l := chain.links[i];
        var t := EmitLinkFilter(i, sc);
        if t.Err? {
          ChainFilterStops(chain, i, sc);
          return Err(t.error);
        }
        ItemFiltersSnoc(chain, i, sc, ts, t.value);
        FoldLinks(chain.links, i, ts, t.value);
        acc := Step(acc, l.op, t.value);
        ts := ts + [t.value];
        i := i + 1;
      }
      assert ops[..i] == ops;
      ChainFilterDone(chain, sc, ts);
      r := Ok(BoolF(Musts(acc), acc.should));
    }
  }

  /** Main `Criteria(field)` / `where(field)` entry: the field name must have text. */
  method Where(name: Option<string>) returns (r: Result<Criteria>)
    ensures !HasText(name) ==> r == Err(IllegalArgument)
    ensures HasText(name) ==>
      && r.Ok? && fresh(r.value) && fresh(r.value.chain)
      && r.value.State() == NodeState(name, None, [], false, None)
      && r.value.chain.links == [Link(r.value, First)]
  {
    if !HasText(name) {
      return Err(IllegalArgument);
    }
    var c := new Criteria.Named(name.value);
    r := Ok(c);
  }

  // ----- the meaning of emission -----

  /**
   * What emission may look at: a rank per chain such that every sub-criteria
   * link points to a criteria whose own chain ranks lower (so the recursion
   * ends), and the objects the chains and their nodes live in.
   */
  datatype Scope = Scope(rank: map<Chain, nat>, objs: set<object>)

  ghost predicate Ranked(sc: Scope)
    reads sc.objs
  {
    && (forall ch | ch in sc.rank :: ch in sc.objs)
    && (forall ch, i | ch in sc.rank && 0 <= i < |ch.links| :: LinkRanked(sc, ch, i))
  }

  /** Link i of `ch` lies within the scope and, for a sub-criteria link, leads to a lower-ranked chain. */
  ghost predicate LinkRanked(sc: Scope, ch: Chain, i: nat)
    reads sc.objs
    requires ch in sc.objs && ch in sc.rank && i < |ch.links|
  {
    var n := ch.links[i].node;
    && n in sc.objs
    && (ch.links[i].op.IsSub() ==> n.chain in sc.rank && sc.rank[n.chain] < sc.rank[ch])
  }

  /** The tree of link i: the node's leaf, or for a sub-criteria link the whole chain of that node. */
  ghost function ItemQuery(ch: Chain, i: nat, sc: Scope): Result<Query>
    reads sc.objs
    requires Ranked(sc) && ch in sc.rank && i < |ch.links|
    decreases sc.rank[ch], 0
  {
    assert LinkRanked(sc, ch, i);
    var l := ch.links[i];
    if l.op.IsSub() then ChainQuery(l.node.chain, sc) else LeafQuery(l.node.State())
  }

  /** The trees of the first n links, or the error of the first link that fails. */
  ghost function ItemQueries(ch: Chain, n: nat, sc: Scope): (r: Result<seq<Query>>)
    reads sc.objs
    requires Ranked(sc) && ch in sc.rank && n <= |ch.links|
    ensures r.Ok? ==> |r.value| == n
    ensures r.Ok? ==> forall i {:trigger ItemQuery(ch, i, sc)} :: 0 <= i < n ==> ItemQuery(ch, i, sc) == Ok(r.value[i])
    decreases sc.rank[ch], 1, n
  {
    if n == 0 then Ok([])
    else
      var prev :- ItemQueries(ch, n - 1, sc);
      var t :- ItemQuery(ch, n - 1, sc);
      Ok(prev + [t])
  }

  /** The query a chain emits: one bool node gathering its links' trees. */
  ghost function ChainQuery(ch: Chain, sc: Scope): Result<Query>
    reads sc.objs
    requires Ranked(sc) && ch in sc.rank
    decreases sc.rank[ch], 2
  {
    var ts :- ItemQueries(ch, |ch.links|, sc);
    var acc := Fold(Ops(ch.links), ts);
    Ok(Bool(Musts(acc), acc.should, [], None))
  }

  ghost function ItemFilter(ch: Chain, i: nat, sc: Scope): Result<Filter>
    reads sc.objs
    requires Ranked(sc) && ch in sc.rank && i < |ch.links|
    decreases sc.rank[ch], 0
  {
    assert LinkRanked(sc, ch, i);
    var l := ch.links[i];
    if l.op.IsSub() then ChainFilter(l.node.chain, sc) else LeafFilter(l.node.State())
  }

  ghost function ItemFilters(ch: Chain, n: nat, sc: Scope): (r: Result<seq<Filter>>)
    reads sc.objs
    requires Ranked(sc) && ch in sc.rank && n <= |ch.links|
    ensures r.Ok? ==> |r.value| == n
    ensures r.Ok? ==> forall i {:trigger ItemFilter(ch, i, sc)} :: 0 <= i < n ==> ItemFilter(ch, i, sc) == Ok(r.value[i])
    decreases sc.rank[ch], 1, n
  {
    if n == 0 then Ok([])
    else
      var prev :- ItemFilters(ch, n - 1, sc);
      var t :- ItemFilter(ch, n - 1, sc);
      Ok(prev + [t])
  }

  /** The filter a chain emits. */
  ghost function ChainFilter(ch: Chain, sc: Scope): Result<Filter>
    reads sc.objs
    requires Ranked(sc) && ch in sc.rank
    decreases sc.rank[ch], 2
  {
    var ts :- ItemFilters(ch, |ch.links|, sc);
    var acc := Fold(Ops(ch.links), ts);
    Ok(BoolF(Musts(acc), acc.should))
  }

  /** Emission stops at the first link that fails: a failing prefix decides the whole walk. */
  lemma {:induction false} ItemQueriesFirstError(ch: Chain, m: nat, n: nat, sc: Scope)
    requires Ranked(sc) && ch in sc.rank && m <= n <= |ch.links|
    ensures ItemQueries(ch, m, sc).Err? ==> ItemQueries(ch, n, sc) == ItemQueries(ch, m, sc)
    decreases n
  {
    if m < n {
      ItemQueriesFirstError(ch, m, n - 1, sc);
    }
  }

  lemma {:induction false} ItemFiltersFirstError(ch: Chain, m: nat, n: nat, sc: Scope)
    requires Ranked(sc) && ch in sc.rank && m <= n <= |ch.links|
    ensures ItemFilters(ch, m, sc).Err? ==> ItemFilters(ch, n, sc) == ItemFilters(ch, m, sc)
    decreases n
  {
    if m < n {
      ItemFiltersFirstError(ch, m, n - 1, sc);
    }
  }

  /** One more link that emits extends the trees by its tree. */
  lemma ItemQueriesSnoc(ch: Chain, i: nat, sc: Scope, ts: seq<Query>, t: Query)
    requires Ranked(sc) && ch in sc.rank && i < |ch.links|
    requires ItemQueries(ch, i, sc) == Ok(ts) && ItemQuery(ch, i, sc) == Ok(t)
    ensures ItemQueries(ch, i + 1, sc) == Ok(ts + [t])
  {
  }

  lemma ItemFiltersSnoc(ch: Chain, i: nat, sc: Scope, ts: seq<Filter>, t: Filter)
    requires Ranked(sc) && ch in sc.rank && i < |ch.links|
    requires ItemFilters(ch, i, sc) == Ok(ts) && ItemFilter(ch, i, sc) == Ok(t)
    ensures ItemFilters(ch, i + 1, sc) == Ok(ts + [t])
  {
  }

  /** The first link that fails decides the chain's query. */
  lemma ChainQueryStops(ch: Chain, i: nat, sc: Scope)
    requires Ranked(sc) && ch in sc.rank && i < |ch.links|
    requires ItemQueries(ch, i, sc).Ok? && ItemQuery(ch, i, sc).Err?
    ensures ChainQuery(ch, sc) == Err(ItemQuery(ch, i, sc).error)
  {
    assert ItemQueries(ch, i + 1, sc) == Err(ItemQuery(ch, i, sc).error);
    ItemQueriesFirstError(ch, i + 1, |ch.links|, sc);
  }

  lemma ChainFilterStops(ch: Chain, i: nat, sc: Scope)
    requires Ranked(sc) && ch in sc.rank && i < |ch.links|
    requires ItemFilters(ch, i, sc).Ok? && ItemFilter(ch, i, sc).Err?
    ensures ChainFilter(ch, sc) == Err(ItemFilter(ch, i, sc).error)
  {
    assert ItemFilters(ch, i + 1, sc) == Err(ItemFilter(ch, i, sc).error);
    ItemFiltersFirstError(ch, i + 1, |ch.links|, sc);
  }

  /** Once every link has emitted, the chain's query gathers the trees by the walk. */
  lemma ChainQueryDone(ch: Chain, sc: Scope, ts: seq<Query>)
    requires Ranked(sc) && ch in sc.rank && ItemQueries(ch, |ch.links|, sc) == Ok(ts)
    ensures var acc := Fold(Ops(ch.links), ts); ChainQuery(ch, sc) == Ok(Bool(Musts(acc), acc.should, [], None))
  {
  }

  lemma ChainFilterDone(ch: Chain, sc: Scope, ts: seq<Filter>)
    requires Ranked(sc) && ch in sc.rank && ItemFilters(ch, |ch.links|, sc) == Ok(ts)
    ensures var acc := Fold(Ops(ch.links), ts); ChainFilter(ch, sc) == Ok(BoolF(Musts(acc), acc.should))
  {
  }

  /** The walk over the first i + 1 links is one more step of the walk over the first i. */
  lemma FoldLinks<T>(links: seq<Link>, i: nat, ts: seq<T>, t: T)
    requires i < |links| && |ts| == i
    ensures Fold(Ops(links)[..i + 1], ts + [t]) == Step(Fold(Ops(links)[..i], ts), links[i].op, t)
  {
    assert Ops(links)[..i + 1] == Ops(links)[..i] + [links[i].op];
    FoldSnoc(Ops(links)[..i], ts, links[i].op, t);
  }

  /**
   * For a chain built by the fluent API (its creator FIRST, then only AND /
   * OR links), the emitted bool node gathers in `must` exactly the trees
   * routed there and in `should` the others, in chain order: nothing is lost
   * or duplicated.
   */
  lemma RootedChainQuery(ch: Chain, sc: Scope)
    requires Ranked(sc) && ch in sc.rank && Rooted(Ops(ch.links))
    requires ItemQueries(ch, |ch.links|, sc).Ok?
    ensures var ops, ts := Ops(ch.links), ItemQueries(ch, |ch.links|, sc).value;
      && ChainQuery(ch, sc) == Ok(Bool(Select(ops, ts, true, |ops|), Select(ops, ts, false, |ops|), [], None))
      && |Select(ops, ts, true, |ops|)| + |Select(ops, ts, false, |ops|)| == |ch.links|
  {
    var ops, ts := Ops(ch.links), ItemQueries(ch, |ch.links|, sc).value;
    RootedFold(ops, ts);
    SelectPartition(ops, ts, |ops|);
  }

  /** The same routing for the filter walk: a bool filter with the must-routed filters and the should-routed ones. */
  lemma RootedChainFilter(ch: Chain, sc: Scope)
    requires Ranked(sc) && ch in sc.rank && Rooted(Ops(ch.links))
    requires ItemFilters(ch, |ch.links|, sc).Ok?
    ensures var ops, ts := Ops(ch.links), ItemFilters(ch, |ch.links|, sc).value;
      && ChainFilter(ch, sc) == Ok(BoolF(Select(ops, ts, true, |ops|), Select(ops, ts, false, |ops|)))
      && |Select(ops, ts, true, |ops|)| + |Select(ops, ts, false, |ops|)| == |ch.links|
  {
    var ops, ts := Ops(ch.links), ItemFilters(ch, |ch.links|, sc).value;
    RootedFold(ops, ts);
    SelectPartition(ops, ts, |ops|);
  }

  /** A criteria alone on its chain emits a bool node whose only `must` clause is its own leaf. */
  lemma LoneCriteriaQuery(c: Criteria, sc: Scope)
    requires Ranked(sc) && c.chain in sc.rank && c.chain.links == [Link(c, First)]
    ensures LeafQuery(c.State()).Ok? ==> ChainQuery(c.chain, sc) == Ok(Bool([LeafQuery(c.State()).value], [], [], None))
    ensures LeafQuery(c.State()).Err? ==> ChainQuery(c.chain, sc) == Err(LeafQuery(c.State()).error)
  {
    var ch := c.chain;
    assert ItemQueries(ch, 0, sc) == Ok([]);
    if LeafQuery(c.State()).Ok? {
      var t := LeafQuery(c.State()).value;
      assert ItemQuery(ch, 0, sc) == Ok(t);
      assert ItemQueries(ch, 1, sc) == Ok([] + [t]);
      assert Ops(ch.links) == [] + [First];
      FoldSnoc([], [], First, t);
    } else {
      assert ItemQuery(ch, 0, sc) == LeafQuery(c.State());
    }
  }

  /**
   * A chain of two links, its creator's and one more: the FIRST tree follows
   * the second link into `must` (AND-like) or `should` (OR-like).
   */
  lemma TwoLinkChainQuery(ch: Chain, sc: Scope)
    requires Ranked(sc) && ch in sc.rank && |ch.links| == 2
    requires ch.links[0].op == First && ch.links[1].op != First
    requires ItemQuery(ch, 0, sc).Ok? && ItemQuery(ch, 1, sc).Ok?
    ensures var a, b := ItemQuery(ch, 0, sc).value, ItemQuery(ch, 1, sc).value;
      ChainQuery(ch, sc) == Ok(if ch.links[1].op.JoinsMust() then Bool([a, b], [], [], None) else Bool([], [a, b], [], None))
  {
    var a, b := ItemQuery(ch, 0, sc).value, ItemQuery(ch, 1, sc).value;
    assert ItemQueries(ch, 0, sc) == Ok([]);
    ItemQueriesSnoc(ch, 0, sc, [], a);
    assert [] + [a] == [a];
    ItemQueriesSnoc(ch, 1, sc, [a], b);
    assert [a] + [b] == [a, b];
    assert Ops(ch.links) == [First, ch.links[1].op];
    TwoLinkFold(ch.links[1].op, a, b);
  }

  /** A chain whose first link cannot be emitted as a filter emits that link's error. */
  lemma FirstLinkFilterFails(ch: Chain, sc: Scope)
    requires Ranked(sc) && ch in sc.rank && |ch.links| > 0 && ItemFilter(ch, 0, sc).Err?
    ensures ChainFilter(ch, sc) == Err(ItemFilter(ch, 0, sc).error)
  {
    assert ItemFilters(ch, 1, sc) == Err(ItemFilter(ch, 0, sc).error);
    ItemFiltersFirstError(ch, 1, |ch.links|, sc);
  }
}

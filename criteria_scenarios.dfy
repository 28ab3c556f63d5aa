/**
 * Whole criteria built through the fluent API and the trees they emit,
 * following the expectations written down in CriteriaTest and
 * SimpleStringCriteriaTest.
 */
module CriteriaScenarios {
  import opened Common
  import opened Trees
  import opened Escaping
  import opened ChainWalk
  import opened Entries
  import opened Criterias

  /** `field` with a wildcard clause of the given text. */
  function Wild(field: string, text: string): Query
  {
    FieldQ(field, Text(text), true)
  }

  /** A bool node with only `must` clauses. */
  function AllOf(qs: seq<Query>): Query
  {
    Bool(qs, [], [], None)
  }

  /** A node on `field` with the given entries, neither negated nor boosted. */
  function Plain(field: string, es: seq<Entry>): NodeState
  {
    NodeState(Some(field), None, es, false, None)
  }

  lemma PlainStartsEnds(field: string, a: string, b: string)
    requires forall i :: 0 <= i < |a| ==> a[i] !in ReservedStarts
    requires forall i :: 0 <= i < |b| ==> b[i] !in ReservedStarts
    ensures LeafQuery(Plain(field, [Entry.StartsWith(a), Entry.EndsWith(b)]))
         == Ok(AllOf([Wild(field, a + "*"), Wild(field, "*" + b)]))
  {
    var es := [Entry.StartsWith(a), Entry.EndsWith(b)];
    assert EntryQueries(field, es) == [EntryQuery(field, es[0]), EntryQuery(field, es[1])];
    NoReservedStart(a);
    NoReservedStart(b);
    PlainWildcardOperand(field, a);
    PlainWildcardOperand(field, b);
  }

  lemma AndLeaves()
    ensures LeafQuery(Plain("field_1", [Entry.StartsWith("start"), Entry.EndsWith("end")]))
         == Ok(AllOf([Wild("field_1", "start*"), Wild("field_1", "*end")]))
    ensures LeafQuery(Plain("field_2", [Entry.StartsWith("2start"), Entry.EndsWith("2end")]))
         == Ok(AllOf([Wild("field_2", "2start*"), Wild("field_2", "*2end")]))
  {
    PlainStartsEnds("field_1", "start", "end");
    PlainStartsEnds("field_2", "2start", "2end");
    assert "start" + "*" == "start*" && "*" + "end" == "*end";
    assert "2start" + "*" == "2start*" && "*" + "2end" == "*2end";
  }

  method BuildAnd() returns (c1: Criteria, c2: Criteria)
    ensures c1.chain == c2.chain && c1 != c2
    ensures c1.chain.links == [Link(c1, First), Link(c2, Conj.And)]
    ensures c1.State() == Plain("field_1", [Entry.StartsWith("start"), Entry.EndsWith("end")])
    ensures c2.State() == Plain("field_2", [Entry.StartsWith("2start"), Entry.EndsWith("2end")])
  {
    HasTextOfFirst("field_1");
    HasTextOfFirst("field_2");
    var w := Where(Some("field_1"));
    c1 := w.value;
    var _ := c1.StartsWith("start");
    var _ := c1.EndsWith("end");
    var s := c1.And(Some("field_2"));
    c2 := s.value;
    var _ := c2.StartsWith("2start");
    var _ := c2.EndsWith("2end");
  }

  /**
   * where("field_1").startsWith("start").endsWith("end").and("field_2").startsWith("2start").endsWith("2end"):
   * the returned criteria is the field_2 sibling, and it emits both nodes under `must`.
   */
  method AndScenario() returns (r: Result<Query>)
    ensures r == Ok(AllOf([
      AllOf([Wild("field_1", "start*"), Wild("field_1", "*end")]),
      AllOf([Wild("field_2", "2start*"), Wild("field_2", "*2end")])]))
  {
    var c1, c2 := BuildAnd();
    var ch := c2.chain;
    ghost var sc := Scope(map[ch := 0], {ch, c1, c2});
    assert Ranked(sc);
    AndLeaves();
    assert ItemQuery(ch, 0, sc) == LeafQuery(c1.State());
    assert ItemQuery(ch, 1, sc) == LeafQuery(c2.State());
    TwoLinkChainQuery(ch, sc);
    r := c2.GetQueryBuilder(sc);
  }

  lemma PlainStarts(field: string, a: string)
    requires forall i :: 0 <= i < |a| ==> a[i] !in ReservedStarts
    ensures LeafQuery(Plain(field, [Entry.StartsWith(a)])) == Ok(AllOf([Wild(field, a + "*")]))
  {
    var es := [Entry.StartsWith(a)];
    assert EntryQueries(field, es) == [EntryQuery(field, es[0])];
    NoReservedStart(a);
    PlainWildcardOperand(field, a);
  }

  lemma PlainEndsStarts(field: string, a: string, b: string)
    requires forall i :: 0 <= i < |a| ==> a[i] !in ReservedStarts
    requires forall i :: 0 <= i < |b| ==> b[i] !in ReservedStarts
    ensures LeafQuery(Plain(field, [Entry.EndsWith(a), Entry.StartsWith(b)]))
         == Ok(AllOf([Wild(field, "*" + a), Wild(field, b + "*")]))
  {
    var es := [Entry.EndsWith(a), Entry.StartsWith(b)];
    assert EntryQueries(field, es) == [EntryQuery(field, es[0]), EntryQuery(field, es[1])];
    NoReservedStart(a);
    NoReservedStart(b);
    PlainWildcardOperand(field, a);
    PlainWildcardOperand(field, b);
  }

  /** The two leaves of the OR scenarios. */
  lemma OrLeaves()
    ensures LeafQuery(Plain("field_1", [Entry.StartsWith("start")])) == Ok(AllOf([Wild("field_1", "start*")]))
    ensures LeafQuery(Plain("field_2", [Entry.EndsWith("end"), Entry.StartsWith("start2")]))
         == Ok(AllOf([Wild("field_2", "*end"), Wild("field_2", "start2*")]))
  {
    PlainStarts("field_1", "start");
    PlainEndsStarts("field_2", "end", "start2");
    assert "start" + "*" == "start*" && "*" + "end" == "*end" && "start2" + "*" == "start2*";
  }

  method BuildOr() returns (c1: Criteria, c2: Criteria)
    ensures c1.chain == c2.chain && c1 != c2
    ensures c1.chain.links == [Link(c1, First), Link(c2, Conj.Or)]
    ensures c1.State() == Plain("field_1", [Entry.StartsWith("start")])
    ensures c2.State() == Plain("field_2", [Entry.EndsWith("end"), Entry.StartsWith("start2")])
  {
    HasTextOfFirst("field_1");
    HasTextOfFirst("field_2");
    var w := Where(Some("field_1"));
    c1 := w.value;
    var _ := c1.StartsWith("start");
    var s := c1.Or(Some("field_2"));
    c2 := s.value;
    var _ := c2.EndsWith("end");
    var _ := c2.StartsWith("start2");
  }

  /**
   * where("field_1").startsWith("start").or("field_2").endsWith("end").startsWith("start2"):
   * the OR link sends both the FIRST node and the sibling to `should`.
   */
  method OrScenario() returns (r: Result<Query>)
    ensures r == Ok(Bool([], [
      AllOf([Wild("field_1", "start*")]),
      AllOf([Wild("field_2", "*end"), Wild("field_2", "start2*")])], [], None))
  {
    var c1, c2 := BuildOr();
    var ch := c2.chain;
    ghost var sc := Scope(map[ch := 0], {ch, c1, c2});
    assert Ranked(sc);
    OrLeaves();
    assert ItemQuery(ch, 0, sc) == LeafQuery(c1.State());
    assert ItemQuery(ch, 1, sc) == LeafQuery(c2.State());
    TwoLinkChainQuery(ch, sc);
    r := c2.GetQueryBuilder(sc);
  }

  method BuildOrWithCriteria() returns (c: Criteria, o: Criteria)
    ensures c != o && c.chain != o.chain
    ensures c.chain.links == [Link(c, First), Link(o, OrSub)]
    ensures o.chain.links == [Link(o, First)]
    ensures c.State() == Plain("field_1", [Entry.StartsWith("start")])
    ensures o.State() == Plain("field_2", [Entry.EndsWith("end"), Entry.StartsWith("start2")])
  {
    HasTextOfFirst("field_1");
    HasTextOfFirst("field_2");
    var w := Where(Some("field_1"));
    c := w.value;
    var _ := c.StartsWith("start");
    var w2 := Where(Some("field_2"));
    o := w2.value;
    var _ := o.EndsWith("end");
    var _ := o.StartsWith("start2");
    var _ := c.OrCriteria(o);
  }

  /**
   * where("field_1").startsWith("start").or(where("field_2").endsWith("end").startsWith("start2")):
   * the sub-criteria contributes its own chain's bool node as the second `should` clause.
   */
  method OrWithCriteriaScenario() returns (r: Result<Query>)
    ensures r == Ok(Bool([], [
      AllOf([Wild("field_1", "start*")]),
      AllOf([AllOf([Wild("field_2", "*end"), Wild("field_2", "start2*")])])], [], None))
  {
    var c, o := BuildOrWithCriteria();
    ghost var sc := Scope(map[c.chain := 1, o.chain := 0], {c.chain, o.chain, c, o});
    assert Ranked(sc);
    OrLeaves();
    LoneCriteriaQuery(o, sc);
    assert ItemQuery(c.chain, 0, sc) == LeafQuery(c.State());
    assert ItemQuery(c.chain, 1, sc) == ChainQuery(o.chain, sc);
    TwoLinkChainQuery(c.chain, sc);
    r := c.GetQueryBuilder(sc);
  }

  method BuildBoosted() returns (c1: Criteria, c3: Criteria)
    ensures c1.chain == c3.chain && c1 != c3
    ensures c1.chain.links == [Link(c1, First), Link(c3, Conj.And)]
    ensures c1.State() == Plain("field_1", [Equals(Text("value_1")), Equals(Text("value_2"))]).(boost := Some(2.0))
    ensures c3.State() == Plain("field_3", [Equals(Text("value_3"))])
  {
    HasTextOfFirst("field_1");
    HasTextOfFirst("field_3");
    var w := Where(Some("field_1"));
    c1 := w.value;
    var _ := c1.Is(Text("value_1"));
    var _ := c1.Is(Text("value_2"));
    var _ := c1.Boost(2.0);
    var s := c1.And(Some("field_3"));
    c3 := s.value;
    var _ := c3.Is(Text("value_3"));
  }

  /**
   * where("field_1").is("value_1").is("value_2").boost(2).and("field_3").is("value_3"):
   * the boost stays on the first node's bool and does not reach the sibling.
   */
  method BoostScenario() returns (r: Result<Query>)
    ensures r == Ok(AllOf([
      Bool([FieldQ("field_1", Text("value_1"), false), FieldQ("field_1", Text("value_2"), false)], [], [], Some(2.0)),
      AllOf([FieldQ("field_3", Text("value_3"), false)])]))
  {
    var c1, c3 := BuildBoosted();
    var ch := c3.chain;
    ghost var sc := Scope(map[ch := 0], {ch, c1, c3});
    assert Ranked(sc);
    var es1 := [Equals(Text("value_1")), Equals(Text("value_2"))];
    var es3 := [Equals(Text("value_3"))];
    assert EntryQueries("field_1", es1) == [EntryQuery("field_1", es1[0]), EntryQuery("field_1", es1[1])];
    assert EntryQueries("field_3", es3) == [EntryQuery("field_3", es3[0])];
    assert ItemQuery(ch, 0, sc) == LeafQuery(c1.State());
    assert ItemQuery(ch, 1, sc) == LeafQuery(c3.State());
    TwoLinkChainQuery(ch, sc);
    r := c3.GetQueryBuilder(sc);
  }

  /** where("field_1").is("value_1").not(): the node's bool is the single `mustNot` clause. */
  method NotScenario() returns (r: Result<Query>)
    ensures r == Ok(AllOf([Bool([], [], [AllOf([FieldQ("field_1", Text("value_1"), false)])], None)]))
  {
    HasTextOfFirst("field_1");
    var w := Where(Some("field_1"));
    var c := w.value;
    var _ := c.Is(Text("value_1"));
    var _ := c.Not();
    ghost var sc := Scope(map[c.chain := 0], {c.chain, c});
    assert Ranked(sc);
    var es := [Equals(Text("value_1"))];
    assert c.State() == Plain("field_1", es).(negating := true);
    assert EntryQueries("field_1", es) == [EntryQuery("field_1", es[0])];
    LoneCriteriaQuery(c, sc);
    r := c.GetQueryBuilder(sc);
  }

  /** new SimpleStringCriteria(q): the query string is passed through unescaped, without a default field. */
  method StringCriteriaScenario(q: string) returns (r: Result<Query>)
    ensures r == Ok(AllOf([AllOf([QueryStringQ(q, None)])]))
  {
    var c := new Criteria.StringCriteria(q);
    ghost var sc := Scope(map[c.chain := 0], {c.chain, c});
    assert Ranked(sc);
    LoneCriteriaQuery(c, sc);
    r := c.GetQueryBuilder(sc);
  }

  method BuildStringAndField(q: string) returns (c: Criteria, c3: Criteria)
    ensures c.chain == c3.chain && c != c3
    ensures c.chain.links == [Link(c, First), Link(c3, Conj.And)]
    ensures c.State() == NodeState(None, Some(q), [], false, None)
    ensures c3.State() == Plain("field_3", [Equals(Text("value_3"))])
  {
    HasTextOfFirst("field_3");
    c := new Criteria.StringCriteria(q);
    var s := c.And(Some("field_3"));
    c3 := s.value;
    var _ := c3.Is(Text("value_3"));
  }

  /**
   * new SimpleStringCriteria(q).and("field_3").is("value_3"): the query side
   * works, but the filter side dereferences the string criteria's missing field.
   */
  method StringCriteriaWithMoreFragments(q: string) returns (query: Result<Query>, filter: Result<Filter>)
    ensures query == Ok(AllOf([AllOf([QueryStringQ(q, None)]), AllOf([FieldQ("field_3", Text("value_3"), false)])]))
    ensures filter == Err(NullPointer)
  {
    var c, c3 := BuildStringAndField(q);
    var ch := c3.chain;
    ghost var sc := Scope(map[ch := 0], {ch, c, c3});
    assert Ranked(sc);
    var es := [Equals(Text("value_3"))];
    assert EntryQueries("field_3", es) == [EntryQuery("field_3", es[0])];
    assert ItemQuery(ch, 0, sc) == LeafQuery(c.State());
    assert ItemQuery(ch, 1, sc) == LeafQuery(c3.State());
    TwoLinkChainQuery(ch, sc);
    query := c3.GetQueryBuilder(sc);
    assert ItemFilter(ch, 0, sc) == Err(NullPointer);
    FirstLinkFilterFails(ch, sc);
    filter := c3.GetFilterBuilder(sc);
  }
}

/**
 * The query envelope `SimpleQuery`: a criteria plus pagination, an
 * accumulated sort, projection fields, filter queries and (never filled)
 * group-by fields.  Spring Data's `Sort`, `Order` and `PageRequest` are
 * taken as plain values.
 */
module Queries {
  import opened Common
  import opened Criterias

  /** Sort.Direction */
  datatype Direction = Asc | Desc

  /** Sort.Order: a property and its direction. */
  datatype Order = Order(direction: Direction, property: string)

  /** Sort: an ordered list of orders. */
  datatype Sort = Sort(orders: seq<Order>)

  /** PageRequest(page, size[, sort]) */
  datatype PageRequest = PageRequest(page: nat, size: nat, sort: Option<Sort>)
  {
    /** Pageable.getOffset */
    function Offset(): nat { page * size }
  }

  /** AbstractQuery.DEFAULT_PAGE_SIZE */
  const DefaultPageSize: nat := 10

  /** SimpleQuery.DEFAULT_PAGE: the first page of ten, unsorted. */
  const DefaultPage: PageRequest := PageRequest(0, DefaultPageSize, None)

  /** The orders a possibly absent sort stands for. */
  function OrdersOf(s: Option<Sort>): seq<Order>
  {
    if s.Some? then s.value.orders else []
  }

  /** How addSort folds a sort into the current one: null is ignored, the first is kept as is, later ones go after it (`Sort.and`). */
  function MergeSort(current: Option<Sort>, added: Option<Sort>): (r: Option<Sort>)
    ensures OrdersOf(r) == OrdersOf(current) + OrdersOf(added)
    ensures r.None? <==> current.None? && added.None?
    ensures current.None? ==> r == added
  {
    if added.None? then current
    else if current.None? then added
    else Some(Sort(current.value.orders + added.value.orders))
  }

  /** Adding sorts one call at a time or as an already joined sort gives the same result. */
  lemma MergeSortAssociative(a: Option<Sort>, b: Option<Sort>, c: Option<Sort>)
    ensures MergeSort(MergeSort(a, b), c) == MergeSort(a, MergeSort(b, c))
  {
    if a.Some? && b.Some? && c.Some? {
      assert a.value.orders + b.value.orders + c.value.orders == a.value.orders + (b.value.orders + c.value.orders);
    }
  }

  /** The sort left by a series of addSort calls, starting from `start`. */
  function SortAfter(start: Option<Sort>, added: seq<Option<Sort>>): Option<Sort>
  {
    if added == [] then start else MergeSort(SortAfter(start, added[..|added| - 1]), added[|added| - 1])
  }

  /** The orders of every sort added, in call order; null sorts contribute nothing. */
  function AllOrders(added: seq<Option<Sort>>): seq<Order>
  {
    if added == [] then [] else AllOrders(added[..|added| - 1]) + OrdersOf(added[|added| - 1])
  }

  /** A series of addSort calls keeps every order, within and across calls, and leaves the sort absent only when no call passed one. */
  lemma {:induction false} SortAfterOrders(start: Option<Sort>, added: seq<Option<Sort>>)
    ensures OrdersOf(SortAfter(start, added)) == OrdersOf(start) + AllOrders(added)
    ensures SortAfter(start, added).None? <==> start.None? && forall i :: 0 <= i < |added| ==> added[i].None?
  {
    if added != [] {
      var init := added[..|added| - 1];
      SortAfterOrders(start, init);
      assert OrdersOf(start) + AllOrders(init) + OrdersOf(added[|added| - 1])
          == OrdersOf(start) + (AllOrders(init) + OrdersOf(added[|added| - 1]));
      if SortAfter(start, added).None? {
        forall i | 0 <= i < |added| ensures added[i].None? {
          if i < |init| { assert added[i] == init[i]; }
        }
      }
    }
  }

  class SimpleQuery {
    /** AbstractQuery's criteria, as given. */
    var criteria: Criteria?
    /** Filter queries; only their criteria is ever read. */
    var filterQueries: seq<SimpleQuery?>
    var groupByFields: seq<string>
    /** None stands for a null pageable. */
    var pageable: Option<PageRequest>
    /** Names of the projection fields. */
    var projectionOnFields: seq<string>
    var sort: Option<Sort>

    /**
     * What every public operation keeps: group-by fields are never recorded
     * (adding one always fails) and every projection field name has text.
     */
    predicate Valid()
      reads this
    {
      && groupByFields == []
      && forall i :: 0 <= i < |projectionOnFields| ==> HasText(Some(projectionOnFields[i]))
    }

    /** SimpleQuery(): no criteria, the default page, nothing else. */
    constructor ()
      ensures Valid()
      ensures criteria == null && filterQueries == [] && groupByFields == [] && projectionOnFields == []
      ensures pageable == Some(DefaultPage) && sort == None
    {
      criteria, filterQueries, groupByFields := null, [], [];
      pageable, projectionOnFields, sort := Some(DefaultPage), [], None;
    }

    /** SimpleQuery(criteria): delegates with a null pageable, so the default page is dropped. */
    constructor WithCriteria(c: Criteria?)
      ensures Valid()
      ensures criteria == c && filterQueries == [] && groupByFields == [] && projectionOnFields == []
      ensures pageable == None && sort == None
    {
      criteria, filterQueries, groupByFields := c, [], [];
      pageable, projectionOnFields, sort := None, [], None;
    }

    /** SimpleQuery(criteria, pageable): keeps the pageable and takes over its sort. */
    constructor Paged(c: Criteria?, p: Option<PageRequest>)
      ensures Valid()
      ensures criteria == c && filterQueries == [] && groupByFields == [] && projectionOnFields == []
      ensures pageable == p
      ensures sort == (if p.Some? then p.value.sort else None)
    {
      criteria, filterQueries, groupByFields := c, [], [];
      pageable, projectionOnFields, sort := p, [], None;
      new;
      if p.Some? {
        var _ := AddSort(p.value.sort);
      }
    }

    /** addFilterQuery: appended as given, null included. */
    method AddFilterQuery(fq: SimpleQuery?) returns (r: SimpleQuery)
      modifies this
      requires Valid()
      ensures Valid() && r == this
      ensures filterQueries == old(filterQueries) + [fq]
      ensures criteria == old(criteria) && pageable == old(pageable) && sort == old(sort)
      ensures projectionOnFields == old(projectionOnFields) && groupByFields == old(groupByFields)
    {
      filterQueries := filterQueries + [fq];
      r := this;
    }

    /** addGroupByField (both overloads): not implemented, always fails and records nothing. */
    method AddGroupByField(name: Option<string>) returns (r: Result<SimpleQuery>)
      ensures r == Err(Unsupported)
    {
      r := Err(Unsupported);
    }

    /** addProjectionOnField (both overloads): the name must have text; it is appended. */
    method AddProjectionOnField(name: Option<string>) returns (r: Result<SimpleQuery>)
      modifies this
      requires Valid()
      ensures Valid()
      ensures r.Ok? <==> HasText(name)
      ensures r.Err? ==> r.error == IllegalArgument
      ensures r.Ok? ==> r.value == this
      ensures projectionOnFields == old(projectionOnFields) + (if HasText(name) then [name.value] else [])
      ensures criteria == old(criteria) && pageable == old(pageable) && sort == old(sort)
      ensures filterQueries == old(filterQueries) && groupByFields == old(groupByFields)
    {
      if !HasText(name) {
        return Err(IllegalArgument);
      }
      projectionOnFields := projectionOnFields + [name.value];
      r := Ok(this);
    }

    /**
     * addProjectionOnFields (both overloads): a null or empty list fails up
     * front; then each name is added in turn, and the first one without
     * text fails the call, the names before it staying added.
     */
    method AddProjectionOnFields(names: Option<seq<Option<string>>>) returns (r: Result<SimpleQuery>)
      modifies this
      requires Valid()
      ensures Valid()
      ensures r.Ok? <==> names.Some? && names.value != [] && FirstBlank(names.value) == |names.value|
      ensures r.Err? ==> r.error == IllegalArgument
      ensures r.Ok? ==> r.value == this
      ensures names.None? || names.value == [] ==> projectionOnFields == old(projectionOnFields)
      ensures names.Some? && names.value != [] ==>
        projectionOnFields == old(projectionOnFields) + Present(names.value[..FirstBlank(names.value)])
      ensures criteria == old(criteria) && pageable == old(pageable) && sort == old(sort)
      ensures filterQueries == old(filterQueries) && groupByFields == old(groupByFields)
    {
      if names.None? || names.value == [] {
        return Err(IllegalArgument);
      }
      var xs := names.value;
      var i := 0;
      while i < |xs|
        invariant 0 <= i <= FirstBlank(xs)
        invariant Valid()
        invariant projectionOnFields == old(projectionOnFields) + Present(xs[..i])
        invariant criteria == old(criteria) && pageable == old(pageable) && sort == old(sort)
        invariant filterQueries == old(filterQueries) && groupByFields == old(groupByFields)
      {
        var added := AddProjectionOnField(xs[i]);
        if added.Err? {
          return Err(IllegalArgument);
        }
        assert xs[..i + 1] == xs[..i] + [Some(xs[i].value)];
        PresentSnoc(xs[..i], xs[i].value);
        i := i + 1;
      }
      r := Ok(this);
    }

    /** addSort: null is ignored, the first sort is stored, later ones are appended to it. */
    method AddSort(s: Option<Sort>) returns (r: SimpleQuery)
      modifies this
      requires Valid()
      ensures Valid() && r == this
      ensures sort == MergeSort(old(sort), s)
      ensures criteria == old(criteria) && pageable == old(pageable) && projectionOnFields == old(projectionOnFields)
      ensures filterQueries == old(filterQueries) && groupByFields == old(groupByFields)
    {
      if s.Some? {
        if sort.None? {
          sort := s;
        } else {
          sort := Some(Sort(sort.value.orders + s.value.orders));
        }
      }
      r := this;
    }

    /** setPageRequest: a null pageable fails; otherwise it replaces the pageable and its sort is added. */
    method SetPageRequest(p: Option<PageRequest>) returns (r: Result<SimpleQuery>)
      modifies this
      requires Valid()
      ensures Valid()
      ensures r.Ok? <==> p.Some?
      ensures r.Err? ==> r.error == IllegalArgument && pageable == old(pageable) && sort == old(sort)
      ensures r.Ok? ==> r.value == this && pageable == p && sort == MergeSort(old(sort), p.value.sort)
      ensures criteria == old(criteria) && projectionOnFields == old(projectionOnFields)
      ensures filterQueries == old(filterQueries) && groupByFields == old(groupByFields)
    {
      if p.None? {
        return Err(IllegalArgument);
      }
      pageable := p;
      var q := AddSort(p.value.sort);
      r := Ok(q);
    }

    /**
     * fromQuery: null gives null; otherwise a new query sharing the source's
     * criteria and holding copies of its lists and sort, but with the
     * default page rather than the source's pageable.
     */
    static method FromQuery(source: SimpleQuery?) returns (r: SimpleQuery?)
      requires source != null ==> source.Valid()
      ensures source == null <==> r == null
      ensures r != null ==>
        && fresh(r) && r.Valid()
        && r.criteria == source.criteria
        && r.filterQueries == source.filterQueries
        && r.projectionOnFields == source.projectionOnFields
        && r.groupByFields == source.groupByFields
        && r.sort == source.sort
        && r.pageable == Some(DefaultPage)
    {
      if source == null {
        return null;
      }
      var q := new SimpleQuery();
      q.criteria := source.criteria;
      q.filterQueries := q.filterQueries + source.filterQueries;
      q.projectionOnFields := q.projectionOnFields + source.projectionOnFields;
      q.groupByFields := q.groupByFields + source.groupByFields;
      var _ := q.AddSort(source.sort);
      r := q;
    }
  }
}

/**
 * `QueryParser.constructESSearchQuery`: folds a query envelope into a
 * search request.  The request builder of the Elasticsearch client is
 * taken as a record (`SearchRequest`) that each `append*` step extends.
 */
module QueryParsing {
  import opened Common
  import opened Trees
  import opened Criterias
  import opened Queries
  import opened Facets

  /** SortOrder of the search request. */
  datatype SortOrder = SortAsc | SortDesc

  /** One `addSort(property, order)` call. */
  datatype SortEntry = SortEntry(property: string, order: SortOrder)

  /** A terms facet on a field; size and order are absent when left at the client's defaults. */
  datatype TermsFacet = TermsFacet(name: string, size: Option<int>, order: Option<FacetSort>)

  /** What the request builder holds once the parser is done. */
  datatype SearchRequest = SearchRequest(
    query: Option<Query>,
    from: Option<nat>,
    size: Option<nat>,
    facets: seq<TermsFacet>,
    filter: Option<Filter>,
    sorts: seq<SortEntry>)

  /** client.prepareSearch(): nothing set. */
  const EmptyRequest: SearchRequest := SearchRequest(None, None, None, [], None, [])

  // ----- the pieces of the request -----

  /** One sort entry per order, in order; ASC maps to asc and every other direction to desc. */
  function SortEntries(os: seq<Order>): (r: seq<SortEntry>)
    ensures |r| == |os|
    ensures forall i :: 0 <= i < |os| ==>
      r[i].property == os[i].property && (r[i].order == SortAsc <==> os[i].direction == Asc)
  {
    if os == [] then []
    else
      var o := os[|os| - 1];
      SortEntries(os[..|os| - 1]) + [SortEntry(o.property, if o.direction == Asc then SortAsc else SortDesc)]
  }

  /** One default terms facet per projection field, named after it, in order. */
  function ProjectionFacets(fields: seq<string>): (r: seq<TermsFacet>)
    ensures |r| == |fields|
    ensures forall i :: 0 <= i < |fields| ==> r[i] == TermsFacet(fields[i], None, None)
  {
    if fields == [] then []
    else ProjectionFacets(fields[..|fields| - 1]) + [TermsFacet(fields[|fields| - 1], None, None)]
  }

  /** One terms facet per facet field, in order, each with the option's limit and sort. */
  function FieldFacets(fields: seq<string>, limit: int, sort: FacetSort): (r: seq<TermsFacet>)
    ensures |r| == |fields|
    ensures forall i :: 0 <= i < |fields| ==> r[i] == TermsFacet(fields[i], Some(limit), Some(sort))
  {
    if fields == [] then []
    else FieldFacets(fields[..|fields| - 1], limit, sort) + [TermsFacet(fields[|fields| - 1], Some(limit), Some(sort))]
  }

  /** The facets a facet query's options contribute: none without options or without fields. */
  function OptionFacets(fo: FacetOptions?): seq<TermsFacet>
    reads fo
  {
    if fo == null || fo.facetOnFields == [] then []
    else FieldFacets(fo.facetOnFields, fo.facetLimit, fo.facetSort)
  }

  // ----- what the criteria of the query and of its filter queries emit -----

  /** A filter query whose filter can be asked for: its criteria's chain is ranked. */
  ghost predicate FilterScoped(fq: SimpleQuery?, sc: Scope)
    reads sc.objs
  {
    fq != null ==> fq in sc.objs && (fq.criteria != null ==> fq.criteria.chain in sc.rank)
  }

  /** Every criteria the parser may emit is ranked, so emission ends. */
  ghost predicate QueryScoped(q: SimpleQuery, sc: Scope)
    reads sc.objs
  {
    && Ranked(sc)
    && q in sc.objs
    && (q.criteria != null ==> q.criteria.chain in sc.rank)
    && forall i :: 0 <= i < |q.filterQueries| ==> FilterScoped(q.filterQueries[i], sc)
  }

  /** `filterQuery.getCriteria().getFilterBuilder()`: a null filter query or criteria is dereferenced. */
  ghost function FilterOf(fq: SimpleQuery?, sc: Scope): Result<Filter>
    reads sc.objs
    requires Ranked(sc) && FilterScoped(fq, sc)
  {
    if fq == null || fq.criteria == null then Err(NullPointer) else ChainFilter(fq.criteria.chain, sc)
  }

  /** The filters of the first n filter queries, or the error of the first one that fails. */
  ghost function FiltersOf(fqs: seq<SimpleQuery?>, n: nat, sc: Scope): (r: Result<seq<Filter>>)
    reads sc.objs
    requires Ranked(sc) && n <= |fqs| && forall i :: 0 <= i < |fqs| ==> FilterScoped(fqs[i], sc)
    ensures r.Ok? ==> |r.value| == n && forall i :: 0 <= i < n ==> FilterOf(fqs[i], sc) == Ok(r.value[i])
    ensures r.Err? ==> exists i :: 0 <= i < n && FilterOf(fqs[i], sc) == Err(r.error)
  {
    if n == 0 then Ok([])
    else
      var prev :- FiltersOf(fqs, n - 1, sc);
      var f :- FilterOf(fqs[n - 1], sc);
      Ok(prev + [f])
  }

  /**
   * The query options on top of `req`: from/size from the pageable when
   * there is one, one projection facet per field, the LAST of the filters
   * when there are any, and one sort entry per accumulated order.
   */
  function WithQueryOptions(req: SearchRequest, p: Option<PageRequest>, fields: seq<string>,
                            fs: seq<Filter>, sort: Option<Sort>): SearchRequest
  {
    req.(
      from := if p.Some? then Some(p.value.Offset()) else req.from,
      size := if p.Some? then Some(p.value.size) else req.size,
      facets := req.facets + ProjectionFacets(fields),
      filter := if fs == [] then req.filter else Some(fs[|fs| - 1]),
      sorts := req.sorts + SortEntries(OrdersOf(sort)))
  }

  /**
   * The request the parser builds: the criteria's scored tree as the query,
   * then the query options, then the option facets.  Every filter query is
   * emitted, so any of them can fail the call, although only the last one's
   * filter is kept.
   */
  ghost function RequestOf(query: SimpleQuery?, fo: FacetOptions?, sc: Scope): Result<SearchRequest>
    reads sc.objs, fo
    requires query != null ==> QueryScoped(query, sc)
  {
    if query == null || query.criteria == null then Err(IllegalArgument)
    else
      var q :- ChainQuery(query.criteria.chain, sc);
      var fs :- FiltersOf(query.filterQueries, |query.filterQueries|, sc);
      var withOptions := WithQueryOptions(EmptyRequest.(query := Some(q)), query.pageable,
                                          query.projectionOnFields, fs, query.sort);
      Ok(withOptions.(facets := withOptions.facets + OptionFacets(fo)))
  }

  // ----- the parser's steps -----

  /** getESQuery: no criteria gives no query, otherwise the criteria's scored tree. */
  method GetESQuery(query: SimpleQuery, ghost sc: Scope) returns (r: Result<Option<Query>>)
    requires QueryScoped(query, sc)
    ensures query.criteria == null ==> r == Ok(None)
    ensures query.criteria != null ==>
      match ChainQuery(query.criteria.chain, sc)
      case Ok(q) => r == Ok(Some(q))
      case Err(e) => r == Err(e)
  {
    if query.criteria == null {
      return Ok(None);
    }
    var q := query.criteria.GetQueryBuilder(sc);
    if q.Err? {
      return Err(q.error);
    }
    r := Ok(Some(q.value));
  }

  /** appendPagination: nothing for a null pageable, otherwise from = offset and size = page size. */
  method AppendPagination(req: SearchRequest, p: Option<PageRequest>) returns (r: SearchRequest)
    ensures p.None? ==> r == req
    ensures p.Some? ==> r == req.(from := Some(p.value.page * p.value.size), size := Some(p.value.size))
  {
    r := req;
    if p.Some? {
      r := r.(from := Some(p.value.Offset()));
      r := r.(size := Some(p.value.size));
    }
  }

  /** appendProjectionOnFields: one default terms facet per projection field. */
  method AppendProjectionOnFields(req: SearchRequest, fields: seq<string>) returns (r: SearchRequest)
    ensures r == req.(facets := req.facets + ProjectionFacets(fields))
  {
    r := req;
    var i := 0;
    while i < |fields|
      invariant 0 <= i <= |fields|
      invariant r == req.(facets := req.facets + ProjectionFacets(fields[..i]))
    {
      assert fields[..i + 1][..i] == fields[..i];
      r := r.(facets := r.facets + [TermsFacet(fields[i], None, None)]);
      i := i + 1;
    }
    assert fields[..i] == fields;
  }

  /** appendFilterQuery: `setFilter` once per filter query, so the last filter stays. */
  method AppendFilterQuery(req: SearchRequest, fqs: seq<SimpleQuery?>, ghost sc: Scope) returns (r: Result<SearchRequest>)
    requires Ranked(sc) && forall i :: 0 <= i < |fqs| ==> FilterScoped(fqs[i], sc)
    ensures FiltersOf(fqs, |fqs|, sc).Err? ==> r == Err(FiltersOf(fqs, |fqs|, sc).error)
    ensures FiltersOf(fqs, |fqs|, sc).Ok? && fqs == [] ==> r == Ok(req)
    ensures FiltersOf(fqs, |fqs|, sc).Ok? && fqs != [] ==>
      r == Ok(req.(filter := Some(FiltersOf(fqs, |fqs|, sc).value[|fqs| - 1])))
  {
    var cur := req;
    ghost var fs: seq<Filter> := [];
    var i := 0;
    while i < |fqs|
      invariant 0 <= i <= |fqs|
      invariant FiltersOf(fqs, i, sc) == Ok(fs)
      invariant cur == if i == 0 then req else req.(filter := Some(fs[i - 1]))
    {
      var f := FilterOfQuery(fqs[i], sc);
      if f.Err? {
        FiltersStop(fqs, i, sc);
        return Err(f.error);
      }
      FiltersSnoc(fqs, i, sc, fs, f.value);
      cur := cur.(filter := Some(f.value));
      fs := fs + [f.value];
      i := i + 1;
    }
    r := Ok(cur);
  }

  /** One filter query's filter: its criteria's filter tree; a null filter query or criteria is dereferenced. */
  method FilterOfQuery(fq: SimpleQuery?, ghost sc: Scope) returns (f: Result<Filter>)
    requires Ranked(sc) && FilterScoped(fq, sc)
    ensures f == FilterOf(fq, sc)
  {
    if fq == null || fq.criteria == null {
      return Err(NullPointer);
    }
    f := fq.criteria.GetFilterBuilder(sc);
  }

  lemma FiltersSnoc(fqs: seq<SimpleQuery?>, i: nat, sc: Scope, fs: seq<Filter>, f: Filter)
    requires Ranked(sc) && i < |fqs| && forall k :: 0 <= k < |fqs| ==> FilterScoped(fqs[k], sc)
    requires FiltersOf(fqs, i, sc) == Ok(fs) && FilterOf(fqs[i], sc) == Ok(f)
    ensures FiltersOf(fqs, i + 1, sc) == Ok(fs + [f])
  {
  }

  lemma FiltersStop(fqs: seq<SimpleQuery?>, i: nat, sc: Scope)
    requires Ranked(sc) && i < |fqs| && forall k :: 0 <= k < |fqs| ==> FilterScoped(fqs[k], sc)
    requires FiltersOf(fqs, i, sc).Ok? && FilterOf(fqs[i], sc).Err?
    ensures FiltersOf(fqs, |fqs|, sc) == Err(FilterOf(fqs[i], sc).error)
  {
    assert FiltersOf(fqs, i + 1, sc) == Err(FilterOf(fqs[i], sc).error);
    FiltersFirstError(fqs, i + 1, |fqs|, sc);
  }

  /** The filter walk stops at the first filter query that fails. */
  lemma {:induction false} FiltersFirstError(fqs: seq<SimpleQuery?>, m: nat, n: nat, sc: Scope)
    requires Ranked(sc) && m <= n <= |fqs| && forall i :: 0 <= i < |fqs| ==> FilterScoped(fqs[i], sc)
    ensures FiltersOf(fqs, m, sc).Err? ==> FiltersOf(fqs, n, sc) == FiltersOf(fqs, m, sc)
    decreases n
  {
    if m < n {
      FiltersFirstError(fqs, m, n - 1, sc);
    }
  }

  /** appendSort: one sort entry per order of the accumulated sort; nothing for a null sort. */
  method AppendSort(req: SearchRequest, sort: Option<Sort>) returns (r: SearchRequest)
    ensures r == req.(sorts := req.sorts + SortEntries(OrdersOf(sort)))
  {
    r := req;
    if sort.None? {
      return;
    }
    var os := sort.value.orders;
    var i := 0;
    while i < |os|
      invariant 0 <= i <= |os|
      invariant r == req.(sorts := req.sorts + SortEntries(os[..i]))
    {
      assert os[..i + 1][..i] == os[..i];
      r := r.(sorts := r.sorts + [SortEntry(os[i].property, if os[i].direction == Asc then SortAsc else SortDesc)]);
      i := i + 1;
    }
    assert os[..i] == os;
  }

  /** appendFacetingOnFields: only options with fields add facets, each with the limit and sort. */
  method AppendFacetingOnFields(req: SearchRequest, fo: FacetOptions?) returns (r: SearchRequest)
    ensures r == req.(facets := req.facets + OptionFacets(fo))
  {
    r := req;
    if fo == null || fo.facetOnFields == [] {
      return;
    }
    var fields := fo.facetOnFields;
    var i := 0;
    while i < |fields|
      invariant 0 <= i <= |fields|
      invariant r == req.(facets := req.facets + FieldFacets(fields[..i], fo.facetLimit, fo.facetSort))
    {
      assert fields[..i + 1][..i] == fields[..i];
      r := r.(facets := r.facets + [TermsFacet(fields[i], Some(fo.facetLimit), Some(fo.facetSort))]);
      i := i + 1;
    }
    assert fields[..i] == fields;
  }

  /** processQueryOptions: pagination, projection, filter, sort, in that order. */
  method ProcessQueryOptions(req: SearchRequest, query: SimpleQuery, ghost sc: Scope) returns (r: Result<SearchRequest>)
    requires QueryScoped(query, sc)
    ensures FiltersOf(query.filterQueries, |query.filterQueries|, sc).Err? ==>
      r == Err(FiltersOf(query.filterQueries, |query.filterQueries|, sc).error)
    ensures FiltersOf(query.filterQueries, |query.filterQueries|, sc).Ok? ==>
      r == Ok(WithQueryOptions(req, query.pageable, query.projectionOnFields,
                               FiltersOf(query.filterQueries, |query.filterQueries|, sc).value, query.sort))
  {
    var cur := AppendPagination(req, query.pageable);
    cur := AppendProjectionOnFields(cur, query.projectionOnFields);
    var filtered := AppendFilterQuery(cur, query.filterQueries, sc);
    if filtered.Err? {
      return Err(filtered.error);
    }
    cur := AppendSort(filtered.value, query.sort);
    r := Ok(cur);
  }

  /**
   * constructESSearchQuery: rejects a null query and a query without
   * criteria, sets the query clause, then the query options, then the facet
   * options (`fo` is null when the query is not a facet query or has none).
   */
  method ConstructSearchRequest(query: SimpleQuery?, fo: FacetOptions?, ghost sc: Scope) returns (r: Result<SearchRequest>)
    requires query != null ==> QueryScoped(query, sc)
    ensures r == RequestOf(query, fo, sc)
  {
    if query == null || query.criteria == null {
      return Err(IllegalArgument);
    }
    var req := EmptyRequest;
    var q := GetESQuery(query, sc);
    if q.Err? {
      return Err(q.error);
    }
    assert ChainQuery(query.criteria.chain, sc) == Ok(q.value.value);
    if q.value.Some? {
      req := req.(query := q.value);
    }
    ghost var fs := FiltersOf(query.filterQueries, |query.filterQueries|, sc);
    var withOptions := ProcessQueryOptions(req, query, sc);
    if withOptions.Err? {
      assert fs.Err?;
      return Err(withOptions.error);
    }
    assert fs.Ok?;
    req := AppendFacetingOnFields(withOptions.value, fo);
    r := Ok(req);
  }

  // ----- what the request holds -----

  /**
   * A request that could be built holds: the criteria's scored tree; from
   * and size exactly when there is a pageable (from = page * size); one
   * default facet per projection field followed by one sized, ordered facet
   * per facet field; the filter of the last filter query, or none without
   * filter queries; and one sort entry per order.
   */
  lemma RequestContents(query: SimpleQuery, fo: FacetOptions?, sc: Scope)
    requires QueryScoped(query, sc) && RequestOf(query, fo, sc).Ok?
    ensures var req := RequestOf(query, fo, sc).value;
      && query.criteria != null
      && ChainQuery(query.criteria.chain, sc).Ok? && req.query == Some(ChainQuery(query.criteria.chain, sc).value)
      && (query.pageable.None? ==> req.from.None? && req.size.None?)
      && (query.pageable.Some? ==>
            req.from == Some(query.pageable.value.page * query.pageable.value.size)
            && req.size == Some(query.pageable.value.size))
      && (query.filterQueries == [] ==> req.filter.None?)
      && (query.filterQueries != [] ==>
            req.filter.Some?
            && FilterOf(query.filterQueries[|query.filterQueries| - 1], sc) == Ok(req.filter.value))
      && req.sorts == SortEntries(OrdersOf(query.sort))
  {
    var fs := FiltersOf(query.filterQueries, |query.filterQueries|, sc);
    assert fs.Ok?;
  }

  /** The facets: projection facets first, then the facets of the options. */
  lemma RequestFacets(query: SimpleQuery, fo: FacetOptions?, sc: Scope)
    requires QueryScoped(query, sc) && RequestOf(query, fo, sc).Ok?
    ensures RequestOf(query, fo, sc).value.facets == ProjectionFacets(query.projectionOnFields) + OptionFacets(fo)
  {
    var fs := FiltersOf(query.filterQueries, |query.filterQueries|, sc);
    assert fs.Ok?;
  }

  /**
   * That facet list position by position: one default facet per projection
   * field, then, only for options with fields, one facet per facet field
   * with the options' limit and sort.
   */
  lemma FacetListing(fields: seq<string>, fo: FacetOptions?)
    ensures var facets := ProjectionFacets(fields) + OptionFacets(fo);
      && (fo == null || fo.facetOnFields == [] ==> |facets| == |fields|)
      && (fo != null ==> |facets| == |fields| + |fo.facetOnFields|)
      && (forall i :: 0 <= i < |fields| ==> facets[i] == TermsFacet(fields[i], None, None))
      && (fo != null ==> forall j :: 0 <= j < |fo.facetOnFields| ==>
            facets[|fields| + j] == TermsFacet(fo.facetOnFields[j], Some(fo.facetLimit), Some(fo.facetSort)))
  {
    var pf := ProjectionFacets(fields);
    if fo == null || fo.facetOnFields == [] {
      assert OptionFacets(fo) == [] && pf + [] == pf;
    } else {
      var of := FieldFacets(fo.facetOnFields, fo.facetLimit, fo.facetSort);
      assert OptionFacets(fo) == of;
      ListingParts(pf, of, fields, fo.facetOnFields, fo.facetLimit, fo.facetSort);
    }
  }

  lemma ListingParts(pf: seq<TermsFacet>, of: seq<TermsFacet>, fields: seq<string>, facetFields: seq<string>, limit: int, sort: FacetSort)
    requires |pf| == |fields| && forall i :: 0 <= i < |fields| ==> pf[i] == TermsFacet(fields[i], None, None)
    requires |of| == |facetFields| && forall j :: 0 <= j < |facetFields| ==> of[j] == TermsFacet(facetFields[j], Some(limit), Some(sort))
    ensures forall i :: 0 <= i < |fields| ==> (pf + of)[i] == TermsFacet(fields[i], None, None)
    ensures forall j :: 0 <= j < |facetFields| ==> (pf + of)[|fields| + j] == TermsFacet(facetFields[j], Some(limit), Some(sort))
  {
    forall j | 0 <= j < |facetFields| ensures (pf + of)[|fields| + j] == TermsFacet(facetFields[j], Some(limit), Some(sort)) {
      assert (pf + of)[|pf| + j] == of[j];
    }
  }

  /**
   * Why a request cannot be built: a null query or a query without
   * criteria, or the error of the criteria's emission, or the error of one
   * of the filter queries' emission.
   */
  lemma RequestErrors(query: SimpleQuery?, fo: FacetOptions?, sc: Scope)
    requires query != null ==> QueryScoped(query, sc)
    requires RequestOf(query, fo, sc).Err?
    ensures var e := RequestOf(query, fo, sc).error;
      || ((query == null || query.criteria == null) && e == IllegalArgument)
      || (query != null && query.criteria != null && ChainQuery(query.criteria.chain, sc) == Err(e))
      || (query != null && query.criteria != null && ChainQuery(query.criteria.chain, sc).Ok?
          && exists i :: 0 <= i < |query.filterQueries| && FilterOf(query.filterQueries[i], sc) == Err(e))
  {
    if query != null && query.criteria != null && ChainQuery(query.criteria.chain, sc).Ok? {
      var fs := FiltersOf(query.filterQueries, |query.filterQueries|, sc);
      assert fs.Err?;
    }
  }

  /** A null filter query, or one without criteria, fails the whole request with a null dereference once the query itself emits. */
  lemma NullFilterQueryFails(query: SimpleQuery, fo: FacetOptions?, sc: Scope, k: nat)
    requires QueryScoped(query, sc) && query.criteria != null && ChainQuery(query.criteria.chain, sc).Ok?
    requires k < |query.filterQueries|
    requires query.filterQueries[k] == null || query.filterQueries[k].criteria == null
    requires forall i :: 0 <= i < k ==> FilterOf(query.filterQueries[i], sc).Ok?
    ensures RequestOf(query, fo, sc) == Err(NullPointer)
  {
    var fqs := query.filterQueries;
    FiltersPrefixOk(fqs, k, sc);
    assert FilterScoped(fqs[k], sc);
    assert FiltersOf(fqs, k + 1, sc) == Err(NullPointer);
    FiltersFirstError(fqs, k + 1, |fqs|, sc);
  }

  /** When each of the first n filter queries emits, so does the walk over them. */
  lemma {:induction false} FiltersPrefixOk(fqs: seq<SimpleQuery?>, n: nat, sc: Scope)
    requires Ranked(sc) && n <= |fqs| && forall i :: 0 <= i < |fqs| ==> FilterScoped(fqs[i], sc)
    requires forall i :: 0 <= i < n ==> FilterOf(fqs[i], sc).Ok?
    ensures FiltersOf(fqs, n, sc).Ok?
  {
    if n > 0 {
      FiltersPrefixOk(fqs, n - 1, sc);
    }
  }
}

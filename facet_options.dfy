/**
 * `FacetOptions`: the fields to facet on, a result limit and a sort order
 * for the facet entries.  The minimum count and the pageable cannot be
 * changed; their setters always fail.
 */
module Facets {
  import opened Common
  import opened Queries

  /** Elasticsearch's TermsFacet.ComparatorType */
  datatype FacetSort = Count | ReverseCount | Term | ReverseTerm

  /** DEFAULT_FACET_LIMIT */
  const DefaultFacetLimit: int := 10
  /** DEFAULT_FACET_MIN_COUNT */
  const DefaultFacetMinCount: int := 1
  /** DEFAULT_FACET_SORT */
  const DefaultFacetSort: FacetSort := Count

  class FacetOptions {
    var facetLimit: int
    const facetMinCount: int
    /** Names of the fields faceted on, in the order they were added. */
    var facetOnFields: seq<string>
    var facetSort: FacetSort

    /** What every operation keeps: the limit is at least one and every field name has text. */
    predicate Valid()
      reads this
    {
      && facetLimit >= 1
      && facetMinCount == DefaultFacetMinCount
      && forall i :: 0 <= i < |facetOnFields| ==> HasText(Some(facetOnFields[i]))
    }

    /** FacetOptions(): the defaults and no fields. */
    constructor ()
      ensures Valid()
      ensures facetLimit == DefaultFacetLimit && facetMinCount == DefaultFacetMinCount
      ensures facetSort == DefaultFacetSort && facetOnFields == []
    {
      facetLimit, facetMinCount, facetOnFields, facetSort := DefaultFacetLimit, DefaultFacetMinCount, [], DefaultFacetSort;
    }

    /** addFacetOnField (both overloads): the name must have text; it is appended. */
    method AddFacetOnField(name: Option<string>) returns (r: Result<FacetOptions>)
      modifies this
      requires Valid()
      ensures Valid()
      ensures r.Ok? <==> HasText(name)
      ensures r.Err? ==> r.error == IllegalArgument
      ensures r.Ok? ==> r.value == this
      ensures facetOnFields == old(facetOnFields) + (if HasText(name) then [name.value] else [])
      ensures facetLimit == old(facetLimit) && facetSort == old(facetSort)
    {
      if !HasText(name) {
        return Err(IllegalArgument);
      }
      facetOnFields := facetOnFields + [name.value];
      r := Ok(this);
    }

    /** setFacetLimit: stores the limit raised to at least one. */
    method SetFacetLimit(n: int) returns (r: FacetOptions)
      modifies this
      requires Valid()
      ensures Valid() && r == this
      ensures facetLimit == (if n < 1 then 1 else n)
      ensures facetOnFields == old(facetOnFields) && facetSort == old(facetSort)
    {
      facetLimit := if n < 1 then 1 else n;
      r := this;
    }

    /** setFacetMinCount: not implemented, always fails. */
    method SetFacetMinCount(n: int) returns (r: Result<FacetOptions>)
      ensures r == Err(Unsupported)
    {
      r := Err(Unsupported);
    }

    /** setFacetSort: a null sort fails; otherwise it replaces the sort and nothing else. */
    method SetFacetSort(s: Option<FacetSort>) returns (r: Result<FacetOptions>)
      modifies this
      requires Valid()
      ensures Valid()
      ensures r.Ok? <==> s.Some?
      ensures r.Err? ==> r.error == IllegalArgument && facetSort == old(facetSort)
      ensures r.Ok? ==> r.value == this && facetSort == s.value
      ensures facetLimit == old(facetLimit) && facetOnFields == old(facetOnFields)
    {
      if s.None? {
        return Err(IllegalArgument);
      }
      facetSort := s.value;
      r := Ok(this);
    }

    /** setPageable: not implemented, always fails. */
    method SetPageable(p: Option<PageRequest>) returns (r: Result<FacetOptions>)
      ensures r == Err(Unsupported)
    {
      r := Err(Unsupported);
    }

    /** hasFields */
    method HasFields() returns (b: bool)
      ensures b <==> |facetOnFields| > 0
    {
      b := facetOnFields != [];
    }

    /** getPageable: no pageable can ever be set, so it is always the first page of `facetLimit` entries. */
    method GetPageable() returns (p: PageRequest)
      requires Valid()
      ensures p.Offset() == 0 && p.size == facetLimit && p.sort.None?
    {
      p := PageRequest(0, facetLimit, None);
    }
  }

  /**
   * FacetOptions(String...) and FacetOptions(Field...): a null list or a null
   * element fails before anything is added; then each name is added in turn,
   * and a name without text fails the construction.
   */
  method NewFacetOptions(names: Option<seq<Option<string>>>) returns (r: Result<FacetOptions>)
    ensures r.Ok? <==> names.Some? && FirstBlank(names.value) == |names.value|
    ensures r.Err? ==> r.error == IllegalArgument
    ensures r.Ok? ==>
      && fresh(r.value) && r.value.Valid()
      && r.value.facetLimit == DefaultFacetLimit && r.value.facetSort == DefaultFacetSort
      && r.value.facetOnFields == Present(names.value)
  {
    if names.None? {
      return Err(IllegalArgument);
    }
    var xs := names.value;
    if exists i :: 0 <= i < |xs| && xs[i].None? {
      return Err(IllegalArgument);
    }
    var o := new FacetOptions();
    var i := 0;
    while i < |xs|
      invariant 0 <= i <= FirstBlank(xs)
      invariant o.Valid() && fresh(o)
      invariant o.facetLimit == DefaultFacetLimit && o.facetSort == DefaultFacetSort
      invariant o.facetOnFields == Present(xs[..i])
    {
      var added := o.AddFacetOnField(xs[i]);
      if added.Err? {
        return Err(IllegalArgument);
      }
      assert xs[..i + 1] == xs[..i] + [Some(xs[i].value)];
      PresentSnoc(xs[..i], xs[i].value);
      i := i + 1;
    }
    assert xs[..i] == xs;
    r := Ok(o);
  }

  /** The fields faceted on are exactly the given names, in order. */
  lemma FacetFieldsInOrder(names: seq<Option<string>>)
    requires FirstBlank(names) == |names|
    ensures |Present(names)| == |names|
    ensures forall i :: 0 <= i < |names| ==> Present(names)[i] == names[i].value
  {
    PresentAll(names);
  }
}

/**
 * The trees the criteria compiler emits, as plain values: the scored query
 * side (`QueryBuilder`s of the search library) and the non-scored filter
 * side (`FilterBuilder`s).  Operand values are opaque; how the library
 * renders them as JSON is not part of the model.
 */
module Trees {
  import opened Common

  /** An operand: a string, or any other object (number, date, ...) kept opaque. */
  datatype Value = Text(text: string) | Opaque(id: int)

  /** A geo point in degrees. */
  datatype GeoLocation = GeoLocation(latitude: real, longitude: real)

  datatype Query =
      /** boolQuery(): must / should / mustNot children and an optional boost */
    | Bool(must: seq<Query>, should: seq<Query>, mustNot: seq<Query>, boost: Option<real>)
      /** fieldQuery(field, value), with analyzeWildcard(true) when `analyzeWildcard` */
    | FieldQ(field: string, value: Value, analyzeWildcard: bool)
      /** rangeQuery(field) with the bounds that were set */
    | RangeQ(field: string, from: Option<Value>, to: Option<Value>)
      /** fuzzyQuery(field, value) with an optional minSimilarity */
    | FuzzyQ(field: string, text: string, minSimilarity: Option<string>)
      /** queryString(query) with an optional defaultField */
    | QueryStringQ(query: string, defaultField: Option<string>)
      /** filteredQuery(query, filter) */
    | Filtered(inner: Query, filter: Filter)
      /** matchAllQuery() */
    | MatchAll
      /** inQuery(field, values...): a terms query */
    | TermsQ(field: string, values: seq<Value>)

  datatype Filter =
      /** boolFilter() */
    | BoolF(must: seq<Filter>, should: seq<Filter>)
      /** andFilter(filters...) */
    | AndF(filters: seq<Filter>)
      /** queryFilter(query) */
    | QueryF(query: Query)
      /** rangeFilter(field) with the bounds that were set */
    | RangeF(field: string, from: Option<Value>, to: Option<Value>)
      /** geoDistanceFilter(field).lat(..).lon(..).distance(d, KILOMETERS) */
    | GeoF(field: string, location: GeoLocation, distanceKm: real)
      /** inFilter(field, values...) */
    | InF(field: string, values: seq<Value>)
      /** notFilter(filter) */
    | NotF(filter: Filter)
}

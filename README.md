# Criteria-to-query compiler of spring-data-elasticsearch (pl.eforce)

This project models the core of an early Spring Data repository layer for Elasticsearch, with proofs about it:

- **`Criteria`.** A fluent builder in which every node records its own entries, negation and boost. Each node also refers to a *criteria chain*, an insertion-ordered map from criteria to a conjunction operator (FIRST, AND, OR, AND_SUBCRITERIA, OR_SUBCRITERIA). Siblings created with `and(field)` / `or(field)` share the chain object with their creator. `SimpleStringCriteria` is the variant that carries a raw query string.
- **Two emitters.** They walk the chain with a "pending FIRST" variable. One builds a scored bool query, the other a bool filter. Sub-criteria contribute their own chain's tree, and reserved characters are escaped in wildcard operands.
- **The query envelope.** `SimpleQuery` (criteria, filter queries, projection fields, pageable, accumulated sort) and `FacetOptions` (facet fields, limit, sort).
- **`QueryParser`.** It folds an envelope into a search request: the query clause, from/size, one terms facet per projection field, the last filter, sort entries, then faceting.
- **Small rules:**
  - `?n` placeholder substitution in string-based repository queries;
  - type and index name derivation for document classes;
  - translation of Elasticsearch REST statuses into Spring data-access exception categories.

## Modules

- **`Common`:** Option/Result, Spring's `hasText`, and a few list helpers.
- **`Trees`:** the emitted query and filter trees as datatypes. Values are opaque.
- **`Escaping`:** `escapeCriteriaValue` and its round trip.
- **`ChainWalk`:** the pending-first walk over a chain, written once for both emitters, and its reference characterisation.
- **`Entries`:** criteria entries and the per-node leaf trees (`constructFieldQuery`, `constructQueryBuilder` and their filter twins).
- **`Criterias`:**
  - the shared `Chain` (LinkedHashMap put semantics);
  - the `Criteria` class with every builder method and both emitters;
  - the ghost functions that specify emission. Termination is by a rank on chains.
- **`CriteriaScenarios`:** the builder sequences of the criteria tests and the trees they emit.
- **`Queries`:** `SimpleQuery`, pages and sorts.
- **`Facets`:** `FacetOptions`.
- **`QueryParsing`:** the request assembler.
- **`Placeholders`:** `replacePlaceholders`, `getParameterWithIndex` and `createQuery`.
- **`DocumentInfo`:** `SimpleElasticSearchPersistentEntity`.
- **`ExceptionTranslation`:** `ESExceptionTranslator`.

Exceptions are modelled as `Err` values:

| Error | Source exception |
|---|---|
| `IllegalArgument` | Spring `Assert` |
| `InvalidApiUsage` | `InvalidDataAccessApiUsageException` |
| `Unsupported` | `UnsupportedOperationException` |
| `NullPointer` | a null dereferenced during emission |
| `NumberFormat` | `Integer.parseInt` overflow |
| `IndexOutOfBounds` | a placeholder index beyond the parameters |

## Model

| member | source | states |
|---|---|---|
| Criterias.PutLinkIsMapPut | src/main/java/pl/eforce/spring/data/es/core/query/Criteria.java:144 | `put` on the chain is a map update. A key already present keeps its position and takes the new operator; a new key goes last; keys stay distinct |
| Criterias.PutLink | src/main/java/pl/eforce/spring/data/es/core/query/Criteria.java:217 | after `put`, the link (node, op) is in the chain; the chain grows by at most one link; every link on another node stays where it was, unchanged |
| Criterias.PutAllLookup | src/main/java/pl/eforce/spring/data/es/core/query/Criteria.java:202-207 | after `and(Criteria...)` every given criteria maps to AND_SUBCRITERIA and every other key keeps its operator |
| Criterias.Chain.Put | src/main/java/pl/eforce/spring/data/es/core/query/Criteria.java:144 | the chain's new links are the LinkedHashMap put of the old ones |
| Criterias.FlattenMembers | src/main/java/pl/eforce/spring/data/es/core/query/Criteria.java:430-442 | a value is in the flattened `in` list exactly when some item is that value or a nested collection holding it |
| Criterias.Flatten | src/main/java/pl/eforce/spring/data/es/core/query/Criteria.java:433-439 | a list of plain values (no nested collection) is kept as is: same length, same values in the same order |
| Criterias.Criteria.Blank | src/main/java/pl/eforce/spring/data/es/core/query/Criteria.java:150-152 | a blank criteria has no field and no entries, and its fresh chain is exactly [(itself, FIRST)] |
| Criterias.Criteria.Named | src/main/java/pl/eforce/spring/data/es/core/query/Criteria.java:159-174 | a field criteria has that field and a fresh chain [(itself, FIRST)] |
| Criterias.Criteria.InChain | src/main/java/pl/eforce/spring/data/es/core/query/Criteria.java:176-183 | the protected constructor shares the given chain and does not enter it |
| Criterias.Criteria.StringCriteria | src/main/java/pl/eforce/spring/data/es/core/query/SimpleStringCriteria.java:32-35 | after the super constructor's put and its own put, the chain holds itself once, tagged FIRST; no field, the query string kept |
| Criterias.Where | src/main/java/pl/eforce/spring/data/es/core/query/Criteria.java:126-138 | a field name without text is refused; otherwise a fresh node with that field on its own fresh chain |
| Criterias.Criteria.And | src/main/java/pl/eforce/spring/data/es/core/query/Criteria.java:215-229 | `and(field)` refuses a blank name; otherwise it returns a fresh sibling on the same chain object, appended with AND |
| Criterias.Criteria.Or | src/main/java/pl/eforce/spring/data/es/core/query/Criteria.java:528-542 | `or(field)`: as `and(field)` but tagged OR |
| Criterias.Criteria.AndCriteria | src/main/java/pl/eforce/spring/data/es/core/query/Criteria.java:191-194 | the other criteria is put with AND_SUBCRITERIA and this node is returned |
| Criterias.Criteria.AndAll | src/main/java/pl/eforce/spring/data/es/core/query/Criteria.java:202-207 | each criteria in turn is put with AND_SUBCRITERIA |
| Criterias.Criteria.OrCriteria | src/main/java/pl/eforce/spring/data/es/core/query/Criteria.java:516-520 | a null criteria is refused and the chain is unchanged; otherwise it is put with OR_SUBCRITERIA |
| Criterias.Criteria.Is | src/main/java/pl/eforce/spring/data/es/core/query/Criteria.java:464-467 | exactly one EQUALS entry is appended; negation and boost are unchanged |
| Criterias.Criteria.Between | src/main/java/pl/eforce/spring/data/es/core/query/Criteria.java:238-245 | a range open at both ends fails with nothing appended; otherwise one BETWEEN entry is appended |
| Criterias.Criteria.GreaterThanEqual | src/main/java/pl/eforce/spring/data/es/core/query/Criteria.java:418-421 | `between(lower, null)`: a null bound fails |
| Criterias.Criteria.LessThanEqual | src/main/java/pl/eforce/spring/data/es/core/query/Criteria.java:475-478 | `between(null, upper)`: a null bound fails |
| Criterias.Criteria.Wildcarded | src/main/java/pl/eforce/spring/data/es/core/query/Criteria.java:687-692 | a wildcard operand containing the value separator (a space) fails with nothing appended; otherwise the entry is appended |
| Criterias.Criteria.Contains | src/main/java/pl/eforce/spring/data/es/core/query/Criteria.java:268-272 | a value with a space is refused; otherwise one CONTAINS entry is appended |
| Criterias.Criteria.StartsWith | src/main/java/pl/eforce/spring/data/es/core/query/Criteria.java:550-554 | a value with a space is refused; otherwise one STARTS_WITH entry is appended |
| Criterias.Criteria.EndsWith | src/main/java/pl/eforce/spring/data/es/core/query/Criteria.java:281-285 | a value with a space is refused; otherwise one ENDS_WITH entry is appended |
| Criterias.Criteria.Expression | src/main/java/pl/eforce/spring/data/es/core/query/Criteria.java:293-296 | one EXPRESSION entry is appended |
| Criterias.Criteria.Fuzzy | src/main/java/pl/eforce/spring/data/es/core/query/Criteria.java:304-318 | one FUZZY entry with the optional minimum similarity is appended |
| Criterias.Criteria.InValues | src/main/java/pl/eforce/spring/data/es/core/query/Criteria.java:430-442 | a null collection is refused; otherwise one IN entry holding the one-level flattening, in order |
| Criterias.Criteria.InVarargs | src/main/java/pl/eforce/spring/data/es/core/query/Criteria.java:450-456 | no argument, or a collection as the second argument, fails with nothing appended; otherwise as `in(Iterable)` |
| Criterias.Criteria.Near | src/main/java/pl/eforce/spring/data/es/core/query/Criteria.java:488-497 | a null location or a negative distance is refused; a null distance is stored as 0 |
| Criterias.Criteria.Not | src/main/java/pl/eforce/spring/data/es/core/query/Criteria.java:505-508 | sets negation; entries and boost are unchanged |
| Criterias.Criteria.Boost | src/main/java/pl/eforce/spring/data/es/core/query/Criteria.java:253-259 | a negative boost is refused and the boost is unchanged; otherwise it is stored |
| Criterias.Criteria.ConstructFieldQuery | src/main/java/pl/eforce/spring/data/es/core/query/Criteria.java:623-685 | the node's field query, as `Entries.FieldQuery` specifies it |
| Criterias.Criteria.ConstructFieldFilter | src/main/java/pl/eforce/spring/data/es/core/query/Criteria.java:556-621 | the node's field filter, as `Entries.FieldFilter` specifies it |
| Criterias.Criteria.ConstructQueryBuilder | src/main/java/pl/eforce/spring/data/es/core/query/Criteria.java:703-713 | the node's leaf query, as `Entries.LeafQuery` specifies it |
| Criterias.Criteria.ConstructFilterBuilder | src/main/java/pl/eforce/spring/data/es/core/query/Criteria.java:694-701 | the node's leaf filter, as `Entries.LeafFilter` specifies it |
| Criterias.Criteria.GetQueryBuilder | src/main/java/pl/eforce/spring/data/es/core/query/Criteria.java:373-410 | the loop over the chain computes exactly `ChainQuery`: the pending-first walk in which sub-criteria contribute their own chain's query |
| Criterias.Criteria.GetFilterBuilder | src/main/java/pl/eforce/spring/data/es/core/query/Criteria.java:334-370 | the same walk on the filter side computes exactly `ChainFilter` |
| Criterias.ItemQueries | src/main/java/pl/eforce/spring/data/es/core/query/Criteria.java:376-404 | the trees of the first n links, one per link, element i being the tree `ItemQuery` gives link i (the leaf for AND/OR, the sub-chain's bool for the *_SUBCRITERIA operators) |
| Criterias.Criteria.EmitLinkQuery | src/main/java/pl/eforce/spring/data/es/core/query/Criteria.java:376-403 | the clause one chain entry contributes to the query is that of `ItemQuery`: a sub-criteria link contributes its node's whole chain query (getQueryBuilder), any other link its node's leaf query (constructQueryBuilder), or the error either raises |
| Criterias.Criteria.EmitLinkFilter | src/main/java/pl/eforce/spring/data/es/core/query/Criteria.java:337-364 | the same on the filter side, as `ItemFilter` specifies it: getFilterBuilder for a sub-criteria link, constructFilterBuilder otherwise |
| Criterias.ItemFilters | src/main/java/pl/eforce/spring/data/es/core/query/Criteria.java:337-365 | the filters of the first n links, one per link, element i being the filter `ItemFilter` gives link i |
| Criterias.ItemQueriesFirstError | src/main/java/pl/eforce/spring/data/es/core/query/Criteria.java:376-404 | emission stops at the first failing link: a failing prefix decides the whole walk |
| Criterias.ItemFiltersFirstError | src/main/java/pl/eforce/spring/data/es/core/query/Criteria.java:337-365 | the same on the filter side |
| Criterias.RootedChainQuery | src/main/java/pl/eforce/spring/data/es/core/query/Criteria.java:373-410 | for a chain that starts with FIRST, `must` holds exactly the trees routed to must (AND, AND_SUBCRITERIA, and the FIRST tree unless an OR-kind link follows it) and `should` the rest, in chain order |
| Criterias.RootedChainFilter | src/main/java/pl/eforce/spring/data/es/core/query/Criteria.java:334-370 | for a chain that starts with FIRST, the bool filter's `must` holds exactly the filters routed to must and `should` the rest, in chain order, every link contributing once |
| Criterias.LoneCriteriaQuery | src/main/java/pl/eforce/spring/data/es/core/query/Criteria.java:405-408 | a criteria alone on its chain emits a bool whose only `must` is its own leaf, or the leaf's error |
| Criterias.TwoLinkChainQuery | src/main/java/pl/eforce/spring/data/es/core/query/Criteria.java:379-403 | a FIRST node followed by one more link: both trees go to `must` after AND-kind links, both to `should` after OR-kind links |
| Criterias.FirstLinkFilterFails | src/main/java/pl/eforce/spring/data/es/core/query/Criteria.java:334-370 | a chain whose first node cannot emit a filter fails with that error; a string criteria (SimpleStringCriteria.java:32-35) has no field, so its filter dereferences a null field (Criteria.java:556) |
| ChainWalk.FoldSnoc | src/main/java/pl/eforce/spring/data/es/core/query/Criteria.java:376-404 | walking one more link is one more step of the loop |
| ChainWalk.TwoLinkFold | src/main/java/pl/eforce/spring/data/es/core/query/Criteria.java:379-403 | a FIRST tree followed by one more tree: both land in `must` after an AND-kind operator, both in `should` after an OR-kind one |
| ChainWalk.SelectPartition | src/main/java/pl/eforce/spring/data/es/core/query/Criteria.java:376-404 | every tree is routed to exactly one of `must` and `should` |
| ChainWalk.FoldPrefix | src/main/java/pl/eforce/spring/data/es/core/query/Criteria.java:376-404 | on a rooted chain the walk equals the reference routing, with nothing held after the second link |
| ChainWalk.RootedFold | src/main/java/pl/eforce/spring/data/es/core/query/Criteria.java:373-410 | the loop plus the trailing "only one element" step gives `must` = trees routed to must, `should` = the others |
| Entries.FieldQuery | src/main/java/pl/eforce/spring/data/es/core/query/Criteria.java:623-685 | a bool with `must` clauses only and no boost, holding one clause per entry in insertion order (for a string criteria, exactly one `must`: the query_string clause of its query string, as SimpleStringCriteria.java:37-41); it fails exactly when there is neither query string nor field |
| Entries.FieldFilter | src/main/java/pl/eforce/spring/data/es/core/query/Criteria.java:556-621 | an and-filter with one clause per entry in insertion order; it fails exactly when the field is null |
| Entries.LeafQuery | src/main/java/pl/eforce/spring/data/es/core/query/Criteria.java:703-713 | a leaf query fails, with a null dereference, exactly when the node has neither query string nor field; a positive leaf is the field query's bool carrying exactly the node's boost; a negated leaf is an unboosted bool with a single must_not |
| Entries.LeafFilter | src/main/java/pl/eforce/spring/data/es/core/query/Criteria.java:694-701 | a leaf filter fails, with a null dereference, exactly when the field is null, whether or not there is a query string; it is a not-filter exactly when the node is negated |
| Entries.EntryQuery | src/main/java/pl/eforce/spring/data/es/core/query/Criteria.java:626-683 | EQUALS, CONTAINS, STARTS_WITH and ENDS_WITH, and only they, give a field query, with wildcard analysis on for all but EQUALS; BETWEEN, and only it, gives a range query; IN, and only it, gives a terms query; NEAR, and only it, gives a filtered query (a match-all query under the geo-distance filter, by `EntryFilterWrapsQuery`) |
| Entries.EntryFilter | src/main/java/pl/eforce/spring/data/es/core/query/Criteria.java:559-618 | every entry except BETWEEN, NEAR and IN is filtered by a query filter; BETWEEN, and only it, gives a range filter; NEAR, and only it, a geo-distance filter; IN, and only it, a terms filter |
| Entries.NegatedLeafQuery | src/main/java/pl/eforce/spring/data/es/core/query/Criteria.java:703-713 | a negated leaf is `bool{must_not: positive leaf}`, the boost staying on the inner bool |
| Entries.BoostIgnoredByFilter | src/main/java/pl/eforce/spring/data/es/core/query/Criteria.java:694-701 | the boost never changes the filter |
| Entries.NegatedLeafFilter | src/main/java/pl/eforce/spring/data/es/core/query/Criteria.java:694-701 | a negated filter is a not-filter around the positive one |
| Entries.EntryFilterWrapsQuery | src/main/java/pl/eforce/spring/data/es/core/query/Criteria.java:556-621 | the filter of an entry mirrors its query: a query filter for text entries, a range, geo or terms filter for BETWEEN, NEAR and IN |
| Entries.WildcardClauseRoundTrip | src/main/java/pl/eforce/spring/data/es/core/query/Criteria.java:644-653 | a wildcard clause sets `analyzeWildcard` and its text is the escaped value inside the wildcards, which unescapes back to the value |
| Entries.PlainWildcardOperand | src/main/java/pl/eforce/spring/data/es/core/query/Criteria.java:644-661 | a value without reserved tokens appears verbatim as `*v*`, `v*`, `*v`, and unescaped in fuzzy |
| Entries.EscapedOperand | src/main/java/pl/eforce/spring/data/es/core/query/Criteria.java:644-661 | contains, starts-with and ends-with put the escaped value inside `*` on the sides they name, and fuzzy takes the escaped value with its similarity |
| Escaping.ReplacementsAreBackslashed | src/main/java/pl/eforce/spring/data/es/core/query/Criteria.java:114-118 | the two tables have equal length and each replacement is its token with every character backslashed |
| Escaping.EscapeRoundTrip | src/main/java/pl/eforce/spring/data/es/core/query/Criteria.java:715-717 | unescaping the escaped value gives the value back |
| Escaping.Escape | src/main/java/pl/eforce/spring/data/es/core/query/Criteria.java:715-717 | escaping never shortens a value, and gives the empty text only for the empty value |
| Escaping.EscapeInjective | src/main/java/pl/eforce/spring/data/es/core/query/Criteria.java:715-717 | distinct values never escape to the same text |
| Escaping.EscapeLength | src/main/java/pl/eforce/spring/data/es/core/query/Criteria.java:715-717 | escaping never shortens, and keeps the length only when no reserved token occurs |
| Escaping.EscapeFixpoint | src/main/java/pl/eforce/spring/data/es/core/query/Criteria.java:715-717 | escaping is the identity exactly on values without reserved tokens |
| Escaping.TokenStart | src/main/java/pl/eforce/spring/data/es/core/query/Criteria.java:114-115 | every reserved token starts with one of the reserved starting characters |
| CriteriaScenarios.AndScenario | src/test/java/pl/eforce/spring/data/es/core/query/CriteriaTest.java:57-69 | `field_1 startsWith/endsWith and field_2 ...` emits both leaves under `must`, in order, with wildcard texts |
| CriteriaScenarios.OrScenario | src/test/java/pl/eforce/spring/data/es/core/query/CriteriaTest.java:336-342 | an OR link sends the FIRST leaf and the sibling's leaf to `should` |
| CriteriaScenarios.OrWithCriteriaScenario | src/test/java/pl/eforce/spring/data/es/core/query/CriteriaTest.java:344-352 | `or(criteria)` contributes the other chain's whole bool as the second `should` |
| CriteriaScenarios.BoostScenario | src/test/java/pl/eforce/spring/data/es/core/query/CriteriaTest.java:102-111 | the boost stays on the first node's bool and the later sibling has none |
| CriteriaScenarios.NotScenario | src/test/java/pl/eforce/spring/data/es/core/query/CriteriaTest.java:249-253 | a negated node is the single `must_not` of its bool |
| CriteriaScenarios.StringCriteriaScenario | src/test/java/pl/eforce/spring/data/es/core/query/SimpleStringCriteriaTest.java:31-35 | a string criteria emits its query string verbatim and unescaped |
| CriteriaScenarios.StringCriteriaWithMoreFragments | src/test/java/pl/eforce/spring/data/es/core/query/SimpleStringCriteriaTest.java:37-43 | a string criteria with an AND sibling emits a query; its filter side fails on the missing field |
| Queries.MergeSort | src/main/java/pl/eforce/spring/data/es/core/query/SimpleQuery.java:140-152 | adding a sort appends its orders after the current ones; the sort is absent only when both are |
| Queries.MergeSortAssociative | src/main/java/pl/eforce/spring/data/es/core/query/SimpleQuery.java:140-152 | adding sorts one call at a time or already joined gives the same sort |
| Queries.SortAfterOrders | src/test/java/pl/eforce/spring/data/es/core/query/SimpleQueryTest.java:91-127 | a series of addSort calls keeps every order within and across calls; no non-null sort leaves the sort null |
| Queries.SimpleQuery.constructor | src/main/java/pl/eforce/spring/data/es/core/query/SimpleQuery.java:62-68 | no criteria, empty lists, the default page (offset 0, size 10), no sort |
| Queries.SimpleQuery.WithCriteria | src/main/java/pl/eforce/spring/data/es/core/query/SimpleQuery.java:70-72 | the criteria as given and a null pageable |
| Queries.SimpleQuery.Paged | src/main/java/pl/eforce/spring/data/es/core/query/SimpleQuery.java:74-80 | the pageable as given, and its sort added |
| Queries.SimpleQuery.AddFilterQuery | src/main/java/pl/eforce/spring/data/es/core/query/SimpleQuery.java:84-87 | the filter query is appended without validation; nothing else changes |
| Queries.SimpleQuery.AddGroupByField | src/main/java/pl/eforce/spring/data/es/core/query/SimpleQuery.java:91-104 | always fails as unsupported |
| Queries.SimpleQuery.AddProjectionOnField | src/main/java/pl/eforce/spring/data/es/core/query/SimpleQuery.java:108-118 | succeeds exactly when the name has text, and then appends it; nothing else changes |
| Queries.SimpleQuery.AddProjectionOnFields | src/main/java/pl/eforce/spring/data/es/core/query/SimpleQuery.java:121-136 | fails on a null or empty array; otherwise the names are added in order up to the first one without text, which fails the call |
| Queries.SimpleQuery.AddSort | src/main/java/pl/eforce/spring/data/es/core/query/SimpleQuery.java:140-152 | the sort becomes the merge of the old sort and the added one; nothing else changes |
| Queries.SimpleQuery.SetPageRequest | src/main/java/pl/eforce/spring/data/es/core/query/SimpleQuery.java:180-185 | a null pageable fails with nothing changed; otherwise it replaces the pageable and its sort is added |
| Queries.SimpleQuery.FromQuery | src/main/java/pl/eforce/spring/data/es/core/query/SimpleQuery.java:36-58 | null gives null; otherwise a fresh query with the same criteria, filter queries, projections and sort, and the default page |
| Facets.FacetOptions.constructor | src/main/java/pl/eforce/spring/data/es/core/query/FacetOptions.java:35-46 | limit 10, minimum count 1, sort COUNT, no fields |
| Facets.NewFacetOptions | src/main/java/pl/eforce/spring/data/es/core/query/FacetOptions.java:53-74 | a null array or a null element fails; otherwise the names are added in order, and a name without text fails the construction |
| Facets.FacetFieldsInOrder | src/main/java/pl/eforce/spring/data/es/core/query/FacetOptions.java:53-74 | the fields faceted on are exactly the given names, position by position |
| Facets.FacetOptions.AddFacetOnField | src/main/java/pl/eforce/spring/data/es/core/query/FacetOptions.java:82-99 | succeeds exactly when the name has text, and then appends it; limit and sort unchanged |
| Facets.FacetOptions.SetFacetLimit | src/main/java/pl/eforce/spring/data/es/core/query/FacetOptions.java:158-161 | stores the limit raised to at least one |
| Facets.FacetOptions.SetFacetMinCount | src/main/java/pl/eforce/spring/data/es/core/query/FacetOptions.java:170-175 | always fails as unsupported |
| Facets.FacetOptions.SetFacetSort | src/main/java/pl/eforce/spring/data/es/core/query/FacetOptions.java:184-189 | a null sort fails; otherwise only the sort changes |
| Facets.FacetOptions.SetPageable | src/main/java/pl/eforce/spring/data/es/core/query/FacetOptions.java:191-196 | always fails as unsupported |
| Facets.FacetOptions.HasFields | src/main/java/pl/eforce/spring/data/es/core/query/FacetOptions.java:147-149 | true exactly when some field was added |
| Facets.FacetOptions.GetPageable | src/main/java/pl/eforce/spring/data/es/core/query/FacetOptions.java:138-140 | the first page (offset 0) of `facetLimit` entries, unsorted |
| QueryParsing.SortEntries | src/main/java/org/springframework/data/es/core/QueryParser.java:123-130 | one entry per order, same property, ASC to asc and anything else to desc |
| QueryParsing.ProjectionFacets | src/main/java/org/springframework/data/es/core/QueryParser.java:114-121 | one default terms facet per projection field, named after it, in order |
| QueryParsing.FieldFacets | src/main/java/org/springframework/data/es/core/QueryParser.java:91-94 | one terms facet per facet field with the options' limit and sort |
| QueryParsing.FiltersOf | src/main/java/org/springframework/data/es/core/QueryParser.java:101-103 | the filter of every filter query, or an error some filter query raises |
| QueryParsing.GetESQuery | src/main/java/org/springframework/data/es/core/QueryParser.java:79-84 | no criteria gives no query; otherwise the criteria chain's scored tree |
| QueryParsing.AppendPagination | src/main/java/org/springframework/data/es/core/QueryParser.java:106-112 | nothing for a null pageable; otherwise from = offset and size = page size |
| QueryParsing.AppendProjectionOnFields | src/main/java/org/springframework/data/es/core/QueryParser.java:114-121 | appends the projection facets |
| QueryParsing.AppendFilterQuery | src/main/java/org/springframework/data/es/core/QueryParser.java:97-104 | no filter queries leave the request alone; otherwise the last filter query's filter is set, or the first failure is returned |
| QueryParsing.FilterOfQuery | src/main/java/org/springframework/data/es/core/QueryParser.java:102 | the filter of one filter query is its criteria chain's filter, as `FilterOf` specifies it; a null filter query or one without criteria fails with a null dereference |
| QueryParsing.FiltersFirstError | src/main/java/org/springframework/data/es/core/QueryParser.java:101-103 | the first failing filter query decides the outcome |
| QueryParsing.AppendSort | src/main/java/org/springframework/data/es/core/QueryParser.java:123-130 | appends one sort entry per accumulated order; nothing for a null sort |
| QueryParsing.AppendFacetingOnFields | src/main/java/org/springframework/data/es/core/QueryParser.java:86-95 | facets only for options that exist and have fields |
| QueryParsing.ProcessQueryOptions | src/main/java/org/springframework/data/es/core/QueryParser.java:136-141 | pagination, projection, filter and sort applied in that order |
| QueryParsing.ConstructSearchRequest | src/main/java/org/springframework/data/es/core/QueryParser.java:53-71 | the request the method builds is exactly `RequestOf`: null query or criteria refused, then query clause, options and facets |
| QueryParsing.RequestContents | src/main/java/org/springframework/data/es/core/QueryParser.java:53-71 | in a built request, the query is the criteria's tree, from/size come from the pageable, the filter is the last filter query's, and the sort entries are exactly the sort's orders in order, ASC as asc and anything else as desc |
| QueryParsing.RequestFacets | src/main/java/org/springframework/data/es/core/QueryParser.java:64-69 | the facets are the projection facets followed by the facet options' facets |
| QueryParsing.FacetListing | src/test/java/org/springframework/data/es/core/QueryParserTest.java:69-92 | position by position: projection facets first, then each facet field with the limit and sort |
| QueryParsing.RequestErrors | src/main/java/org/springframework/data/es/core/QueryParser.java:54-55 | a null query or one without criteria is refused as an illegal argument |
| QueryParsing.NullFilterQueryFails | src/main/java/org/springframework/data/es/core/QueryParser.java:101-103 | a null filter query, or one without criteria, fails the request with a null dereference |
| QueryParsing.FiltersPrefixOk | src/main/java/org/springframework/data/es/core/QueryParser.java:101-103 | when every filter query emits, so does the walk over them |
| Placeholders.Render | src/main/java/pl/eforce/spring/data/es/repository/query/StringBasedElasticSearchQuery.java:70-83 | a null parameter renders as "null" |
| Placeholders.DigitRun | src/main/java/pl/eforce/spring/data/es/repository/query/StringBasedElasticSearchQuery.java:40 | the greedy `\d+`: all digits, followed by a non-digit or the end |
| Placeholders.NextPlaceholder | src/main/java/pl/eforce/spring/data/es/repository/query/StringBasedElasticSearchQuery.java:90 | the first position from `from` on where `?digits` starts, or none |
| Placeholders.PlaceholderEnd | src/main/java/pl/eforce/spring/data/es/repository/query/StringBasedElasticSearchQuery.java:91 | a placeholder spans the `?` and at least one digit, up to the last digit |
| Placeholders.ParseIndex | src/main/java/pl/eforce/spring/data/es/repository/query/StringBasedElasticSearchQuery.java:92 | the decimal value, failing with a number-format error beyond Integer.MAX_VALUE |
| Placeholders.ParamText | src/main/java/pl/eforce/spring/data/es/repository/query/StringBasedElasticSearchQuery.java:70-83 | the rendered parameter at the index; an index beyond the parameters fails |
| Placeholders.ReplacePlaceholders | src/main/java/pl/eforce/spring/data/es/repository/query/StringBasedElasticSearchQuery.java:85-96 | the loop over the matcher's finds computes exactly `Substitute` |
| Placeholders.CreateQuery | src/main/java/pl/eforce/spring/data/es/repository/query/StringBasedElasticSearchQuery.java:63-68 | the substituted string becomes the query string of a fresh string criteria in a query without pageable; a failed substitution is passed on |
| Placeholders.ReplaceAbsent | src/main/java/pl/eforce/spring/data/es/repository/query/StringBasedElasticSearchQuery.java:93 | replacing a token that does not occur changes nothing |
| Placeholders.NoPlaceholderUnchanged | src/main/java/pl/eforce/spring/data/es/repository/query/StringBasedElasticSearchQuery.java:85-96 | an input without placeholders is returned unchanged |
| Placeholders.SubstituteErrors | src/main/java/pl/eforce/spring/data/es/repository/query/StringBasedElasticSearchQuery.java:90-94 | substitution fails only with a number-format or index-out-of-range error |
| Placeholders.MissingParameter | src/main/java/pl/eforce/spring/data/es/repository/query/StringBasedElasticSearchQuery.java:90-94 | the first placeholder whose index is beyond the parameters fails the substitution |
| Placeholders.OnePlaceholder | src/main/java/pl/eforce/spring/data/es/repository/query/StringBasedElasticSearchQuery.java:85-96 | for any texts `a` and `b` without placeholders (`b` not starting with a digit) and any index n within the parameters and the int range, `a?nb` becomes `a`, the n-th parameter's rendering, then `b` |
| Placeholders.SubstituteOnce | src/main/java/pl/eforce/spring/data/es/repository/query/StringBasedElasticSearchQuery.java:85-96 | an input whose only find is one placeholder with a valid index substitutes to the input with that token replaced everywhere |
| Placeholders.SingleParameter | src/test/java/org/springframework/data/es/repository/query/StringBasedSolrQueryTest.java:55-105 | `textGeneral:?0` with one parameter becomes `textGeneral:` followed by its rendering, "null" for a null |
| Placeholders.ReplaceAfterPlain | src/main/java/pl/eforce/spring/data/es/repository/query/StringBasedElasticSearchQuery.java:93 | a prefix in which the token does not start is kept as it is |
| Placeholders.PrefixPlaceholderRewritten | src/main/java/pl/eforce/spring/data/es/repository/query/StringBasedElasticSearchQuery.java:91-93 | every occurrence of a literal token is replaced, so `?1` also rewrites the prefix of `?10`: "?1 ?10" becomes "x x0" |
| DocumentInfo.Lower | src/main/java/pl/eforce/spring/data/es/core/mapping/SimpleElasticSearchPersistentEntity.java:107 | same length, no upper-case letter left, each upper-case ASCII letter mapped to its lower case and everything else kept |
| DocumentInfo.IfText | src/main/java/pl/eforce/spring/data/es/core/mapping/SimpleElasticSearchPersistentEntity.java:116-124 | an attribute is taken only when it has text |
| DocumentInfo.PersistentEntity.constructor | src/main/java/pl/eforce/spring/data/es/core/mapping/SimpleElasticSearchPersistentEntity.java:53-58 | the fields derived step by step are exactly `Derive` of the simple name, the annotation and the factory's default at construction |
| DocumentInfo.PersistentEntity.GetIndexName | src/main/java/pl/eforce/spring/data/es/core/mapping/SimpleElasticSearchPersistentEntity.java:75-82 | the derived index name, else the factory's default at the time of the call |
| DocumentInfo.LowerIdempotent | src/main/java/pl/eforce/spring/data/es/core/mapping/SimpleElasticSearchPersistentEntity.java:107 | a lower-cased name is already lower case |
| DocumentInfo.TypeNameRule | src/main/java/pl/eforce/spring/data/es/core/mapping/SimpleElasticSearchPersistentEntity.java:107-112 | the type name is the annotation's value when it has text, else the simple name lower-cased |
| DocumentInfo.AnnotatedIndexWins | src/main/java/pl/eforce/spring/data/es/core/mapping/SimpleElasticSearchPersistentEntity.java:113-115 | an annotated index name with text wins over any default, at construction or later |
| DocumentInfo.IndexDefaultsToType | src/main/java/pl/eforce/spring/data/es/core/mapping/SimpleElasticSearchPersistentEntity.java:128-130 | without annotated index and default index, the index name is the type name for good |
| DocumentInfo.IndexFollowsFactory | src/main/java/pl/eforce/spring/data/es/core/mapping/SimpleElasticSearchPersistentEntity.java:76-82 | without annotated index but with a default, every call returns the factory's current default |
| DocumentInfo.UnannotatedDefaults | src/main/java/pl/eforce/spring/data/es/core/mapping/SimpleElasticSearchPersistentEntity.java:106-131 | without annotation there are no analyzers, no date formats and no detection flags |
| DocumentInfo.CopiedAttributesHaveText | src/main/java/pl/eforce/spring/data/es/core/mapping/SimpleElasticSearchPersistentEntity.java:116-124 | an analyzer or date format that is set always has text |
| ExceptionTranslation.Translate | src/main/java/org/springframework/data/es/core/ESExceptionTranslator.java:33-54 | only an Elasticsearch cause is translated, and the translation keeps its message |
| ExceptionTranslation.TranslatedExactly | src/main/java/org/springframework/data/es/core/ESExceptionTranslator.java:34-53 | a translation exists exactly for an Elasticsearch cause with one of the six listed statuses; anything else gives null |
| ExceptionTranslation.CategoryByStatus | src/main/java/org/springframework/data/es/core/ESExceptionTranslator.java:39-48 | among the six translated statuses, 500, 503 and 404, and only they, are resource failures; 401 and 403, and only they, are permission denials; 400, and only it, is invalid API usage (every other status is untranslated, by TranslatedExactly) |

## Left out

- The criteria may still refer to a null field where the source dereferences it; that case is modelled as a `NullPointer` error. Null *string operands* (such as `contains(null)`) and `and((Criteria) null)` are not modelled; operands are plain strings.
- The boost is a `real`. Float rounding and the NaN comparisons of `boost(float)` are not modelled; the NaN "no boost" becomes `None`.
- Criteria values (`Object`), geo locations and distances are opaque values. Their JSON rendering, date formatting and distance units are not modelled, and neither is the JSON text of the trees.
- A criteria chain that (directly or through sub-criteria) contains its own chain makes the source's emission recurse forever. The emission functions take a ranking of chains (`Criterias.Ranked`) that excludes such cycles; cyclic chains are not modelled.
- `CriteriaEntry` has no `equals`, so entries are never deduplicated; the model keeps them as a sequence, which gives the same behaviour.
- `AbstractQuery`, `SimpleFacetQuery`, `SimpleField` and `PageRequest`'s own argument checks are not part of this model. The criteria is stored as given, a field is its name, and `PageRequest` is a record of page, size and optional sort. `page * size` is unbounded, so int overflow of the offset is not modelled.
- QueryParsing.ConstructSearchRequest: a facet query is modelled by passing its `FacetOptions` (possibly null) next to the `SimpleQuery`; the `instanceof` dispatch is not modelled.
- QueryParsing.NullFilterQueryFails: an empty `SimpleQuery` used as a filter query has no criteria, so the code dereferences null. QueryParserTest (lines 113-118) expects no filter there; it was written against a different query class. The model follows the code.
- The client, the request builder's own JSON, and all I/O, dependency-injection and repository wiring are not modelled.
- Placeholders.Render: a parameter is abstracted as the text the conversion service or `toString` produces; the converters themselves are not modelled.
- Placeholders.ParamText: the exception an out-of-range index raises inside the parameter accessor is not part of this model; it is modelled as an `IndexOutOfBounds` error.
- DocumentInfo.Lower: only ASCII letters are lower-cased; `toLowerCase(Locale.ENGLISH)` on other Unicode letters is not modelled.
- DocumentInfo.PersistentEntity.constructor: the annotation is an optional record of attribute values; annotation defaults and reflection are not modelled.
- ExceptionTranslation.Translate: the translated exception's cause (the Elasticsearch exception object) is represented only by its message and status.
- The older `org.springframework.data.es.core.query` criteria, query and facet classes are superseded by the `pl.eforce` ones modelled here and are not modelled.

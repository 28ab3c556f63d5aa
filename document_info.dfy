/**
 * `SimpleElasticSearchPersistentEntity`: the type name, index name,
 * analyzers and detection flags of a document class, derived once from the
 * class's simple name and its optional document annotation.  The client
 * factory's default index name is read at construction and again on every
 * `getIndexName` call.
 */
module DocumentInfo {
  import opened Common

  /** The document annotation's attributes; the strings may be null or blank. */
  datatype DocumentAnnotation = DocumentAnnotation(
    value: Option<string>,
    indexName: Option<string>,
    indexAnalyzer: Option<string>,
    searchAnalyzer: Option<string>,
    dynamicDateFormats: Option<string>,
    dateDetection: bool,
    numericDetection: bool)

  /** The fields the entity derives. */
  datatype Info = Info(
    typeName: string,
    indexName: Option<string>,
    indexAnalyzer: Option<string>,
    searchAnalyzer: Option<string>,
    dynamicDateFormats: Option<string>,
    dateDetection: bool,
    numericDetection: bool)

  predicate IsUpper(c: char)
  {
    'A' <= c <= 'Z'
  }

  /** `toLowerCase(Locale.ENGLISH)` on ASCII letters. */
  function Lower(s: string): (r: string)
    ensures |r| == |s|
    ensures forall i :: 0 <= i < |s| ==> !IsUpper(r[i])
    ensures forall i :: 0 <= i < |s| ==> (IsUpper(s[i]) ==> r[i] as int == s[i] as int + 32) && (!IsUpper(s[i]) ==> r[i] == s[i])
  {
    if s == [] then []
    else [if IsUpper(s[0]) then (s[0] as int + 32) as char else s[0]] + Lower(s[1..])
  }

  /** An attribute is taken only when it has text; otherwise the field keeps what it had. */
  function IfText(attr: Option<string>, otherwise: Option<string>): (r: Option<string>)
    ensures HasText(attr) ==> r == attr
    ensures !HasText(attr) ==> r == otherwise
  {
    if HasText(attr) then attr else otherwise
  }

  /**
   * derivateESDocumentInfoFromClass as one record: the lower-cased simple
   * name unless the annotation names the type; the annotation's index name,
   * else the type name when the factory has no default at construction, else
   * none (so that the factory is asked later); analyzers and date formats
   * only when they have text; the detection flags only from an annotation.
   */
  function Derive(simpleName: string, annotation: Option<DocumentAnnotation>, defaultIndex: Option<string>): Info
  {
    var typeName := if annotation.Some? && HasText(annotation.value.value) then annotation.value.value.value
                    else Lower(simpleName);
    var annotated := if annotation.Some? then IfText(annotation.value.indexName, None) else None;
    var indexName := if annotated.None? && defaultIndex.None? then Some(typeName) else annotated;
    match annotation
    case None => Info(typeName, indexName, None, None, None, false, false)
    case Some(a) =>
      Info(typeName, indexName, IfText(a.indexAnalyzer, None), IfText(a.searchAnalyzer, None),
           IfText(a.dynamicDateFormats, None), a.dateDetection, a.numericDetection)
  }

  /** getIndexName: the derived index name, else the factory's default at the time of the call. */
  function ResolveIndex(info: Info, currentDefault: Option<string>): Option<string>
  {
    if info.indexName.None? then currentDefault else info.indexName
  }

  /** ElasticSearchClientFactory, as far as the entity uses it. */
  class ClientFactory {
    var defaultIndexName: Option<string>

    constructor (d: Option<string>)
      ensures defaultIndexName == d
    {
      defaultIndexName := d;
    }
  }

  class PersistentEntity {
    var typeName: string
    var indexName: Option<string>
    var indexAnalyzer: Option<string>
    var searchAnalyzer: Option<string>
    var dynamicDateFormats: Option<string>
    var dateDetection: bool
    var numericDetection: bool
    const factory: ClientFactory

    function State(): Info
      reads this
    {
      Info(typeName, indexName, indexAnalyzer, searchAnalyzer, dynamicDateFormats, dateDetection, numericDetection)
    }

    /** The constructor, running derivateESDocumentInfoFromClass step by step. */
    constructor (simpleName: string, annotation: Option<DocumentAnnotation>, f: ClientFactory)
      ensures factory == f
      ensures State() == Derive(simpleName, annotation, f.defaultIndexName)
    {
      factory := f;
      typeName := Lower(simpleName);
      indexName, indexAnalyzer, searchAnalyzer, dynamicDateFormats := None, None, None, None;
      dateDetection, numericDetection := false, false;
      new;
      if annotation.Some? {
        var a := annotation.value;
        if HasText(a.value) {
          typeName := a.value.value;
        }
        indexName := IfText(a.indexName, indexName);
        indexAnalyzer := IfText(a.indexAnalyzer, indexAnalyzer);
        searchAnalyzer := IfText(a.searchAnalyzer, searchAnalyzer);
        dynamicDateFormats := IfText(a.dynamicDateFormats, dynamicDateFormats);
        dateDetection := a.dateDetection;
        numericDetection := a.numericDetection;
      }
      if indexName.None? && f.defaultIndexName.None? {
        indexName := Some(typeName);
      }
    }

    /** getIndexName */
    method GetIndexName() returns (r: Option<string>)
      ensures r == ResolveIndex(State(), factory.defaultIndexName)
    {
      if indexName.None? {
        return factory.defaultIndexName;
      }
      r := indexName;
    }
  }

  // ----- properties -----

  /** Lower-casing is idempotent: a derived type name is already in lower case. */
  lemma {:induction false} LowerIdempotent(s: string)
    ensures Lower(Lower(s)) == Lower(s)
  {
    var l := Lower(s);
    assert forall i :: 0 <= i < |l| ==> Lower(l)[i] == l[i];
  }

  /** Without an annotated type name, the type name is the simple name lower-cased. */
  lemma TypeNameRule(simpleName: string, annotation: Option<DocumentAnnotation>, d: Option<string>)
    ensures annotation.Some? && HasText(annotation.value.value) ==>
      Derive(simpleName, annotation, d).typeName == annotation.value.value.value
    ensures !(annotation.Some? && HasText(annotation.value.value)) ==>
      Derive(simpleName, annotation, d).typeName == Lower(simpleName)
  {
  }

  /** An annotated index name with text always wins, whatever the factory's default, then or later. */
  lemma AnnotatedIndexWins(simpleName: string, a: DocumentAnnotation, d0: Option<string>, d1: Option<string>)
    requires HasText(a.indexName)
    ensures ResolveIndex(Derive(simpleName, Some(a), d0), d1) == a.indexName
  {
  }

  /** Without an annotated index and without a default at construction, the index is the type name, for good. */
  lemma IndexDefaultsToType(simpleName: string, annotation: Option<DocumentAnnotation>, d1: Option<string>)
    requires annotation.None? || !HasText(annotation.value.indexName)
    ensures ResolveIndex(Derive(simpleName, annotation, None), d1) == Some(Derive(simpleName, annotation, None).typeName)
  {
  }

  /** Without an annotated index but with a default at construction, every call asks the factory again. */
  lemma IndexFollowsFactory(simpleName: string, annotation: Option<DocumentAnnotation>, d0: string, d1: Option<string>)
    requires annotation.None? || !HasText(annotation.value.indexName)
    ensures ResolveIndex(Derive(simpleName, annotation, Some(d0)), d1) == d1
  {
  }

  /** Without an annotation nothing but the names is set: no analyzers, no date formats, no detection. */
  lemma UnannotatedDefaults(simpleName: string, d: Option<string>)
    ensures var info := Derive(simpleName, None, d);
      && info.typeName == Lower(simpleName)
      && info.indexAnalyzer.None? && info.searchAnalyzer.None? && info.dynamicDateFormats.None?
      && !info.dateDetection && !info.numericDetection
  {
  }

  /** A copied analyzer or date format always has text. */
  lemma CopiedAttributesHaveText(simpleName: string, annotation: Option<DocumentAnnotation>, d: Option<string>)
    ensures var info := Derive(simpleName, annotation, d);
      && (info.indexAnalyzer.Some? ==> HasText(info.indexAnalyzer))
      && (info.searchAnalyzer.Some? ==> HasText(info.searchAnalyzer))
      && (info.dynamicDateFormats.Some? ==> HasText(info.dynamicDateFormats))
  {
  }
}

/**
 * `ESExceptionTranslator.translateExceptionIfPossible`: a runtime exception
 * caused by an Elasticsearch exception is translated by the exception's
 * REST status into one of Spring's data-access exception categories.
 */
module ExceptionTranslation {
  import opened Common

  /** RestStatus values, by their HTTP status codes. */
  const BadRequest: nat := 400
  const Unauthorized: nat := 401
  const Forbidden: nat := 403
  const NotFound: nat := 404
  const InternalServerError: nat := 500
  const ServiceUnavailable: nat := 503

  /** The cause of the runtime exception handed to the translator. */
  datatype Cause =
    | NoCause
    | OtherCause
    | SearchEngineError(status: nat, message: string)

  /** The data-access exception categories. */
  datatype Category = ResourceFailure | PermissionDenied | InvalidDataAccessApiUsage

  /** A translated exception keeps the Elasticsearch exception's message (and the exception as its cause). */
  datatype Translated = Translated(category: Category, message: string)

  /** translateExceptionIfPossible: None stands for the null the source returns. */
  function Translate(cause: Cause): (r: Option<Translated>)
    ensures r.Some? ==> cause.SearchEngineError? && r.value.message == cause.message
  {
    match cause
    case SearchEngineError(status, message) =>
      if status == NotFound || status == ServiceUnavailable || status == InternalServerError then
        Some(Translated(ResourceFailure, message))
      else if status == Forbidden || status == Unauthorized then
        Some(Translated(PermissionDenied, message))
      else if status == BadRequest then
        Some(Translated(InvalidDataAccessApiUsage, message))
      else None
    case _ => None
  }

  /** The statuses that are translated at all. */
  const TranslatedStatuses: set<nat> :=
    {BadRequest, Unauthorized, Forbidden, NotFound, InternalServerError, ServiceUnavailable}

  /** Only an Elasticsearch cause with one of the six statuses is translated; anything else gives null. */
  lemma TranslatedExactly(cause: Cause)
    ensures Translate(cause).Some? <==> cause.SearchEngineError? && cause.status in TranslatedStatuses
  {
  }

  /**
   * Among the six translated statuses: 500, 503 and 404 are resource
   * failures; 401 and 403, and only they, are permission denials; 400, and
   * only it, is invalid API usage.  Every other status, 5xx or 4xx, is not
   * translated at all (TranslatedExactly).
   */
  lemma CategoryByStatus(status: nat, message: string)
    requires status in TranslatedStatuses
    ensures var t := Translate(SearchEngineError(status, message)).value.category;
      && (t == ResourceFailure <==> status in {InternalServerError, ServiceUnavailable, NotFound})
      && (t == PermissionDenied <==> status in {Unauthorized, Forbidden})
      && (t == InvalidDataAccessApiUsage <==> status == BadRequest)
  {
  }
}

/**
 * Shared vocabulary: optional values, results carrying the Java exception
 * category a call would raise, and Spring's `StringUtils.hasText` test.
 */
module Common {

  datatype Option<+T> = None | Some(value: T)

  /** The exception categories the modelled code raises. */
  datatype Error =
    | IllegalArgument    // org.springframework.util.Assert failures
    | InvalidApiUsage    // InvalidDataAccessApiUsageException
    | Unsupported        // UnsupportedOperationException
    | NullPointer        // a null reference dereferenced
    | NumberFormat       // Integer.parseInt on an out-of-range digit string
    | IndexOutOfBounds   // a parameter index beyond the bound parameters

  datatype Result<+T> = Ok(value: T) | Err(error: Error) {
    predicate IsFailure() { Err? }

    function PropagateFailure<U>(): Result<U>
      requires Err?
    {
      Err(error)
    }

    function Extract(): T
      requires Ok?
    {
      value
    }
  }

  /** `java.lang.Character.isWhitespace` on a UTF-16 unit (Unicode 6.0 tables). */
  predicate IsWhitespace(c: char)
  {
    || ('\t' <= c <= '\r')                          // \t \n \u000B \f \r
    || ('\U{001C}' <= c <= '\U{001F}')
    || c == ' '
    || c == '\U{1680}' || c == '\U{180E}'
    || ('\U{2000}' <= c <= '\U{2006}')              // U+2007 is non-breaking
    || ('\U{2008}' <= c <= '\U{200A}')
    || c == '\U{2028}' || c == '\U{2029}'
    || c == '\U{205F}' || c == '\U{3000}'           // U+202F is non-breaking
  }

  /** Spring's `StringUtils.hasText`: not null and some character is not whitespace. */
  predicate HasText(s: Option<string>)
  {
    s.Some? && exists i :: 0 <= i < |s.value| && !IsWhitespace(s.value[i])
  }

  /** The witness-friendly direction of `HasText`: a non-blank first character suffices. */
  lemma HasTextOfFirst(s: string)
    requires s != [] && !IsWhitespace(s[0])
    ensures HasText(Some(s))
  {
    assert !IsWhitespace(s[0]);
  }

  // ----- lists of optional field names (a null Field, or a Field whose name may be null) -----

  /** The names that are present, in order. */
  function Present(xs: seq<Option<string>>): (r: seq<string>)
    ensures |r| <= |xs|
  {
    if xs == [] then []
    else Present(xs[..|xs| - 1]) + (if xs[|xs| - 1].Some? then [xs[|xs| - 1].value] else [])
  }

  /** Where a left-to-right pass that checks `hasText` on each name first fails; |xs| when it never does. */
  function FirstBlank(xs: seq<Option<string>>): (r: nat)
    ensures r <= |xs|
    ensures forall i :: 0 <= i < r ==> HasText(xs[i])
    ensures r < |xs| ==> !HasText(xs[r])
  {
    if xs == [] || !HasText(xs[0]) then 0 else 1 + FirstBlank(xs[1..])
  }

  /** When every name is present, `Present` keeps them all, position by position. */
  lemma {:induction false} PresentAll(xs: seq<Option<string>>)
    requires forall i :: 0 <= i < |xs| ==> xs[i].Some?
    ensures |Present(xs)| == |xs|
    ensures forall i :: 0 <= i < |xs| ==> Present(xs)[i] == xs[i].value
  {
    if xs != [] {
      PresentAll(xs[..|xs| - 1]);
    }
  }

  /** Extending a list by one name extends what is present by that name. */
  lemma PresentSnoc(xs: seq<Option<string>>, x: string)
    ensures Present(xs + [Some(x)]) == Present(xs) + [x]
  {
    assert (xs + [Some(x)])[..|xs|] == xs;
  }
}

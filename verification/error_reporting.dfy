/**
 * Source locations and the diagnostics sink that every index rule appends to.
 */
module ErrorReporting {
  import opened Wrappers

  /** A range of byte offsets into the schema source. */
  datatype Span = Span(start: nat, end: nat)

  /** `Span::empty`: the zero-width range at offset 0, used when nothing better is known. */
  const EmptySpan: Span := Span(0, 0)

  /**
   * The one kind of error the index rules report: a message about an attribute,
   * the name of that attribute, and the location the error points at.
   */
  datatype DatamodelError = AttributeValidationError(message: string, attributeName: string, span: Span)

  /** The accumulator threaded through every rule; errors are only ever appended. */
  class Diagnostics {
    var errors: seq<DatamodelError>

    constructor ()
      ensures errors == []
    {
      errors := [];
    }

    method PushError(error: DatamodelError)
      modifies this
      ensures errors == old(errors) + [error]
    {
      errors := errors + [error];
    }
  }

  /** No candidate before position `i` is present. */
  ghost predicate NoneBefore(candidates: seq<Option<Span>>, i: int)
    requires i <= |candidates|
  {
    forall j :: 0 <= j < i ==> candidates[j].None?
  }

  /**
   * A chain of best-effort span lookups: the first candidate that is present,
   * or `fallback` when none is.
   */
  function FirstPresent(candidates: seq<Option<Span>>, fallback: Span): (s: Span)
    ensures NoneBefore(candidates, |candidates|) ==> s == fallback
    ensures forall i :: 0 <= i < |candidates| && candidates[i].Some? && NoneBefore(candidates, i) ==>
              s == candidates[i].value
  {
    if candidates == [] then fallback
    else if candidates[0].Some? then candidates[0].value
    else FirstPresent(candidates[1..], fallback)
  }
}

/**
 * The exception classes of the Longitude package
 * (longitude/core/common/exceptions.py): one base class and four classes
 * derived from it. None of them declares fields, so an exception is
 * identified by its class alone: every constructor here is nullary.
 */
module Exceptions {
  import opened Options

  datatype ExceptionClass =
    | LongitudeBaseException
    | LongitudeRetriesExceeded
    | LongitudeQueryCannotBeExecutedException
    | LongitudeWrongQueryException
    | LongitudeConfigError

  /** The class each class is declared to derive from inside the package;
      the base class derives from Python's Exception, which is outside it. */
  function Parent(c: ExceptionClass): (p: Option<ExceptionClass>)
    ensures p.None? <==> c == LongitudeBaseException
    ensures p.Some? ==> p.value == LongitudeBaseException
  {
    match c
    case LongitudeBaseException => None
    case LongitudeRetriesExceeded => Some(LongitudeBaseException)
    case LongitudeQueryCannotBeExecutedException => Some(LongitudeBaseException)
    case LongitudeWrongQueryException => Some(LongitudeBaseException)
    case LongitudeConfigError => Some(LongitudeBaseException)
  }

  /** Distance from the base class along Parent links. */
  function Depth(c: ExceptionClass): nat
  {
    if c == LongitudeBaseException then 0 else 1
  }

  /** Python's issubclass(c, d), restricted to the package's classes. */
  predicate IsSubclass(c: ExceptionClass, d: ExceptionClass)
    decreases Depth(c)
  {
    c == d || (Parent(c).Some? && IsSubclass(Parent(c).value, d))
  }

  /** `except LongitudeBaseException` catches every error kind of the package. */
  lemma EveryKindIsABaseException(c: ExceptionClass)
    ensures IsSubclass(c, LongitudeBaseException)
  {
  }

  /** The base class is not a kind of any of the four derived classes. */
  lemma BaseIsNoDerivedKind(d: ExceptionClass)
    requires d != LongitudeBaseException
    ensures !IsSubclass(LongitudeBaseException, d)
  {
  }

  /** The four derived kinds are siblings: catching one never catches another. */
  lemma DerivedKindsAreDisjoint(c: ExceptionClass, d: ExceptionClass)
    requires c != LongitudeBaseException && d != LongitudeBaseException
    ensures IsSubclass(c, d) <==> c == d
  {
  }
}

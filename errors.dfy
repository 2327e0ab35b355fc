/** The library's error taxonomy (lib/active_record/sequence/error.rb), placed in
    the part of Ruby's exception hierarchy it hangs from, and the exceptions the
    client's operations can end in. */
module Errors {
  import opened Wrappers

  /** Exception classes the client raises or declares. StopIteration is Ruby's own
      end-of-iteration signal; Error is ActiveRecord::Sequence::Error. */
  datatype ErrorClass =
    | StandardError
    | IndexError
    | StopIteration
    | Error
    | AlreadyExist
    | CurrentValueUndefined
    | NotExist

  /** Distance from StandardError, the root of this part of the hierarchy. */
  function Depth(c: ErrorClass): nat {
    match c
    case StandardError => 0
    case IndexError | Error => 1
    case StopIteration | AlreadyExist | CurrentValueUndefined | NotExist => 2
  }

  /** The class each one is declared with (Class.new(parent), or Ruby's core for
      IndexError and StopIteration). */
  function Superclass(c: ErrorClass): (parent: Option<ErrorClass>)
    ensures parent.None? <==> c == StandardError
    ensures parent.Some? ==> Depth(parent.value) + 1 == Depth(c)
  {
    match c
    case StandardError => None
    case IndexError => Some(StandardError)
    case StopIteration => Some(IndexError)
    case Error => Some(StandardError)
    case AlreadyExist => Some(Error)
    case CurrentValueUndefined => Some(Error)
    case NotExist => Some(Error)
  }

  /** Ruby's `c <= ancestor`: the class itself or one of its superclasses. */
  predicate IsA(c: ErrorClass, ancestor: ErrorClass)
    decreases Depth(c)
  {
    c == ancestor || (Superclass(c).Some? && IsA(Superclass(c).value, ancestor))
  }

  /** An error of the library's own taxonomy, one that `rescue Sequence::Error` catches. */
  predicate IsLibraryError(c: ErrorClass) {
    IsA(c, Error)
  }

  /** How a call can end abnormally:
      - Raised(cls): an exception of one of the classes above;
      - StatementInvalid(cause): ActiveRecord::StatementInvalid (or a subclass),
        wrapping a driver exception whose class name is `cause` (e.g. "PG::UndefinedTable");
      - OtherException(className): any other exception, which the client never rescues. */
  datatype Exception =
    | Raised(cls: ErrorClass)
    | StatementInvalid(cause: string)
    | OtherException(className: string)

  /** The library's errors are exactly Error and its three kinds. */
  lemma LibraryErrorKinds(c: ErrorClass)
    ensures IsLibraryError(c) <==> c in {Error, AlreadyExist, CurrentValueUndefined, NotExist}
  {
    match c
    case StandardError =>
    case IndexError =>
    case StopIteration => assert !IsA(IndexError, Error);
    case Error =>
    case AlreadyExist =>
    case CurrentValueUndefined =>
    case NotExist =>
  }

  /** Each kind is a kind of Error, and none of them is a kind of another. */
  lemma KindsAreDistinctErrors()
    ensures IsA(AlreadyExist, Error) && IsA(CurrentValueUndefined, Error) && IsA(NotExist, Error)
    ensures !IsA(AlreadyExist, CurrentValueUndefined) && !IsA(AlreadyExist, NotExist)
    ensures !IsA(CurrentValueUndefined, AlreadyExist) && !IsA(CurrentValueUndefined, NotExist)
    ensures !IsA(NotExist, AlreadyExist) && !IsA(NotExist, CurrentValueUndefined)
  {
    assert !IsA(Error, CurrentValueUndefined) && !IsA(Error, NotExist) && !IsA(Error, AlreadyExist) by {
      assert !IsA(StandardError, CurrentValueUndefined);
      assert !IsA(StandardError, NotExist);
      assert !IsA(StandardError, AlreadyExist);
    }
  }

  /** Every class here, the library's Error included, is a StandardError, so a
      bare `rescue` catches all of them. */
  lemma AllAreStandardErrors(c: ErrorClass)
    ensures IsA(c, StandardError)
  {
    match c
    case StandardError =>
    case IndexError =>
    case StopIteration => assert IsA(IndexError, StandardError);
    case Error =>
    case AlreadyExist => assert IsA(Error, StandardError);
    case CurrentValueUndefined => assert IsA(Error, StandardError);
    case NotExist => assert IsA(Error, StandardError);
  }

  /** The end-of-sequence signal is not one of the library's errors:
      `rescue Sequence::Error` does not stop an iteration. */
  lemma StopIterationIsNotLibraryError()
    ensures !IsLibraryError(StopIteration)
  {
    assert !IsA(StandardError, Error);
    assert !IsA(IndexError, Error);
  }
}

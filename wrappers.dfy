/** Failure-compatible wrappers used for the C# code's nullable references and exceptions. */
module Wrappers {

  /** A reference that may be null. */
  datatype Option<+T> = None | Some(value: T)

  /** A call that either returns a value or throws. */
  datatype Result<+T, +E> = Success(value: T) | Failure(error: E) {
    predicate IsFailure() { Failure? }

    function PropagateFailure<U>(): Result<U, E>
      requires Failure?
    {
      Failure(error)
    }

    function Extract(): T
      requires Success?
    {
      value
    }
  }

  /** A `void` call that either completes or throws. */
  datatype Outcome<+E> = Pass | Fail(error: E) {
    predicate IsFailure() { Fail? }

    function PropagateFailure(): Outcome<E>
      requires Fail?
    {
      this
    }
  }
}

/** The exceptions the garage core throws, one constructor per distinct throw site. */
module Faults {

  /** The .NET exception class a fault is raised as. */
  datatype ExceptionType =
    | ArgumentNullException
    | ArgumentOutOfRangeException
    | ArgumentException
    | InvalidOperationException
    | NullReferenceException

  datatype Fault =
    | PlateBlank            // plate is null, empty or white space
    | PlateLength           // plate is not six characters long
    | PlateFormat           // plate is not three ASCII letters followed by three ASCII digits
    | PlateDuplicate        // plate is already in the registry
    | WheelsOutOfRange      // wheels outside 0 - 56
    | EnginesOutOfRange     // engines outside 0 - 10
    | DoorsOutOfRange       // doors outside 1 - 2
    | SeatsOutOfRange       // seats above 7
    | GarageSizeOutOfRange  // garage size outside 1 - 524288
    | GarageFull            // the vehicle limit is reached
    | NullSlot              // a lookup dereferenced an empty garage slot

  function ExceptionOf(f: Fault): ExceptionType
  {
    match f
    case PlateBlank => ArgumentNullException
    case PlateFormat => ArgumentException
    case PlateDuplicate => InvalidOperationException
    case NullSlot => NullReferenceException
    case _ => ArgumentOutOfRangeException
  }
}

/** Failure-compatible result type and the program errors the wire layer can raise. */
module Wrappers {

  /** The errors the decoders return. The first two are the values the source returns
      (`ProgramError::InvalidAccountData` and `LendingError::InstructionUnpackError`);
      `SliceOutOfBounds` stands for a Rust panic on an out-of-range slice access,
      which aborts the whole transaction. */
  datatype Error =
    | InvalidAccountData
    | InstructionUnpackError
    | SliceOutOfBounds

  datatype Result<+T> = Ok(value: T) | Err(error: Error) {

    predicate IsFailure() {
      Err?
    }

    function PropagateFailure<U>(): Result<U>
      requires Err?
    {
      Err(error)
    }

    function Extract(): T
      requires Ok?
    {
      value
    }
  }
}

/** Shared value types: an optional value, and the outcome of a step that may raise. */
module Options {

  datatype Option<+T> = None | Some(value: T)

  /** What the modelled Python code raises. */
  datatype Fault =
    | InvalidTopStateTransition
    | UnknownNode(id: string)
    | UnsupportedDecision
    | UntaggedPause
    | SurfaceError
    | TextError
    | RecordError
    | JudgeError
    | NotesError
    | GitError

  /** The outcome of a step over a mutable record of type `S`. A raised exception keeps the
      partial updates made before it, exactly as the mutated Python object does. */
  datatype Outcome<+S, +T> = Done(state: S, value: T) | Raised(state: S, fault: Fault) {

    predicate IsFailure() {
      Raised?
    }

    function PropagateFailure<U>(): Outcome<S, U>
      requires Raised?
    {
      Raised(state, fault)
    }

    function Extract(): (S, T)
      requires Done?
    {
      (state, value)
    }
  }
}

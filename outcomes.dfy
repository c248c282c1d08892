/**
 * The exceptions the modelled Kotlin code can throw, as values, and a result type that
 * carries either a value or the exception that replaced it.
 */
module Outcomes {

  datatype Failure =
    | IllegalArgument       // IllegalArgumentException
    | IllegalState          // IllegalStateException (`player()`, `song()` before `load`)
    | ClassCast             // a failed `as` cast, e.g. of a `find` that returned null
    | NoSuchElement         // `Map.getValue` on a missing key
    | InvalidMidiData       // javax.sound.midi.InvalidMidiDataException
    | DivisionByZero        // ArithmeticException: / by zero
    | IndexOutOfBounds      // ArrayIndexOutOfBoundsException

  datatype Result<T> = Ok(value: T) | Err(error: Failure)
}

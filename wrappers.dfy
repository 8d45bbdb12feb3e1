/** Failure-compatible result types shared by every module of the model. */
module Wrappers {

  datatype Option<+T> = None | Some(value: T)

  /** A computation that either yields a value or raises one of the source's exceptions. */
  datatype Result<+T, +E> = Ok(value: T) | Err(error: E)

  /**
   * The exceptions the Java back end raises, one constructor per throw site kind,
   * carrying the line, signal, gate type or text the message names.
   */
  datatype Exception<Id> =
    | MissingValue(line: Id)                  // IllegalStateException: an input line of a gate has no value
    | UninitializedInputs(gateType: string)   // IllegalStateException: the same, in the int-keyed revision
    | CyclicCircuit                           // IllegalStateException: levelization missed a node
    | MissingInput(signal: Id)                // IllegalStateException: a primary input has no value
    | MultipleDrivers(signal: Id)             // IllegalStateException: two gates drive one line
    | NotComputed(signal: Id)                 // IllegalStateException: a primary output got no value
    | WrongArity(gateType: string)            // IllegalArgumentException: NOT/BUF without exactly one input
    | UnknownGateType(gateType: string)       // IllegalArgumentException
    | InvalidGateDefinition(text: string)     // IllegalArgumentException: not exactly one '='
    | InvalidGateFormat(text: string)         // IllegalArgumentException: no '(' or no closing ')'
    | NumberFormat(text: string)              // NumberFormatException from Integer.parseInt
    | IndexOutOfBounds                        // an array or substring index outside its bounds
  {
    predicate IsIllegalState() {
      MissingValue? || UninitializedInputs? || CyclicCircuit? || MissingInput? || MultipleDrivers? || NotComputed?
    }

    predicate IsIllegalArgument() {
      WrongArity? || UnknownGateType? || InvalidGateDefinition? || InvalidGateFormat?
    }
  }
}

/**
 * The I/O-bound process variant: a device label and a number of operations
 * (at least one, no upper bound), one 400 ms blocking wait per operation.
 */
module IoProcess {
  import Decimal

  const TypeName: string := "I/O Process"
  const MinOperations: int := 1
  /** The operation count the two-argument constructor passes on. */
  const DefaultOperations: int := 2
  /** The blocking wait of one operation, in milliseconds. */
  const StepDelayMs: nat := 400

  /** The floor at one: a count below one is raised to one, larger counts are kept. */
  function ClampOperations(x: int): (r: nat)
    ensures r >= MinOperations
    ensures x >= MinOperations ==> r == x
    ensures x < MinOperations ==> r == MinOperations
  {
    if x > MinOperations then x else MinOperations
  }

  /** What the variant appends to the common process description. */
  function Suffix(deviceType: string, operations: nat): string {
    " - Device: " + deviceType + ", Operations: " + Decimal.NatToString(operations)
  }
}

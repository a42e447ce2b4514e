/**
 * The background-service process variant: a service label and a number of
 * monitoring cycles (at least one, no upper bound), one 250 ms pause per cycle.
 */
module DaemonProcess {
  import Decimal

  const TypeName: string := "Daemon Process"
  const MinCycles: int := 1
  /** The cycle count the two-argument constructor passes on. */
  const DefaultCycles: int := 3
  /** The pause of one monitoring cycle, in milliseconds. */
  const StepDelayMs: nat := 250

  /** The floor at one: a count below one is raised to one, larger counts are kept. */
  function ClampCycles(x: int): (r: nat)
    ensures r >= MinCycles
    ensures x >= MinCycles ==> r == x
    ensures x < MinCycles ==> r == MinCycles
  {
    if x > MinCycles then x else MinCycles
  }

  /** What the variant appends to the common process description. */
  function Suffix(serviceType: string, cycles: nat): string {
    " - Service: " + serviceType + ", Cycles: " + Decimal.NatToString(cycles)
  }
}

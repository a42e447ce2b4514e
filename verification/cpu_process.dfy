/**
 * The CPU-bound process variant: a task label and an intensity on a 1..5
 * scale, one 300 ms step per unit of intensity.
 */
module CpuProcess {
  import Decimal

  const TypeName: string := "CPU Process"
  const MinIntensity: int := 1
  const MaxIntensity: int := 5
  /** The intensity the two-argument constructor passes on. */
  const DefaultIntensity: int := 3
  /** The sleep of one processing step, in milliseconds. */
  const StepDelayMs: nat := 300

  /** The intensity clamp: a value outside 1..5 is moved silently to the nearer end. */
  function ClampIntensity(x: int): (r: nat)
    ensures MinIntensity <= r <= MaxIntensity
    ensures MinIntensity <= x <= MaxIntensity ==> r == x
    ensures x < MinIntensity ==> r == MinIntensity
    ensures x > MaxIntensity ==> r == MaxIntensity
  {
    var capped := if x < MaxIntensity then x else MaxIntensity;
    if capped > MinIntensity then capped else MinIntensity
  }

  /** What the variant appends to the common process description. */
  function Suffix(taskType: string, intensity: nat): string {
    " - Task: " + taskType + ", Intensity: " + Decimal.NatToString(intensity)
  }
}

/**
 * What one `execute()` call of a process does, stripped of its console output:
 * a loop over the steps 1..count, each step a fixed sleep, where the sleep of
 * one step may be interrupted and the loop then returns quietly.
 */
module Execution {

  datatype Option<T> = None | Some(value: T)

  /**
   * The result of one execution: the steps whose sleep finished, in order,
   * whether the final "completed" message was reached, and the total time
   * spent in finished sleeps.
   */
  datatype Outcome = Outcome(steps: seq<nat>, completed: bool, sleptMs: nat)

  /** The step numbers 1, 2, ..., n. */
  function Upto(n: nat): (r: seq<nat>)
    ensures |r| == n
    ensures forall i :: 0 <= i < n ==> r[i] == i + 1
  {
    if n == 0 then [] else Upto(n - 1) + [n]
  }

  function Max0(n: int): nat {
    if n < 0 then 0 else n
  }

  /**
   * The behaviour of a loop over the steps 1..count, each sleeping delayMs,
   * when `interrupt == Some(k)` means the sleep of step k throws.
   * A step number outside 1..count is never reached, so it is no interruption.
   */
  function Run(count: int, delayMs: nat, interrupt: Option<nat>): (o: Outcome)
    ensures o.steps == Upto(|o.steps|) && |o.steps| <= Max0(count)
    ensures o.completed <==> |o.steps| == Max0(count)
    ensures !o.completed ==> interrupt == Some(|o.steps| + 1)
    ensures o.completed ==> !(interrupt.Some? && 1 <= interrupt.value <= count)
    ensures o.sleptMs == delayMs * |o.steps|
  {
    if interrupt.Some? && 1 <= interrupt.value <= count then
      Outcome(Upto(interrupt.value - 1), false, delayMs * (interrupt.value - 1))
    else
      Outcome(Upto(Max0(count)), true, delayMs * Max0(count))
  }

  /**
   * An interrupted execution performs a prefix of the steps the
   * uninterrupted one performs, and never more time.
   */
  lemma InterruptedRunIsPrefix(count: int, delayMs: nat, k: nat)
    ensures var full := Run(count, delayMs, None);
            var cut := Run(count, delayMs, Some(k));
            cut.steps <= full.steps && cut.sleptMs <= full.sleptMs
            && (cut.completed <==> cut == full)
  {
  }
}

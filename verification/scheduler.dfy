/**
 * The scheduler: one queue of processes, run in insertion order, with a
 * counter of completed "run all" passes and an average of per-process
 * time estimates.
 */
module Scheduling {
  import opened Execution
  import Decimal
  import opened Processes

  /** One entry of a pass: the process that was executed and what its execution did. */
  datatype Dispatch = Dispatch(process: Process, outcome: Outcome)

  /** The line `listarProcesos` prints for the process at 0-based position `index`. */
  function ListingLine(index: nat, text: string): string {
    Decimal.NatToString(index + 1) + ". " + text
  }

  /** Different positions give different lines, and a line gives back its process text. */
  lemma ListingLineInjective(i: nat, s: string, j: nat, t: string)
    requires ListingLine(i, s) == ListingLine(j, t)
    ensures i == j && s == t
  {
    Decimal.Regroup(Decimal.NatToString(i + 1), ". ", s);
    Decimal.Regroup(Decimal.NatToString(j + 1), ". ", t);
    Decimal.LeadingNatUnique(i + 1, ". " + s, j + 1, ". " + t);
    assert s == (". " + s)[2..];
    assert t == (". " + t)[2..];
  }

  /** The scheduler's `toString`: queue length and pass count. */
  function Summary(size: nat, runs: nat): string {
    "PlanificadorProcesos{procesos=" + Decimal.NatToString(size) + ", ejecuciones=" + Decimal.NatToString(runs) + "}"
  }

  /** The summary text gives back both counters. */
  lemma SummaryInjective(size1: nat, runs1: nat, size2: nat, runs2: nat)
    requires Summary(size1, runs1) == Summary(size2, runs2)
    ensures size1 == size2 && runs1 == runs2
  {
    var head := "PlanificadorProcesos{procesos=";
    var mid := ", ejecuciones=";
    var r1 := mid + Decimal.NatToString(runs1) + "}";
    var r2 := mid + Decimal.NatToString(runs2) + "}";
    Decimal.Regroup(head + Decimal.NatToString(size1), mid, Decimal.NatToString(runs1));
    Decimal.Regroup(head + Decimal.NatToString(size1), mid + Decimal.NatToString(runs1), "}");
    Decimal.Regroup(head, Decimal.NatToString(size1), r1);
    Decimal.Regroup(head + Decimal.NatToString(size2), mid, Decimal.NatToString(runs2));
    Decimal.Regroup(head + Decimal.NatToString(size2), mid + Decimal.NatToString(runs2), "}");
    Decimal.Regroup(head, Decimal.NatToString(size2), r2);
    var s := Summary(size1, runs1);
    assert s[|head|..] == Decimal.NatToString(size1) + r1;
    assert s[|head|..] == Decimal.NatToString(size2) + r2;
    Decimal.LeadingNatUnique(size1, r1, size2, r2);
    Decimal.Regroup(mid, Decimal.NatToString(runs1), "}");
    Decimal.Regroup(mid, Decimal.NatToString(runs2), "}");
    assert r1[|mid|..] == Decimal.NatToString(runs1) + "}";
    assert r2[|mid|..] == Decimal.NatToString(runs2) + "}";
    Decimal.LeadingNatUnique(runs1, "}", runs2, "}");
  }

  function Sum(xs: seq<int>): int {
    if xs == [] then 0 else Sum(xs[..|xs| - 1]) + xs[|xs| - 1]
  }

  /** Java's `int` division: the quotient is truncated toward zero. */
  function TruncDiv(a: int, n: int): (q: int)
    requires n > 0
    ensures a >= 0 ==> q >= 0 && q * n <= a < q * n + n
    ensures a < 0 ==> q <= 0 && q * n - n < a <= q * n
  {
    if a >= 0 then a / n else -((-a) / n)
  }

  /** The average `obtenerTiempoPromedioCola` reports for a list of estimates. */
  function Mean(xs: seq<int>): int {
    if xs == [] then 0 else TruncDiv(Sum(xs), |xs|)
  }

  /** The estimates of a list of processes, in list order, from their current fields. */
  function Times(ps: seq<Process>, time: Detail -> int): (ts: seq<int>)
    reads set p | p in ps
    ensures |ts| == |ps|
    ensures forall i :: 0 <= i < |ps| ==> ts[i] == time(ps[i].detail)
  {
    if ps == [] then [] else Times(ps[..|ps| - 1], time) + [time(ps[|ps| - 1].detail)]
  }

  lemma {:induction false} SumBounds(xs: seq<int>, lo: int, hi: int)
    requires forall i :: 0 <= i < |xs| ==> lo <= xs[i] <= hi
    ensures |xs| * lo <= Sum(xs) <= |xs| * hi
  {
    if xs != [] {
      var init := xs[..|xs| - 1];
      SumBounds(init, lo, hi);
      assert |xs| * lo == |init| * lo + lo;
      assert |xs| * hi == |init| * hi + hi;
    }
  }

  lemma CancelFactor(x: int, y: int, n: int)
    requires n > 0 && x * n <= y * n
    ensures x <= y
  {
    if x > y {
      assert false;
    }
  }

  lemma QuotientBounds(a: int, n: int, lo: int, hi: int)
    requires n > 0 && n * lo <= a <= n * hi
    ensures lo <= TruncDiv(a, n) <= hi
  {
    var q := TruncDiv(a, n);
    if a >= 0 {
      CancelFactor(q, hi, n);
      CancelFactor(lo, q + 1, n);
    } else {
      CancelFactor(q - 1, hi, n);
      CancelFactor(lo, q, n);
    }
  }

  /** The integer average lies between any bounds of its inputs; in particular between their minimum and maximum. */
  lemma MeanBounds(xs: seq<int>, lo: int, hi: int)
    requires xs != []
    requires forall i :: 0 <= i < |xs| ==> lo <= xs[i] <= hi
    ensures lo <= Mean(xs) <= hi
  {
    SumBounds(xs, lo, hi);
    QuotientBounds(Sum(xs), |xs|, lo, hi);
  }

  class Scheduler {
    /** The processes in insertion order, which is also their execution order. */
    var queue: seq<Process>
    /** The number of non-empty "run all" passes since creation or the last clear. */
    var runs: nat

    constructor ()
      ensures queue == [] && runs == 0
    {
      queue := [];
      runs := 0;
    }

    function Size(): nat
      reads this
    {
      |queue|
    }

    /** Rejects an absent process; otherwise appends it, duplicates included. */
    method Add(p: Process?) returns (added: bool)
      modifies this
      ensures added <==> p != null
      ensures added ==> queue == old(queue) + [p]
      ensures !added ==> queue == old(queue)
      ensures runs == old(runs)
    {
      if p == null {
        return false;
      }
      queue := queue + [p];
      added := true;
    }

    /** The lines `listarProcesos` prints, numbered from 1 in queue order; none for an empty queue. */
    method ListLines() returns (lines: seq<string>)
      ensures |lines| == |queue|
      ensures forall i :: 0 <= i < |queue| ==> lines[i] == ListingLine(i, queue[i].ToString())
    {
      lines := [];
      if queue == [] {
        return;
      }
      var i := 0;
      while i < |queue|
        invariant 0 <= i <= |queue|
        invariant |lines| == i
        invariant forall j :: 0 <= j < i ==> lines[j] == ListingLine(j, queue[j].ToString())
      {
        lines := lines + [ListingLine(i, queue[i].ToString())];
        i := i + 1;
      }
    }

    /**
     * One pass: nothing for an empty queue; otherwise the pass counter goes up
     * by one and every queued process is executed once, in queue order.
     * `interrupts(i)` says where the execution at position i is interrupted;
     * an interrupted execution returns normally and the pass goes on.
     */
    method RunAll(interrupts: nat -> Option<nat>) returns (trace: seq<Dispatch>)
      modifies this
      ensures queue == old(queue)
      ensures old(queue) == [] ==> runs == old(runs)
      ensures old(queue) != [] ==> runs == old(runs) + 1
      ensures |trace| == |queue|
      ensures forall i :: 0 <= i < |queue| ==>
                trace[i] == Dispatch(queue[i], queue[i].ExecutionOf(interrupts(i)))
    {
      trace := [];
      if queue == [] {
        return;
      }
      runs := runs + 1;
      var i := 0;
      while i < |queue|
        invariant 0 <= i <= |queue|
        invariant queue == old(queue) && runs == old(runs) + 1
        invariant |trace| == i
        invariant forall j :: 0 <= j < i ==>
                    trace[j] == Dispatch(queue[j], queue[j].ExecutionOf(interrupts(j)))
      {
        var out := queue[i].Execute(interrupts(i));
        trace := trace + [Dispatch(queue[i], out)];
        i := i + 1;
      }
    }

    /**
     * `obtenerTiempoPromedioCola`, with the per-process estimate given as
     * `time`: 0 for an empty queue, else the sum divided by the length,
     * truncated.
     */
    method AverageTime(time: Detail -> int) returns (avg: int)
      ensures avg == Mean(Times(queue, time))
    {
      if queue == [] {
        return 0;
      }
      ghost var ts := Times(queue, time);
      var total := 0;
      var i := 0;
      while i < |queue|
        invariant 0 <= i <= |queue|
        invariant total == Sum(ts[..i])
      {
        assert ts[..i + 1][..i] == ts[..i];
        total := total + time(queue[i].detail);
        i := i + 1;
      }
      assert ts[..|queue|] == ts;
      avg := TruncDiv(total, |queue|);
    }

    /** Empties the queue and resets the pass counter, whatever the state before. */
    method Clear()
      modifies this
      ensures queue == [] && runs == 0
      ensures Size() == 0
    {
      queue := [];
      runs := 0;
    }

    /** The shutdown hook: the same as clearing. */
    method Finalize()
      modifies this
      ensures queue == [] && runs == 0
      ensures Size() == 0
    {
      Clear();
    }

    /** A copy of the queue, in order; later changes to the scheduler do not reach it. */
    method GetQueue() returns (copy: seq<Process>)
      ensures copy == queue
    {
      copy := queue;
    }

    function ToString(): string
      reads this
    {
      Summary(|queue|, runs)
    }

    /** Same object, or equal pass counts and queues equal position by position under `Process.Equals`. */
    predicate Equals(other: Scheduler?)
      reads this, other
      ensures Equals(other) <==>
                other != null && runs == other.runs && |queue| == |other.queue| &&
                forall i :: 0 <= i < |queue| ==> queue[i].kind == other.queue[i].kind && queue[i].pid == other.queue[i].pid
    {
      this == other ||
      (other != null && runs == other.runs && |queue| == |other.queue| &&
       forall i :: 0 <= i < |queue| ==> queue[i].Equals(other.queue[i]))
    }
  }

  /** Scheduler equality is an equivalence: reflexive, symmetric and transitive. */
  lemma SchedulerEqualsIsEquivalence(a: Scheduler, b: Scheduler, c: Scheduler)
    ensures a.Equals(a)
    ensures a.Equals(b) ==> b.Equals(a)
    ensures a.Equals(b) && b.Equals(c) ==> a.Equals(c)
  {
  }

  /** With every estimate between `lo` and `hi`, so is the reported average; an empty queue reports 0. */
  lemma AverageBetweenBounds(ps: seq<Process>, time: Detail -> int, lo: int, hi: int)
    requires forall p :: p in ps ==> lo <= time(p.detail) <= hi
    ensures ps == [] ==> Mean(Times(ps, time)) == 0
    ensures ps != [] ==> lo <= Mean(Times(ps, time)) <= hi
  {
    var ts := Times(ps, time);
    if ps != [] {
      forall i | 0 <= i < |ts| ensures lo <= ts[i] <= hi {
        assert ps[i] in ps;
      }
      MeanBounds(ts, lo, hi);
    }
  }
}

/**
 * The process abstraction: a closed set of three variants sharing an
 * identity (PID) handed out by a process-wide counter, a mutable display
 * name, and a variant-specific tag and step count.
 */
module Processes {
  import opened Execution
  import Decimal
  import CpuProcess
  import IoProcess
  import DaemonProcess

  /** The first PID the counter hands out. */
  const FirstPid: nat := 1000

  /** The concrete class of a process; fixed when it is constructed. */
  datatype Kind = CpuKind | IoKind | DaemonKind

  /** The fields each variant adds to the common ones. */
  datatype Detail =
    | Cpu(taskType: string, intensity: nat)
    | Io(deviceType: string, operations: nat)
    | Daemon(serviceType: string, cycles: nat)
  {
    function KindOf(): Kind {
      match this
      case Cpu(_, _) => CpuKind
      case Io(_, _) => IoKind
      case Daemon(_, _) => DaemonKind
    }

    /** The ranges the variants' clamps keep their step counts in. */
    predicate InRange() {
      match this
      case Cpu(_, x) => CpuProcess.MinIntensity <= x <= CpuProcess.MaxIntensity
      case Io(_, x) => x >= IoProcess.MinOperations
      case Daemon(_, x) => x >= DaemonProcess.MinCycles
    }

    /** The bound of the variant's step loop: intensity, operations or cycles. */
    function Amount(): nat {
      match this
      case Cpu(_, x) => x
      case Io(_, x) => x
      case Daemon(_, x) => x
    }

    function StepDelayMs(): nat {
      match this
      case Cpu(_, _) => CpuProcess.StepDelayMs
      case Io(_, _) => IoProcess.StepDelayMs
      case Daemon(_, _) => DaemonProcess.StepDelayMs
    }

    function Suffix(): string {
      match this
      case Cpu(t, x) => CpuProcess.Suffix(t, x)
      case Io(d, x) => IoProcess.Suffix(d, x)
      case Daemon(s, x) => DaemonProcess.Suffix(s, x)
    }
  }

  /** `getProcessType()` of each concrete class. */
  function TypeName(k: Kind): string {
    match k
    case CpuKind => CpuProcess.TypeName
    case IoKind => IoProcess.TypeName
    case DaemonKind => DaemonProcess.TypeName
  }

  lemma TypeNamesDistinct(k1: Kind, k2: Kind)
    ensures TypeName(k1) == TypeName(k2) <==> k1 == k2
  {
  }

  /** The process-wide PID counter, made an explicit object. */
  class PidAllocator {
    var next: nat
    /** The PIDs handed out so far. */
    ghost var issued: set<nat>

    ghost predicate Valid()
      reads this
    {
      next >= FirstPid && forall q :: q in issued ==> FirstPid <= q < next
    }

    constructor ()
      ensures Valid() && next == FirstPid && issued == {}
    {
      next := FirstPid;
      issued := {};
    }

    /** The post-increment of the counter: hands out the current value and advances by one. */
    method Take() returns (pid: nat)
      requires Valid()
      modifies this
      ensures Valid() && pid == old(next) && next == pid + 1
      ensures pid !in old(issued) && issued == old(issued) + {pid}
    {
      pid := next;
      next := next + 1;
      issued := issued + {pid};
    }
  }

  class Process {
    const pid: nat
    const kind: Kind
    var name: string
    var detail: Detail

    ghost predicate Valid()
      reads this
    {
      pid >= FirstPid && detail.KindOf() == kind && detail.InRange()
    }

    constructor Cpu(alloc: PidAllocator, name: string, taskType: string, intensity: int)
      requires alloc.Valid()
      modifies alloc
      ensures alloc.Valid() && pid == old(alloc.next) && alloc.next == pid + 1
      ensures pid !in old(alloc.issued) && alloc.issued == old(alloc.issued) + {pid}
      ensures Valid() && kind == CpuKind && this.name == name
      ensures detail == Detail.Cpu(taskType, CpuProcess.ClampIntensity(intensity))
    {
      var id := alloc.Take();
      pid := id;
      kind := CpuKind;
      this.name := name;
      detail := Detail.Cpu(taskType, CpuProcess.ClampIntensity(intensity));
    }

    constructor CpuDefault(alloc: PidAllocator, name: string, taskType: string)
      requires alloc.Valid()
      modifies alloc
      ensures alloc.Valid() && pid == old(alloc.next) && alloc.next == pid + 1
      ensures pid !in old(alloc.issued) && alloc.issued == old(alloc.issued) + {pid}
      ensures Valid() && kind == CpuKind && this.name == name
      ensures detail == Detail.Cpu(taskType, CpuProcess.DefaultIntensity)
    {
      var id := alloc.Take();
      pid := id;
      kind := CpuKind;
      this.name := name;
      detail := Detail.Cpu(taskType, CpuProcess.ClampIntensity(CpuProcess.DefaultIntensity));
    }

    constructor Io(alloc: PidAllocator, name: string, deviceType: string, operations: int)
      requires alloc.Valid()
      modifies alloc
      ensures alloc.Valid() && pid == old(alloc.next) && alloc.next == pid + 1
      ensures pid !in old(alloc.issued) && alloc.issued == old(alloc.issued) + {pid}
      ensures Valid() && kind == IoKind && this.name == name
      ensures detail == Detail.Io(deviceType, IoProcess.ClampOperations(operations))
    {
      var id := alloc.Take();
      pid := id;
      kind := IoKind;
      this.name := name;
      detail := Detail.Io(deviceType, IoProcess.ClampOperations(operations));
    }

    constructor IoDefault(alloc: PidAllocator, name: string, deviceType: string)
      requires alloc.Valid()
      modifies alloc
      ensures alloc.Valid() && pid == old(alloc.next) && alloc.next == pid + 1
      ensures pid !in old(alloc.issued) && alloc.issued == old(alloc.issued) + {pid}
      ensures Valid() && kind == IoKind && this.name == name
      ensures detail == Detail.Io(deviceType, IoProcess.DefaultOperations)
    {
      var id := alloc.Take();
      pid := id;
      kind := IoKind;
      this.name := name;
      detail := Detail.Io(deviceType, IoProcess.ClampOperations(IoProcess.DefaultOperations));
    }

    constructor Daemon(alloc: PidAllocator, name: string, serviceType: string, cycles: int)
      requires alloc.Valid()
      modifies alloc
      ensures alloc.Valid() && pid == old(alloc.next) && alloc.next == pid + 1
      ensures pid !in old(alloc.issued) && alloc.issued == old(alloc.issued) + {pid}
      ensures Valid() && kind == DaemonKind && this.name == name
      ensures detail == Detail.Daemon(serviceType, DaemonProcess.ClampCycles(cycles))
    {
      var id := alloc.Take();
      pid := id;
      kind := DaemonKind;
      this.name := name;
      detail := Detail.Daemon(serviceType, DaemonProcess.ClampCycles(cycles));
    }

    constructor DaemonDefault(alloc: PidAllocator, name: string, serviceType: string)
      requires alloc.Valid()
      modifies alloc
      ensures alloc.Valid() && pid == old(alloc.next) && alloc.next == pid + 1
      ensures pid !in old(alloc.issued) && alloc.issued == old(alloc.issued) + {pid}
      ensures Valid() && kind == DaemonKind && this.name == name
      ensures detail == Detail.Daemon(serviceType, DaemonProcess.DefaultCycles)
    {
      var id := alloc.Take();
      pid := id;
      kind := DaemonKind;
      this.name := name;
      detail := Detail.Daemon(serviceType, DaemonProcess.ClampCycles(DaemonProcess.DefaultCycles));
    }

    /** The name is stored as given; nothing else changes. */
    method SetName(name: string)
      requires Valid()
      modifies this
      ensures Valid() && this.name == name && detail == old(detail)
    {
      this.name := name;
    }

    method SetTaskType(taskType: string)
      requires Valid() && kind == CpuKind
      modifies this
      ensures Valid() && name == old(name)
      ensures detail == old(detail).(taskType := taskType)
    {
      detail := detail.(taskType := taskType);
    }

    /** Applies the constructor's clamp; a value already in 1..5 is kept as is. */
    method SetIntensity(intensity: int)
      requires Valid() && kind == CpuKind
      modifies this
      ensures Valid() && name == old(name)
      ensures detail == old(detail).(intensity := CpuProcess.ClampIntensity(intensity))
      ensures CpuProcess.MinIntensity <= intensity <= CpuProcess.MaxIntensity ==> detail.intensity == intensity
    {
      detail := detail.(intensity := CpuProcess.ClampIntensity(intensity));
    }

    method SetDeviceType(deviceType: string)
      requires Valid() && kind == IoKind
      modifies this
      ensures Valid() && name == old(name)
      ensures detail == old(detail).(deviceType := deviceType)
    {
      detail := detail.(deviceType := deviceType);
    }

    /** Applies the constructor's floor; a value of at least one is kept as is. */
    method SetOperations(operations: int)
      requires Valid() && kind == IoKind
      modifies this
      ensures Valid() && name == old(name)
      ensures detail == old(detail).(operations := IoProcess.ClampOperations(operations))
      ensures operations >= IoProcess.MinOperations ==> detail.operations == operations
    {
      detail := detail.(operations := IoProcess.ClampOperations(operations));
    }

    method SetServiceType(serviceType: string)
      requires Valid() && kind == DaemonKind
      modifies this
      ensures Valid() && name == old(name)
      ensures detail == old(detail).(serviceType := serviceType)
    {
      detail := detail.(serviceType := serviceType);
    }

    /** Applies the constructor's floor; a value of at least one is kept as is. */
    method SetCycles(cycles: int)
      requires Valid() && kind == DaemonKind
      modifies this
      ensures Valid() && name == old(name)
      ensures detail == old(detail).(cycles := DaemonProcess.ClampCycles(cycles))
      ensures cycles >= DaemonProcess.MinCycles ==> detail.cycles == cycles
    {
      detail := detail.(cycles := DaemonProcess.ClampCycles(cycles));
    }

    /** What `execute()` does in the current state, given where it is interrupted. */
    function ExecutionOf(interrupt: Option<nat>): Outcome
      reads this
    {
      Run(detail.Amount(), detail.StepDelayMs(), interrupt)
    }

    /**
     * The variant's step loop: step i sleeps, and an interrupted sleep ends
     * the call at once, quietly, with the earlier steps done.
     */
    method Execute(interrupt: Option<nat>) returns (out: Outcome)
      ensures out == ExecutionOf(interrupt)
    {
      var count := detail.Amount();
      var delay := detail.StepDelayMs();
      var steps: seq<nat> := [];
      var slept: nat := 0;
      var i := 1;
      while i <= count
        invariant 1 <= i <= Max0(count) + 1
        invariant steps == Upto(i - 1) && slept == delay * (i - 1)
        invariant !(interrupt.Some? && 1 <= interrupt.value < i)
      {
        if interrupt == Some(i) {
          return Outcome(steps, false, slept);
        }
        steps := steps + [i];
        slept := slept + delay;
        i := i + 1;
      }
      out := Outcome(steps, true, slept);
    }

    function ProcessType(): string {
      TypeName(kind)
    }

    /** The common description: `[PID: <pid>] <name> (<type>)`. */
    function Header(): string
      reads this
    {
      "[PID: " + Decimal.NatToString(pid) + "] " + name + " (" + ProcessType() + ")"
    }

    /** The common description followed by the variant's own suffix. */
    function ToString(): string
      reads this
    {
      Header() + detail.Suffix()
    }

    /** Same object, or same concrete class and same PID. */
    predicate Equals(other: Process?)
      ensures Equals(other) <==> other != null && kind == other.kind && pid == other.pid
    {
      this == other || (other != null && kind == other.kind && pid == other.pid)
    }
  }

  /** Process equality is an equivalence: reflexive, symmetric and transitive. */
  lemma EqualsIsEquivalence(p: Process, q: Process, r: Process)
    ensures p.Equals(p)
    ensures p.Equals(q) ==> q.Equals(p)
    ensures p.Equals(q) && q.Equals(r) ==> p.Equals(r)
  {
  }

  /** A valid process prints `[PID: `, its PID's digits, then a text starting with `]`. */
  lemma PidField(p: Process) returns (rest: string)
    requires p.Valid()
    ensures p.ToString() == "[PID: " + (Decimal.NatToString(p.pid) + rest)
    ensures rest != [] && rest[0] == ']'
  {
    var d := Decimal.NatToString(p.pid);
    var x := "[PID: " + d;
    rest := "] " + p.name + " (" + p.ProcessType() + ")" + p.detail.Suffix();
    Decimal.Regroup(x, "] ", p.name);
    Decimal.Regroup(x, "] " + p.name, " (");
    Decimal.Regroup(x, "] " + p.name + " (", p.ProcessType());
    Decimal.Regroup(x, "] " + p.name + " (" + p.ProcessType(), ")");
    Decimal.Regroup(x, "] " + p.name + " (" + p.ProcessType() + ")", p.detail.Suffix());
    Decimal.Regroup("[PID: ", d, rest);
  }

  /** Two valid processes that print alike have the same PID. */
  lemma ToStringDeterminesPid(p: Process, q: Process)
    requires p.Valid() && q.Valid()
    requires p.ToString() == q.ToString()
    ensures p.pid == q.pid
  {
    var rp := PidField(p);
    var rq := PidField(q);
    var s := p.ToString();
    assert s[6..] == Decimal.NatToString(p.pid) + rp;
    assert s[6..] == Decimal.NatToString(q.pid) + rq;
    Decimal.LeadingNatUnique(p.pid, rp, q.pid, rq);
  }

  /** A valid process prints a text ending in a space, then its step count's digits. */
  lemma AmountField(p: Process) returns (lead: string)
    requires p.Valid()
    ensures p.detail.Amount() >= 1
    ensures p.ToString() == lead + Decimal.NatToString(p.detail.Amount())
    ensures Decimal.EndsWithNonDigit(lead)
  {
    var h := p.Header();
    var d := Decimal.NatToString(p.detail.Amount());
    var tag: string;
    match p.detail {
      case Cpu(t, _) =>
        tag := " - Task: " + t + ", Intensity: ";
      case Io(dev, _) =>
        tag := " - Device: " + dev + ", Operations: ";
      case Daemon(svc, _) =>
        tag := " - Service: " + svc + ", Cycles: ";
    }
    assert p.detail.Suffix() == tag + d;
    assert tag[|tag| - 1] == ' ';
    Decimal.Regroup(h, tag, d);
    lead := h + tag;
    assert lead[|lead| - 1] == tag[|tag| - 1];
  }

  /** Two valid processes that print alike have the same step count. */
  lemma ToStringDeterminesAmount(p: Process, q: Process)
    requires p.Valid() && q.Valid()
    requires p.ToString() == q.ToString()
    ensures p.detail.Amount() == q.detail.Amount()
  {
    var lp := AmountField(p);
    var lq := AmountField(q);
    Decimal.TrailingNatUnique(lp, p.detail.Amount(), lq, q.detail.Amount());
  }

  /**
   * The first processes created from a fresh counter: PIDs 1000..1003 in
   * creation order, parameters clamped or defaulted by their constructors.
   * Two processes of the same kind with equal fields differ by PID alone,
   * and that makes them unequal.
   */
  method StartupScenario() returns (enc: Process, disk: Process, monitor: Process, enc2: Process)
    ensures enc.pid == FirstPid && disk.pid == FirstPid + 1 && monitor.pid == FirstPid + 2 && enc2.pid == FirstPid + 3
    ensures enc.detail == Detail.Cpu("encode", 5)
    ensures disk.detail == Detail.Io("disk", 1)
    ensures monitor.detail == Detail.Daemon("monitoring", 3)
    ensures enc2.kind == enc.kind && enc2.name == enc.name && enc2.detail == enc.detail
    ensures !enc.Equals(enc2) && !enc.Equals(disk) && !disk.Equals(monitor) && enc.Equals(enc)
  {
    var alloc := new PidAllocator();
    enc := new Process.Cpu(alloc, "enc", "encode", 10);
    disk := new Process.Io(alloc, "disk", "disk", 0);
    monitor := new Process.DaemonDefault(alloc, "monitor", "monitoring");
    enc2 := new Process.Cpu(alloc, "enc", "encode", 7);
  }
}

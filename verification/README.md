# Process scheduler simulator — a Dafny model

This project models the core of a small Java simulator of an operating
system's process scheduler, and proves properties of that model.

The simulator has one abstract process type, `Proceso`, with three concrete
kinds:

- `ProcesoCPU`: a task label and an intensity on a 1..5 scale.
- `ProcesoES`: an I/O process with a device label and an operation count.
- `ProcesoDaemons`: a background service label and a cycle count.

Every process gets its PID from a counter shared by the whole program. The
counter starts at 1000.

A process's `execute()` runs a loop of steps. Each step sleeps for a fixed
delay: 300, 400 or 250 ms, depending on the kind. If a sleep is interrupted,
the loop ends quietly. `toString()` renders the PID, the name, the type name
and the kind's own fields.

`PlanificadorProcesos`, the scheduler, keeps the processes in a FIFO queue.
It does the following:

- Rejects an absent process.
- Lists the queue with 1-based numbers.
- Runs every queued process once per pass, counting non-empty passes.
- Reports the truncated average of a per-process time estimate.
- Clears itself. Finalising is the same as clearing.
- Compares itself to another scheduler by pass count and queue contents.

Layout, one module per source file:

- `decimal.dfy` (`Decimal`): decimal rendering of naturals in ASCII digits, as Java's
  string concatenation prints an `int`. It includes the read-back facts that make rendered
  texts injective.
- `execution.dfy` (`Execution`): the step loop as a specification function
  (`Run`), with interruption as an input.
- `cpu_process.dfy`, `io_process.dfy`, `daemon_process.dfy`: each variant's
  constants, its clamp and its description suffix.
- `process.dfy` (`Processes`):
  - the PID counter, as a `PidAllocator` object;
  - the `Process` class: its constructors, setters, `Execute` loop, `ToString` and `Equals`;
  - lemmas showing that a process's text determines its PID and its step count.
- `scheduler.dfy` (`Scheduling`):
  - the `Scheduler` class;
  - the listing and summary texts with their injectivity lemmas;
  - Java's truncating integer division;
  - the bounds on the reported average.

## Model

| member | source | states |
|---|---|---|
| Decimal.NatToString | ProcesoCPU.java:52 | Definition: the decimal digits of a non-negative number, most significant first, as string concatenation prints an `int`; also the `%d` fields at Proceso.java:27 and PlanificadorProcesos.java:116 |
| Decimal.NatToStringIsDecimal | Proceso.java:27 | A rendered PID or count is a non-empty run of digits, with a leading zero only for 0 |
| Decimal.ParseNatToString | Proceso.java:27 | Reading the rendered digits back gives the number: rendering and parsing round-trip |
| Decimal.NatToStringInjective | Proceso.java:27 | Different numbers render differently |
| Execution.Upto | ProcesoCPU.java:25 | The loop's step numbers are 1, 2, ..., n in order |
| Execution.Run | ProcesoCPU.java:20-35 | A run does a prefix 1..j of the steps 1..count and spends delay·j ms in finished sleeps. It completes exactly when no step in 1..count is interrupted. Otherwise it stops just before the interrupted step, without finishing it. A non-positive count does no step and completes |
| Execution.InterruptedRunIsPrefix | ProcesoES.java:24-37 | An interrupted run's steps are a prefix of the uninterrupted run's steps, and it sleeps no longer. It equals the full run exactly when it completes |
| CpuProcess.ClampIntensity | ProcesoCPU.java:12 | The intensity always lands in 1..5. An in-range value is kept; a lower one becomes 1 and a higher one becomes 5 |
| IoProcess.ClampOperations | ProcesoES.java:12 | The operation count is at least 1, and any value of at least 1 is kept |
| DaemonProcess.ClampCycles | ProcesoDaemons.java:12 | The cycle count is at least 1, and any value of at least 1 is kept |
| Processes.TypeName | ProcesoCPU.java:38-40 | Definition: "CPU Process", "I/O Process" or "Daemon Process" for the CPU, I/O and daemon kinds; the names also appear at ProcesoES.java:41-43 and ProcesoDaemons.java:41-43 |
| Processes.TypeNamesDistinct | ProcesoCPU.java:37-40 | The three `getProcessType` names are pairwise different, so the name identifies the concrete class |
| Processes.PidAllocator.constructor | Proceso.java:6 | The counter starts at 1000 with no PID issued |
| Processes.PidAllocator.Take | Proceso.java:11 | Returns the current counter value and advances it by one. The returned PID was never issued before; it is recorded as issued |
| Processes.Process.Cpu | ProcesoCPU.java:9-13 | Takes the next PID, which is fresh. Stores the name and label verbatim and the intensity clamped to 1..5. The process is a CPU process and valid |
| Processes.Process.CpuDefault | ProcesoCPU.java:16-18 | Like `Cpu`, with intensity 3 |
| Processes.Process.Io | ProcesoES.java:9-13 | Takes the next, fresh PID. Stores the device label and the operation count floored at 1 |
| Processes.Process.IoDefault | ProcesoES.java:16-18 | Like `Io`, with 2 operations |
| Processes.Process.Daemon | ProcesoDaemons.java:9-13 | Takes the next, fresh PID. Stores the service label and the cycle count floored at 1 |
| Processes.Process.DaemonDefault | ProcesoDaemons.java:16-18 | Like `Daemon`, with 3 cycles |
| Processes.Process.SetName | Proceso.java:23 | Stores the new name. The kind's fields are unchanged and the process stays valid |
| Processes.Process.SetTaskType | ProcesoCPU.java:44 | Replaces only the task label |
| Processes.Process.SetIntensity | ProcesoCPU.java:46-48 | Replaces only the intensity, clamped as in the constructor. A value in 1..5 is kept |
| Processes.Process.SetDeviceType | ProcesoES.java:47 | Replaces only the device label |
| Processes.Process.SetOperations | ProcesoES.java:49-51 | Replaces only the operation count, floored at 1. A count of at least 1 is kept |
| Processes.Process.SetServiceType | ProcesoDaemons.java:47 | Replaces only the service label |
| Processes.Process.SetCycles | ProcesoDaemons.java:49-51 | Replaces only the cycle count, floored at 1. A count of at least 1 is kept |
| Processes.Process.Execute | ProcesoDaemons.java:20-38 | The loop does what `Run` specifies for the process's own step count and delay. It returns early, without completing, at the interrupted step |
| Processes.Process.ProcessType | ProcesoES.java:41-43 | Definition: `TypeName` of the process's kind, fixed at construction |
| Processes.Process.Header | Proceso.java:25-28 | Definition: "[PID: " + the PID's digits + "] " + name + " (" + `ProcessType()` + ")" |
| CpuProcess.Suffix | ProcesoCPU.java:50-53 | Definition: " - Task: " + taskType + ", Intensity: " + the intensity's digits |
| IoProcess.Suffix | ProcesoES.java:53-56 | Definition: " - Device: " + deviceType + ", Operations: " + the count's digits |
| DaemonProcess.Suffix | ProcesoDaemons.java:53-56 | Definition: " - Service: " + serviceType + ", Cycles: " + the count's digits |
| Processes.Process.ToString | ProcesoCPU.java:52 | Definition: `Header()` followed by the kind's own suffix, as each subclass appends to the common description |
| Processes.Process.Equals | Proceso.java:30-36 | Equal exactly when the other process is present and has the same concrete class and the same PID |
| Processes.EqualsIsEquivalence | Proceso.java:30-36 | Process equality is reflexive, symmetric and transitive |
| Processes.ToStringDeterminesPid | Proceso.java:25-28 | Two valid processes with the same description have the same PID |
| Processes.ToStringDeterminesAmount | ProcesoCPU.java:50-53 | Two valid processes with the same description have the same step count: intensity, operations or cycles |
| Processes.StartupScenario | Proceso.java:10-13 | From a fresh counter, four processes get PIDs 1000 to 1003 in creation order. An intensity of 10 is clamped to 5, 0 operations are raised to 1, and the daemon defaults to 3 cycles. A second CPU process with the same name, label and clamped intensity differs from the first only by PID, and is unequal to it. Processes of different kinds are unequal, and a process equals itself |
| Scheduling.ListingLine | PlanificadorProcesos.java:47 | Definition: the digits of index + 1, then ". ", then the process text |
| Scheduling.ListingLineInjective | PlanificadorProcesos.java:47 | A listing line determines both its position and the process text it shows |
| Scheduling.Summary | PlanificadorProcesos.java:116-117 | Definition: "PlanificadorProcesos{procesos=" + size digits + ", ejecuciones=" + pass-count digits + "}" |
| Scheduling.SummaryInjective | PlanificadorProcesos.java:114-118 | The summary text determines both the queue length and the pass count |
| Scheduling.TruncDiv | PlanificadorProcesos.java:83 | Java `int` division by a positive divisor: the quotient is rounded toward zero, for negative sums as well |
| Scheduling.Times | PlanificadorProcesos.java:78-81 | One estimate per queued process, in queue order, each read from that process's current fields |
| Scheduling.Mean | PlanificadorProcesos.java:73-83 | Definition: 0 for an empty list, otherwise the sum truncated-divided by the list's length (`TruncDiv`) |
| Scheduling.MeanBounds | PlanificadorProcesos.java:72-84 | The truncated average of a non-empty list lies between any lower and upper bound of its elements |
| Scheduling.AverageBetweenBounds | PlanificadorProcesos.java:72-84 | An empty queue reports 0. Otherwise the reported average lies between any bounds of the per-process estimates |
| Scheduling.Scheduler.constructor | PlanificadorProcesos.java:19-22 | The scheduler starts with an empty queue and zero passes |
| Scheduling.Scheduler.Size | PlanificadorProcesos.java:106-108 | Definition: the queue length |
| Scheduling.Scheduler.Add | PlanificadorProcesos.java:29-34 | An absent process is rejected and nothing changes. Otherwise the process is appended at the tail, even if it is already queued, and the call reports success. The pass count is unchanged |
| Scheduling.Scheduler.ListLines | PlanificadorProcesos.java:40-49 | One line per queued process, in queue order. Line i is the number i+1, then ". ", then that process's description. An empty queue gives no lines |
| Scheduling.Scheduler.RunAll | PlanificadorProcesos.java:55-66 | An empty queue changes nothing. Otherwise the pass count goes up by exactly one and every queued process runs once, in queue order, as its `Execute` specifies. The queue is unchanged |
| Scheduling.Scheduler.AverageTime | PlanificadorProcesos.java:72-84 | Returns 0 for an empty queue. Otherwise returns the sum of the estimates divided by the queue length, truncated toward zero |
| Scheduling.Scheduler.Clear | PlanificadorProcesos.java:89-92 | Empties the queue and resets the pass count to 0 |
| Scheduling.Scheduler.Finalize | PlanificadorProcesos.java:97-99 | Ends in the same state as `Clear` |
| Scheduling.Scheduler.GetQueue | PlanificadorProcesos.java:102-104 | Returns the queue's contents in order, as a value that later changes to the scheduler cannot reach |
| Scheduling.Scheduler.ToString | PlanificadorProcesos.java:114-118 | Definition: `Summary` of the queue length and the pass count |
| Scheduling.Scheduler.Equals | PlanificadorProcesos.java:120-127 | Equal exactly when the other scheduler is present, has the same pass count and queue length, and holds a process of the same concrete class and PID at every position |
| Scheduling.SchedulerEqualsIsEquivalence | PlanificadorProcesos.java:120-127 | Scheduler equality is reflexive, symmetric and transitive |

## Left out

- Console output: every `System.out.println` of `execute()` and of `listarProcesos`. The listing is returned as lines instead of printed.
- Sleeping: `Thread.sleep` is modelled only as the milliseconds spent in sleeps that finish; the part of an interrupted sleep already waited is not counted. Interruption is an input: the step whose sleep throws, per process for a pass.
- Execution.Run: a count of exactly 2^31 − 1 operations or cycles is not modelled. The constructors and setters of ProcesoES.java:12 and ProcesoDaemons.java:12 keep such a count. Java's `int` loop index then wraps from 2^31 − 1 to −2^31 after the last step, and `i <= count` still holds. The Java loop goes on with negative step numbers and never completes unless interrupted, while `Run` completes after 2^31 − 1 steps.
- Processes.Process.Execute: the same applies, since its loop is proved equal to `Run`.
- 32-bit overflow: the PID counter, the pass counter and the running total of the average are unbounded integers. Java's `int` would wrap after 2^31 − 1.
- Processes.PidAllocator.Take: the counter is an explicit object passed to the constructors, rather than a static field. It models a single-threaded program, with no data race on the post-increment.
- Processes.Process: the getters (`getPid`, `getName`, `getTaskType`, `getIntensity`, `getOperations`, ...) are the fields `pid`, `name` and `detail`, read directly.
- Scheduling.Scheduler: the getter `getContadorEjecuciones` is the field `runs`, read directly.
- Scheduling.Scheduler.AverageTime: the per-process estimate comes from a method (`obtenerTiempoEjecucion`) that no process class defines, so it is a parameter `time` over the kind's own fields (`Detail`); it cannot see a process's name or PID.
- Scheduling.Scheduler.RunAll: the scheduler calls `ejecutar()`, which no process class defines. The model calls each process's `execute()` (`Process.Execute`), the only execution method there is.
- Trimming of names and labels, placeholder defaults for blank ones, per-kind duration formulas and randomised daemon cycles are not in the process classes' code. The model stores names and labels verbatim and follows the code.
- Processes.Process.Equals: Java's `equals(Object)` also accepts objects of unrelated classes, which are always unequal. The model compares only with processes.
- Scheduling.Scheduler.Equals: the same restriction applies; it compares only with schedulers.
- `hashCode` is not overridden in the source and is not modelled.
- GestorDeProcesos.java, the console menu driving the scheduler, is not part of this model.
- Numbers are rendered with ASCII digits. String concatenation of an `int` always does this. `String.format` with `%d` instead uses the default locale's zero digit, so under a locale with other digits (Thai digits, for example) the texts of `toString` differ.
- Names and labels cannot be null in the model. Java's `String` fields can be null, and `toString` would then print "null". The console front end reads them with `nextLine()`, which never returns null.

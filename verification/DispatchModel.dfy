/** The bare-metal dispatcher: one client thread adds and waits, any number of workers pop and run.
    The queue is the bounded FIFO that the ring buffer protocol implements and each spinlock is an atomic lock;
    an end token is a buffered message. A single task added on its own is a group of one.
    Tasks and event counters are heap objects that can be freed: an access to one is a step of its own. */
module DispatchModel {
  import opened Prelude
  import AtomicLock
  import BoundedFifo
  import opened EventCounter

  type TaskId = nat
  type GroupId = nat    // also names the group's event counter
  type Exec = nat       // workers are 0 .. workers - 1; the client's own thread is number workers

  datatype Config = Config(workers: nat, length: nat, useCallersThread: bool)

  datatype Task = Task(waitable: bool, privateData: Option<GroupId>)

  datatype Group = Group(tasks: seq<TaskId>, waitable: bool)

  /** lock, count and the end tokens sent and not yet taken. */
  datatype Counter = Counter(count: nat, lock: AtomicLock.Holder, tokens: nat)

  datatype Place = Place(group: GroupId, index: nat)

  /** Where a task is in its life; a history variable. */
  datatype Phase = Fresh | Queued | Running(e: Exec) | Finished

  /** A thread that runs tasks. */
  datatype XPc =
    | XIdle                                // in queue_receive
    | XPerform(t: TaskId)                  // about to call the task's function
    | XBranch(t: TaskId)                   // about to read waitable and private_data
    | XFree(t: TaskId)                     // about to delete a non-waitable task
    | XLock(t: TaskId, c: GroupId)         // in event_counter_signal: about to take the lock
    | XCount(t: TaskId, c: GroupId)        // in event_counter_signal: about to count down
    | XUnlock(c: GroupId, last: bool)      // in event_counter_signal: about to drop the lock
    | XToken(c: GroupId)                   // in event_counter_signal: about to send the end token
  {
    predicate HasTask() { XPerform? || XBranch? || XFree? || XLock? || XCount? }

    predicate HasLock() { XCount? || XUnlock? }
  }

  datatype CPc =
    | CIdle
    | CLink(g: GroupId, i: nat)            // adding: about to set private_data of task i, or done
    | CSend(g: GroupId, i: nat)            // adding: about to enqueue task i, or to run it here
    | CRun(g: GroupId, i: nat)             // adding: task i is running on this thread
    | CWait(g: GroupId, c: GroupId)        // waiting: about to take the end token of counter c
    | CFreeCounter(g: GroupId, c: GroupId) // waiting: about to delete counter c
    | CFreeTask(g: GroupId, i: nat)        // waiting: about to delete task i, or done

  datatype State = State(
    task: map<TaskId, Task>,
    group: map<GroupId, Group>,
    counter: map<GroupId, Counter>,
    queue: seq<TaskId>,
    exec: seq<XPc>,
    client: CPc,
    // histories
    submitted: set<GroupId>,
    waited: set<GroupId>,
    place: map<TaskId, Place>,
    phase: map<TaskId, Phase>,
    log: seq<TaskId>,               // every call of a task's function
    workerLog: seq<TaskId>,         // those made by workers
    enqueued: seq<TaskId>,
    popped: nat,
    tokensSent: map<GroupId, nat>,
    taskFrees: map<TaskId, nat>,
    counterFrees: map<GroupId, nat>)

  datatype Event =
    | NewGroup(g: GroupId, waitable: bool)   // dispatch_group_create
    | NewTask(g: GroupId, t: TaskId)         // dispatch_group_function_add
    | Submit(g: GroupId)                     // dispatch_queue_group_add begins
    | Link | Enqueue | PitchIn | Resume      // ... and goes on
    | Wait(g: GroupId)                       // dispatch_queue_group_wait begins
    | TakeToken | FreeCounter | FreeTask     // ... and goes on
    | Run(e: Exec)                           // a thread that runs tasks goes on

  ghost predicate Init(c: Config, s: State) {
    s == State(map[], map[], map[], [], seq(c.workers + 1, _ => XIdle), CIdle,
               {}, {}, map[], map[], [], [], [], 0, map[], map[], map[])
  }

  // ----- building groups -----

  predicate CanNewGroup(s: State, g: GroupId) { s.client.CIdle? && g !in s.group }

  function NewGroupStep(s: State, g: GroupId, waitable: bool): State {
    s.(group := s.group[g := Group([], waitable)])
  }

  /** A freshly allocated task joins a group that is still being built. */
  predicate CanNewTask(s: State, g: GroupId, t: TaskId) {
    s.client.CIdle? && g in s.group && g !in s.submitted && t !in s.task
  }

  function NewTaskStep(s: State, g: GroupId, t: TaskId): State
    requires CanNewTask(s, g, t)
  {
    var built := s.group[g];
    s.(task := s.task[t := Task(built.waitable, None)],
    group := s.group[g := Group(built.tasks + [t], built.waitable)],
    place := s.place[t := Place(g, |built.tasks|)],
    phase := s.phase[t := Fresh],
    taskFrees := s.taskFrees[t := 0])
  }

  // ----- dispatch_queue_group_add -----

  predicate CanSubmit(s: State, g: GroupId) { s.client.CIdle? && g in s.group && g !in s.submitted }

  /** A waitable group gets an event counter that starts at its number of tasks. */
  function SubmitStep(s: State, g: GroupId): State
    requires CanSubmit(s, g)
  {
    var waitable := s.group[g].waitable;
    s.(client := CLink(g, 0), submitted := s.submitted + {g},
    counter := if waitable then s.counter[g := Counter(|s.group[g].tasks|, None, 0)] else s.counter,
    tokensSent := if waitable then s.tokensSent[g := 0] else s.tokensSent,
    counterFrees := if waitable then s.counterFrees[g := 0] else s.counterFrees)
  }

  predicate AtTask(s: State, g: GroupId, i: nat) {
    g in s.group && i < |s.group[g].tasks| && s.group[g].tasks[i] in s.task
  }

  predicate CanLink(s: State) {
    && s.client.CLink? && s.client.g in s.group
    && (s.client.i < |s.group[s.client.g].tasks| ==> AtTask(s, s.client.g, s.client.i))
  }

  /** Set private_data of one task, or end the loop. */
  function LinkStep(s: State): State
    requires CanLink(s)
  {
    var g, i := s.client.g, s.client.i;
    s.(client := if i < |s.group[g].tasks| then CSend(g, i) else CIdle,
    task := if i < |s.group[g].tasks| then
      var t := s.group[g].tasks[i];
      s.task[t := Task(s.task[t].waitable, if s.group[g].waitable then Some(g) else None)]
    else s.task)
  }

  predicate CanEnqueue(c: Config, s: State) {
    && s.client.CSend? && AtTask(s, s.client.g, s.client.i)
    && var t := s.group[s.client.g].tasks[s.client.i]; BoundedFifo.Send(c.length, s.queue, t, s.queue + [t])
  }

  function EnqueueStep(s: State): State
    requires s.client.CSend? && AtTask(s, s.client.g, s.client.i)
  {
    var g, i := s.client.g, s.client.i;
    var t := s.group[g].tasks[i];
    s.(queue := s.queue + [t], client := CLink(g, i + 1), phase := s.phase[t := Queued], enqueued := s.enqueued + [t])
  }

  /** With use_callers_thread the client may run the task itself instead; the source does so when it finds
      every worker's status flag busy, here it may do so at any time. */
  predicate CanPitchIn(c: Config, s: State) {
    s.client.CSend? && AtTask(s, s.client.g, s.client.i) && c.useCallersThread && |s.exec| == c.workers + 1
  }

  function PitchInStep(c: Config, s: State): State
    requires CanPitchIn(c, s)
  {
    var g, i := s.client.g, s.client.i;
    var t := s.group[g].tasks[i];
    s.(exec := s.exec[c.workers := XPerform(t)], client := CRun(g, i), phase := s.phase[t := Running(c.workers)])
  }

  predicate CanResume(c: Config, s: State) {
    s.client.CRun? && |s.exec| == c.workers + 1 && s.exec[c.workers].XIdle?
  }

  function ResumeStep(s: State): State
    requires s.client.CRun?
  {
    s.(client := CLink(s.client.g, s.client.i + 1))
  }

  // ----- dispatch_queue_group_wait -----

  /** The client waits once on each waitable group it has added; tasks[0] must exist. */
  predicate MayWait(s: State, g: GroupId) {
    && s.client.CIdle? && g in s.submitted && g !in s.waited
    && g in s.group && s.group[g].waitable && s.group[g].tasks != []
  }

  predicate CanWait(s: State, g: GroupId) {
    MayWait(s, g) && AtTask(s, g, 0) && s.task[s.group[g].tasks[0]].privateData.Some?
  }

  function WaitStep(s: State, g: GroupId): State
    requires CanWait(s, g)
  {
    s.(client := CWait(g, s.task[s.group[g].tasks[0]].privateData.value), waited := s.waited + {g})
  }

  predicate CanTakeToken(s: State) {
    s.client.CWait? && s.client.c in s.counter && s.counter[s.client.c].tokens > 0
  }

  function TakeTokenStep(s: State): State
    requires CanTakeToken(s)
  {
    var c := s.client.c;
    s.(counter := s.counter[c := s.counter[c].(tokens := s.counter[c].tokens - 1)],
    client := CFreeCounter(s.client.g, c))
  }

  predicate CanFreeCounter(s: State) { s.client.CFreeCounter? && s.client.c in s.counterFrees }

  function FreeCounterStep(s: State): State
    requires CanFreeCounter(s)
  {
    var c := s.client.c;
    s.(counterFrees := s.counterFrees[c := s.counterFrees[c] + 1], client := CFreeTask(s.client.g, 0))
  }

  predicate CanFreeTask(s: State) {
    && s.client.CFreeTask? && s.client.g in s.group
    && (s.client.i < |s.group[s.client.g].tasks| ==> s.group[s.client.g].tasks[s.client.i] in s.taskFrees)
  }

  /** Delete one task, or return. */
  function FreeTaskStep(s: State): State
    requires CanFreeTask(s)
  {
    var g, i := s.client.g, s.client.i;
    s.(client := if i < |s.group[g].tasks| then CFreeTask(g, i + 1) else CIdle,
    taskFrees := if i < |s.group[g].tasks| then
      var t := s.group[g].tasks[i];
      s.taskFrees[t := s.taskFrees[t] + 1]
    else s.taskFrees)
  }

  // ----- dispatch_queue_worker and run_task -----

  function Goto(s: State, e: Exec, p: XPc): State
    requires e < |s.exec|
  {
    s.(exec := s.exec[e := p])
  }

  /** Only workers receive; the client's thread is given its task. */
  predicate CanReceive(c: Config, s: State, e: Exec) {
    && e < |s.exec| && e < c.workers && s.exec[e].XIdle?
    && s.queue != [] && BoundedFifo.Receive(s.queue, s.queue[0], s.queue[1..])
  }

  function ReceiveStep(s: State, e: Exec): State
    requires e < |s.exec| && s.queue != []
  {
    var t := s.queue[0];
    Goto(s, e, XPerform(t)).(queue := s.queue[1..], phase := s.phase[t := Running(e)], popped := s.popped + 1)
  }

  predicate CanPerform(s: State, e: Exec) { e < |s.exec| && s.exec[e].XPerform? }

  function PerformStep(c: Config, s: State, e: Exec): State
    requires CanPerform(s, e)
  {
    var t := s.exec[e].t;
    Goto(s, e, XBranch(t)).(log := s.log + [t], workerLog := if e < c.workers then s.workerLog + [t] else s.workerLog)
  }

  predicate CanBranch(s: State, e: Exec) {
    && e < |s.exec| && s.exec[e].XBranch? && s.exec[e].t in s.task
    && (s.task[s.exec[e].t].waitable ==> s.task[s.exec[e].t].privateData.Some?)
  }

  function BranchStep(s: State, e: Exec): State
    requires CanBranch(s, e)
  {
    var t := s.exec[e].t;
    Goto(s, e, if s.task[t].waitable then XLock(t, s.task[t].privateData.value) else XFree(t))
  }

  predicate CanFree(s: State, e: Exec) { e < |s.exec| && s.exec[e].XFree? && s.exec[e].t in s.taskFrees }

  function FreeStep(s: State, e: Exec): State
    requires CanFree(s, e)
  {
    var t := s.exec[e].t;
    Goto(s, e, XIdle).(taskFrees := s.taskFrees[t := s.taskFrees[t] + 1], phase := s.phase[t := Finished])
  }

  predicate CanLock(s: State, e: Exec) {
    e < |s.exec| && s.exec[e].XLock? && s.exec[e].c in s.counter && s.counter[s.exec[e].c].lock.None?
  }

  function LockStep(s: State, e: Exec): State
    requires CanLock(s, e)
  {
    var XLock(t, c) := s.exec[e];
    Goto(s, e, XCount(t, c)).(counter := s.counter[c := s.counter[c].(lock := Some(e))])
  }

  predicate CanCount(s: State, e: Exec) { e < |s.exec| && s.exec[e].XCount? && s.exec[e].c in s.counter }

  /** Count down unless already at zero; whoever reaches zero will send the token. */
  function CountStep(s: State, e: Exec): State
    requires CanCount(s, e)
  {
    var XCount(t, c) := s.exec[e];
    var (count, last) := CountDown(s.counter[c].count);
    Goto(s, e, XUnlock(c, last)).(counter := s.counter[c := s.counter[c].(count := count)],
    phase := s.phase[t := Finished])
  }

  predicate CanUnlock(s: State, e: Exec) { e < |s.exec| && s.exec[e].XUnlock? && s.exec[e].c in s.counter }

  function UnlockStep(s: State, e: Exec): State
    requires CanUnlock(s, e)
  {
    var XUnlock(c, last) := s.exec[e];
    Goto(s, e, if last then XToken(c) else XIdle).(counter := s.counter[c := s.counter[c].(lock := None)])
  }

  predicate CanToken(s: State, e: Exec) {
    e < |s.exec| && s.exec[e].XToken? && s.exec[e].c in s.counter && s.exec[e].c in s.tokensSent
  }

  function TokenStep(s: State, e: Exec): State
    requires CanToken(s, e)
  {
    var c := s.exec[e].c;
    Goto(s, e, XIdle).(counter := s.counter[c := s.counter[c].(tokens := s.counter[c].tokens + 1)],
    tokensSent := s.tokensSent[c := s.tokensSent[c] + 1])
  }

  predicate CanRun(c: Config, s: State, e: Exec) {
    && e < |s.exec|
    && match s.exec[e]
       case XIdle => CanReceive(c, s, e)
       case XPerform(_) => CanPerform(s, e)
       case XBranch(_) => CanBranch(s, e)
       case XFree(_) => CanFree(s, e)
       case XLock(_, _) => CanLock(s, e)
       case XCount(_, _) => CanCount(s, e)
       case XUnlock(_, _) => CanUnlock(s, e)
       case XToken(_) => CanToken(s, e)
  }

  function RunStep(c: Config, s: State, e: Exec): State
    requires CanRun(c, s, e)
  {
    match s.exec[e]
    case XIdle => ReceiveStep(s, e)
    case XPerform(_) => PerformStep(c, s, e)
    case XBranch(_) => BranchStep(s, e)
    case XFree(_) => FreeStep(s, e)
    case XLock(_, _) => LockStep(s, e)
    case XCount(_, _) => CountStep(s, e)
    case XUnlock(_, _) => UnlockStep(s, e)
    case XToken(_) => TokenStep(s, e)
  }

  // ----- all together -----

  predicate Enabled(c: Config, s: State, ev: Event) {
    match ev
    case NewGroup(g, _) => CanNewGroup(s, g)
    case NewTask(g, t) => CanNewTask(s, g, t)
    case Submit(g) => CanSubmit(s, g)
    case Link => CanLink(s)
    case Enqueue => CanEnqueue(c, s)
    case PitchIn => CanPitchIn(c, s)
    case Resume => CanResume(c, s)
    case Wait(g) => CanWait(s, g)
    case TakeToken => CanTakeToken(s)
    case FreeCounter => CanFreeCounter(s)
    case FreeTask => CanFreeTask(s)
    case Run(e) => CanRun(c, s, e)
  }

  function Apply(c: Config, s: State, ev: Event): State
    requires Enabled(c, s, ev)
  {
    match ev
    case NewGroup(g, waitable) => NewGroupStep(s, g, waitable)
    case NewTask(g, t) => NewTaskStep(s, g, t)
    case Submit(g) => SubmitStep(s, g)
    case Link => LinkStep(s)
    case Enqueue => EnqueueStep(s)
    case PitchIn => PitchInStep(c, s)
    case Resume => ResumeStep(s)
    case Wait(g) => WaitStep(s, g)
    case TakeToken => TakeTokenStep(s)
    case FreeCounter => FreeCounterStep(s)
    case FreeTask => FreeTaskStep(s)
    case Run(e) => RunStep(c, s, e)
  }

  ghost predicate Next(c: Config, s: State, s': State) {
    exists ev :: Enabled(c, s, ev) && s' == Apply(c, s, ev)
  }

  ghost predicate IsRun(c: Config, run: seq<State>) {
    && |run| > 0
    && Init(c, run[0])
    && forall i :: 0 <= i < |run| - 1 ==> Next(c, run[i], run[i + 1])
  }

  // ----- which heap objects a step accesses -----

  function TaskOf(s: State, g: GroupId, i: nat): set<TaskId> {
    if AtTask(s, g, i) then {s.group[g].tasks[i]} else {}
  }

  /** dispatch_queue_task_add reads the waitability of its task, the first of its group, and a wait reads the
      private_data of the first task. */
  function TasksTouched(s: State, ev: Event): set<TaskId> {
    match ev
    case Submit(g) => TaskOf(s, g, 0)
    case Wait(g) => TaskOf(s, g, 0)
    case Link => if s.client.CLink? then TaskOf(s, s.client.g, s.client.i) else {}
    case FreeTask => if s.client.CFreeTask? then TaskOf(s, s.client.g, s.client.i) else {}
    case Run(e) =>
      if e < |s.exec| && (s.exec[e].XPerform? || s.exec[e].XBranch? || s.exec[e].XFree?) then {s.exec[e].t} else {}
    case _ => {}
  }

  function CountersTouched(s: State, ev: Event): set<GroupId> {
    match ev
    case TakeToken => if s.client.CWait? then {s.client.c} else {}
    case FreeCounter => if s.client.CFreeCounter? then {s.client.c} else {}
    case Run(e) =>
      if e < |s.exec| && (s.exec[e].XLock? || s.exec[e].XCount? || s.exec[e].XUnlock? || s.exec[e].XToken?)
      then {s.exec[e].c} else {}
    case _ => {}
  }
}

/** The host dispatcher: any number of workers, of threads adding tasks and of threads in dispatch_queue_wait, and one
    that may delete the queue. One step per action; std::mutex is an atomic lock, notify_one wakes one sleeper of its
    own choosing if there is any, and a sleeper may also wake up for no reason. A job is one push of a task. */
module HostModel {
  import opened Prelude

  type Job = nat    // the number of its push

  datatype WPc =
    | WStart           // about to take the lock for the first time
    | WTop             // locked: about to signal ready
    | WPred            // locked: about to test the wait predicate
    | WAsleep          // in the wait set, lock released
    | WWoken           // about to retake the lock and test again
    | WDecide          // locked: past the wait
    | WReset           // locked: about to clear ready
    | WPop             // locked: about to pop the front
    | WUnlock(n: Job)  // locked: about to unlock
    | WRun(n: Job)     // about to perform the task
    | WFinish(n: Job)  // about to signal its counter or delete it
    | WRelock          // about to retake the lock
    | WLoop            // locked: about to test quit
    | WExit
  {
    predicate Locked() { WTop? || WPred? || WDecide? || WReset? || WPop? || WUnlock? || WLoop? }

    predicate HasJob() { WUnlock? || WRun? || WFinish? }
  }

  datatype APc = AIdle | ALock | APush | AUnlock | ANotify

  /** dispatch_queue_wait; since and m are the numbers of jobs pushed when it was called and when it last read the
      deque. */
  datatype VPc =
    | VIdle
    | VLock(since: nat)                           // about to take the lock
    | VRead(since: nat)                           // locked: about to read the deque's size
    | VUnlock(since: nat, empty: bool, m: nat)    // locked: about to unlock
    | VScan(since: nat, i: nat, m: nat)           // about to wait for worker i to be ready
    | VReturn(since: nat, m: nat)

  datatype DPc = DIdle | DLock | DSet | DUnlock | DNotify | DJoin(i: nat) | DDone

  datatype Holder = Nobody | Worker(w: nat) | Adder(a: nat) | Waiter(v: nat) | Deleter

  datatype State = State(
    lock: Holder,
    deque: seq<Job>,
    quit: bool,
    ready: seq<nat>,            // the workers' ready semaphores: 0 is ready
    workers: seq<WPc>,
    adders: map<nat, APc>,
    waiters: map<nat, VPc>,
    deleter: DPc,
    // histories
    pushed: nat,
    popped: nat,
    runner: map<Job, nat>,
    finished: set<Job>,
    log: seq<Job>)

  datatype Event =
    | Add(a: nat)                   // a thread calls task_add
    | Adding(a: nat)                // ... and goes on
    | NotifyOne(a: nat, w: nat)     // ... and wakes worker w
    | NotifyNone(a: nat)            // ... and finds nobody asleep
    | Await(v: nat)                 // a thread calls dispatch_queue_wait
    | Awaiting(v: nat)              // ... and goes on
    | Delete                        // dispatch_queue_delete is called
    | Deleting                      // ... and goes on
    | Work(w: nat)                  // a worker goes on
    | Spurious(w: nat)              // a sleeping worker wakes up for no reason

  ghost predicate Init(s: State) {
    && s.lock.Nobody? && s.deque == [] && !s.quit
    && |s.ready| == |s.workers|
    && (forall w :: 0 <= w < |s.workers| ==> s.workers[w].WStart? && s.ready[w] == 1)
    && (forall a :: a in s.adders ==> s.adders[a].AIdle?)
    && (forall v :: v in s.waiters ==> s.waiters[v].VIdle?)
    && s.deleter.DIdle?
    && s.pushed == 0 && s.popped == 0 && s.runner == map[] && s.finished == {} && s.log == []
  }

  // ----- workers -----

  function Goto(s: State, w: nat, p: WPc): State
    requires w < |s.workers|
  {
    s.(workers := s.workers[w := p])
  }

  predicate CanWork(s: State, w: nat) {
    && w < |s.workers|
    && w < |s.ready|
    && !s.workers[w].WAsleep? && !s.workers[w].WExit?
    && (s.workers[w].WStart? || s.workers[w].WWoken? || s.workers[w].WRelock? ==> s.lock.Nobody?)
    && (s.workers[w].WPop? ==> s.deque != [])
  }

  /** The lock after worker w has moved on. */
  function LockAfter(lock: Holder, w: nat, before: WPc, after: WPc): Holder {
    if after.Locked() == before.Locked() then lock else if after.Locked() then Worker(w) else Nobody
  }

  /** Where a worker without a job goes on to; work says that the deque is not empty. */
  function Onward(p: WPc, work: bool, quit: bool): WPc
    requires !p.HasJob() && !p.WReset? && !p.WPop? && !p.WAsleep? && !p.WExit?
  {
    match p
    case WStart => WTop
    case WTop => WPred
    case WPred => if work || quit then WDecide else WAsleep
    case WWoken => WPred
    case WDecide => if !quit && work then WReset else WLoop
    case WRelock => WLoop
    case WLoop => if quit then WExit else WTop
  }

  /** Taking the lock, and the loop around the wait; the ready semaphore is signalled at its top. */
  function LoopStep(s: State, w: nat): State
    requires CanWork(s, w) && !s.workers[w].HasJob() && !s.workers[w].WReset? && !s.workers[w].WPop?
  {
    var p := Onward(s.workers[w], s.deque != [], s.quit);
    var v := if s.workers[w].WTop? && s.ready[w] > 0 then s.ready[w] - 1 else s.ready[w];
    s.(workers := s.workers[w := p], ready := s.ready[w := v], lock := LockAfter(s.lock, w, s.workers[w], p))
  }

  /** Taking a job and doing it. */
  function JobStep(s: State, w: nat): State
    requires CanWork(s, w) && (s.workers[w].HasJob() || s.workers[w].WReset? || s.workers[w].WPop?)
  {
    match s.workers[w]
    case WReset => Goto(s, w, WPop).(ready := s.ready[w := 1])
    case WPop =>
      Goto(s, w, WUnlock(s.deque[0])).(deque := s.deque[1..], popped := s.popped + 1,
      runner := s.runner[s.deque[0] := w])
    case WUnlock(n) => Goto(s, w, WRun(n)).(lock := Nobody)
    case WRun(n) => Goto(s, w, WFinish(n)).(log := s.log + [n])
    case WFinish(n) => Goto(s, w, WRelock).(finished := s.finished + {n})
  }

  function WorkStep(s: State, w: nat): State
    requires CanWork(s, w)
  {
    if s.workers[w].HasJob() || s.workers[w].WReset? || s.workers[w].WPop? then JobStep(s, w) else LoopStep(s, w)
  }

  // ----- task_add -----

  predicate CanAdding(s: State, a: nat) {
    && a in s.adders && !s.adders[a].AIdle? && !s.adders[a].ANotify?
    && (s.adders[a].ALock? ==> s.lock.Nobody?)
  }

  function AddingStep(s: State, a: nat): State
    requires CanAdding(s, a)
  {
    match s.adders[a]
    case ALock => s.(adders := s.adders[a := APush], lock := Adder(a))
    case APush => s.(adders := s.adders[a := AUnlock], deque := s.deque + [s.pushed], pushed := s.pushed + 1)
    case AUnlock => s.(adders := s.adders[a := ANotify], lock := Nobody)
  }

  // ----- dispatch_queue_wait -----

  predicate CanAwaiting(s: State, v: nat) {
    && v in s.waiters && !s.waiters[v].VIdle?
    && (s.waiters[v].VLock? ==> s.lock.Nobody?)
    && (s.waiters[v].VScan? && s.waiters[v].i < |s.ready| ==> s.ready[s.waiters[v].i] == 0)
  }

  function AwaitingStep(s: State, v: nat): State
    requires CanAwaiting(s, v)
  {
    match s.waiters[v]
    case VLock(since) => s.(waiters := s.waiters[v := VRead(since)], lock := Waiter(v))
    case VRead(since) => s.(waiters := s.waiters[v := VUnlock(since, s.deque == [], s.pushed)])
    case VUnlock(since, empty, m) =>
      s.(waiters := s.waiters[v := if empty then VScan(since, 0, m) else VLock(since)], lock := Nobody)
    case VScan(since, i, m) =>
      s.(waiters := s.waiters[v := if i < |s.ready| then VScan(since, i + 1, m) else VReturn(since, m)])
    case VReturn(_, _) => s.(waiters := s.waiters[v := VIdle])
  }

  // ----- dispatch_queue_delete -----

  predicate CanDeleting(s: State) {
    && !s.deleter.DIdle? && !s.deleter.DDone?
    && (s.deleter.DLock? ==> s.lock.Nobody?)
    && (s.deleter.DJoin? && s.deleter.i < |s.workers| ==> s.workers[s.deleter.i].WExit?)
  }

  function WakeAll(workers: seq<WPc>): (r: seq<WPc>)
    ensures |r| == |workers|
    ensures forall w :: 0 <= w < |r| ==> r[w] == if workers[w].WAsleep? then WWoken else workers[w]
  {
    seq(|workers|, w requires 0 <= w < |workers| => if workers[w].WAsleep? then WWoken else workers[w])
  }

  function DeletingStep(s: State): State
    requires CanDeleting(s)
  {
    match s.deleter
    case DLock => s.(deleter := DSet, lock := Deleter)
    case DSet => s.(deleter := DUnlock, quit := true)
    case DUnlock => s.(deleter := DNotify, lock := Nobody)
    case DNotify => s.(deleter := DJoin(0), workers := WakeAll(s.workers))
    case DJoin(i) => s.(deleter := if i < |s.workers| then DJoin(i + 1) else DDone)
  }

  // ----- all together -----

  ghost predicate Enabled(s: State, ev: Event) {
    match ev
    case Add(a) => a in s.adders && s.adders[a].AIdle?
    case Adding(a) => CanAdding(s, a)
    case NotifyOne(a, w) => a in s.adders && s.adders[a].ANotify? && w < |s.workers| && s.workers[w].WAsleep?
    case NotifyNone(a) =>
      a in s.adders && s.adders[a].ANotify? && forall w :: 0 <= w < |s.workers| ==> !s.workers[w].WAsleep?
    case Await(v) => v in s.waiters && s.waiters[v].VIdle?
    case Awaiting(v) => CanAwaiting(s, v)
    case Delete => s.deleter.DIdle?
    case Deleting => CanDeleting(s)
    case Work(w) => CanWork(s, w)
    case Spurious(w) => w < |s.workers| && s.workers[w].WAsleep?
  }

  ghost function Apply(s: State, ev: Event): State
    requires Enabled(s, ev)
  {
    match ev
    case Add(a) => s.(adders := s.adders[a := ALock])
    case Adding(a) => AddingStep(s, a)
    case NotifyOne(a, w) => Goto(s, w, WWoken).(adders := s.adders[a := AIdle])
    case NotifyNone(a) => s.(adders := s.adders[a := AIdle])
    case Await(v) => s.(waiters := s.waiters[v := VLock(s.pushed)])
    case Awaiting(v) => AwaitingStep(s, v)
    case Delete => s.(deleter := DLock)
    case Deleting => DeletingStep(s)
    case Work(w) => WorkStep(s, w)
    case Spurious(w) => Goto(s, w, WWoken)
  }

  ghost predicate Next(s: State, s': State) {
    exists ev :: Enabled(s, ev) && s' == Apply(s, ev)
  }

  ghost predicate IsRun(run: seq<State>) {
    && |run| > 0
    && Init(run[0])
    && forall i :: 0 <= i < |run| - 1 ==> Next(run[i], run[i + 1])
  }
}

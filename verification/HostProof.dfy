/** Every step of the host dispatcher keeps the invariant, so every run does. */
module HostProof {
  import opened Prelude
  import opened HostModel
  import opened HostInvariant

  // ----- workers -----

  /** A worker moves on without touching the deque or a job. */
  lemma MoveInv(s: State, w: nat, p: WPc, v: nat)
    requires Inv(s) && w < |s.workers| && w < |s.ready| && !s.workers[w].WExit? && !s.workers[w].WAsleep?
    requires p.Locked() && !s.workers[w].Locked() ==> s.lock.Nobody?
    requires p.HasJob() == s.workers[w].HasJob() && (p.HasJob() ==> p.n == s.workers[w].n)
    requires !p.WFinish? && !s.workers[w].WFinish?
    requires p.HasJob() || p.WPop? ==> v > 0
    requires p.WReset? || p.WPop? ==> s.deque != [] && !s.quit
    requires p.WExit? ==> s.quit
    requires p.WAsleep? ==> s.deque == [] && !s.quit
    ensures Inv(s.(workers := s.workers[w := p], lock := LockAfter(s.lock, w, s.workers[w], p),
                   ready := s.ready[w := v]))
  {
    hide Locks, Jobs, Called, NotReady, Awaits, Served, Quits;
    LocksWorker(s.lock, s.workers, s.adders, s.waiters, s.deleter, w, p);
    JobsMove(s.workers, s.deque, s.pushed, s.popped, s.runner, s.finished, w, p);
    CalledMove(s.workers, s.runner, s.finished, s.log, w, p);
    NotReadyMove(s.workers, s.ready, s.deque, w, p, v);
    QuitsWorker(s.workers, s.deleter, s.quit, w, p);
    if p.WAsleep? {
      ServedSleep(s.workers, s.adders, s.quit, w);
    } else {
      ServedMove(s.workers, s.adders, s.deque, s.quit, w, p);
    }
  }

  lemma LoopInv(s: State, w: nat)
    requires Inv(s) && CanWork(s, w) && !s.workers[w].HasJob() && !s.workers[w].WReset? && !s.workers[w].WPop?
    ensures Inv(LoopStep(s, w))
  {
    hide Inv;
    var s' := LoopStep(s, w);
    MoveInv(s, w, s'.workers[w], s'.ready[w]);
  }

  lemma Popping(s: State, w: nat)
    requires Locks(s.lock, s.workers, s.adders, s.waiters, s.deleter) && Quits(s.workers, s.deleter, s.quit)
    requires NotReady(s.workers, s.ready, s.deque)
    requires w < |s.workers| && (s.workers[w].WReset? || s.workers[w].WPop?)
    ensures !s.quit && s.deque != []
    ensures forall u :: 0 <= u < |s.workers| && (s.workers[u].WReset? || s.workers[u].WPop?) ==> u == w
  {
    assert s.lock == Worker(w);
  }

  lemma Holding(s: State, w: nat)
    requires Jobs(s.workers, s.deque, s.pushed, s.popped, s.runner, s.finished) && NotReady(s.workers, s.ready, s.deque)
    requires w < |s.workers| && s.workers[w].HasJob()
    ensures s.workers[w].n in s.runner && s.runner[s.workers[w].n] == w && s.workers[w].n !in s.finished
    ensures w < |s.ready| && s.ready[w] > 0
  {
  }

  lemma PopInv(s: State, w: nat)
    requires Inv(s) && CanWork(s, w) && s.workers[w].WPop?
    ensures Inv(JobStep(s, w))
  {
    hide Locks, Jobs, Called, NotReady, Awaits, Served, Quits;
    var n := s.deque[0];
    Popping(s, w);
    NotFinished(s);
    LocksWorker(s.lock, s.workers, s.adders, s.waiters, s.deleter, w, WUnlock(n));
    JobsPop(s.workers, s.deque, s.pushed, s.popped, s.runner, s.finished, w);
    CalledPop(s.workers, s.runner, s.finished, s.log, w, n);
    NotReadyPop(s.workers, s.ready, s.deque, w, n);
    AwaitsPop(s.waiters, s.pushed, s.popped, s.runner, s.finished, |s.workers|, w);
    ServedMove(s.workers, s.adders, s.deque, s.quit, w, WUnlock(n));
    ServedShrink(s.workers[w := WUnlock(n)], s.adders, s.deque, s.quit);
    QuitsWorker(s.workers, s.deleter, s.quit, w, WUnlock(n));
  }

  lemma NotFinished(s: State)
    requires Jobs(s.workers, s.deque, s.pushed, s.popped, s.runner, s.finished) && s.deque != []
    ensures s.deque[0] == s.popped && s.deque[0] !in s.finished
  {
  }

  lemma RunJobInv(s: State, w: nat)
    requires Inv(s) && CanWork(s, w) && s.workers[w].WRun?
    ensures Inv(JobStep(s, w))
  {
    hide Locks, Jobs, Called, NotReady, Awaits, Served, Quits;
    var p := WFinish(s.workers[w].n);
    Holding(s, w);
    LocksWorker(s.lock, s.workers, s.adders, s.waiters, s.deleter, w, p);
    JobsMove(s.workers, s.deque, s.pushed, s.popped, s.runner, s.finished, w, p);
    CalledRun(s.workers, s.runner, s.finished, s.log, w);
    NotReadyMove(s.workers, s.ready, s.deque, w, p, s.ready[w]);
    ServedMove(s.workers, s.adders, s.deque, s.quit, w, p);
    QuitsWorker(s.workers, s.deleter, s.quit, w, p);
    assert s.ready[w := s.ready[w]] == s.ready;
  }

  lemma FinishInv(s: State, w: nat)
    requires Inv(s) && CanWork(s, w) && s.workers[w].WFinish?
    ensures Inv(JobStep(s, w))
  {
    hide Locks, Jobs, Called, NotReady, Awaits, Served, Quits;
    Holding(s, w);
    LocksWorker(s.lock, s.workers, s.adders, s.waiters, s.deleter, w, WRelock);
    JobsFinish(s.workers, s.deque, s.pushed, s.popped, s.runner, s.finished, w);
    CalledFinish(s.workers, s.runner, s.finished, s.log, w);
    NotReadyMove(s.workers, s.ready, s.deque, w, WRelock, s.ready[w]);
    AwaitsFinish(s.waiters, s.pushed, s.popped, s.runner, s.finished, |s.workers|, s.workers[w].n);
    ServedMove(s.workers, s.adders, s.deque, s.quit, w, WRelock);
    QuitsWorker(s.workers, s.deleter, s.quit, w, WRelock);
    assert s.ready[w := s.ready[w]] == s.ready;
  }

  lemma JobInv(s: State, w: nat)
    requires Inv(s) && CanWork(s, w) && (s.workers[w].HasJob() || s.workers[w].WReset? || s.workers[w].WPop?)
    ensures Inv(JobStep(s, w))
  {
    hide Locks, Jobs, Called, NotReady, Awaits, Served, Quits;
    match s.workers[w]
    case WReset =>
      Popping(s, w);
      MoveInv(s, w, WPop, 1);
    case WPop => PopInv(s, w);
    case WUnlock(n) =>
      Holding(s, w);
      assert s.ready[w := s.ready[w]] == s.ready;
      MoveInv(s, w, WRun(n), s.ready[w]);
    case WRun(_) => RunJobInv(s, w);
    case WFinish(_) => FinishInv(s, w);
  }

  lemma WakeInv(s: State, w: nat)
    requires Inv(s) && w < |s.workers| && s.workers[w].WAsleep?
    ensures Inv(Goto(s, w, WWoken))
  {
    hide Locks, Jobs, Called, NotReady, Awaits, Served, Quits;
    ReadyCount(s);
    LocksWorker(s.lock, s.workers, s.adders, s.waiters, s.deleter, w, WWoken);
    JobsMove(s.workers, s.deque, s.pushed, s.popped, s.runner, s.finished, w, WWoken);
    CalledMove(s.workers, s.runner, s.finished, s.log, w, WWoken);
    NotReadyMove(s.workers, s.ready, s.deque, w, WWoken, s.ready[w]);
    ServedWake(s.workers, s.adders, s.deque, s.quit, w);
    QuitsWorker(s.workers, s.deleter, s.quit, w, WWoken);
    assert s.ready[w := s.ready[w]] == s.ready;
  }

  lemma ReadyCount(s: State)
    requires NotReady(s.workers, s.ready, s.deque)
    ensures |s.ready| == |s.workers|
  {
  }

  // ----- task_add -----

  lemma AddingInv(s: State, a: nat)
    requires Inv(s) && CanAdding(s, a)
    ensures Inv(AddingStep(s, a))
  {
    hide Locks, Jobs, Called, NotReady, Awaits, Served, Quits;
    var s' := AddingStep(s, a);
    LocksAdder(s.lock, s.workers, s.adders, s.waiters, s.deleter, a, s'.adders[a]);
    if s.adders[a].APush? {
      JobsPush(s.workers, s.deque, s.pushed, s.popped, s.runner, s.finished);
      AwaitsPush(s.waiters, s.pushed, s.popped, s.runner, s.finished, |s.workers|);
      NotReadyPush(s.workers, s.ready, s.deque, s.pushed);
      ServedPush(s.workers, s.adders, s.deque, s.quit, a, s.pushed);
    } else {
      ServedAdder(s.workers, s.adders, s.deque, s.quit, a, s'.adders[a]);
    }
  }

  lemma NotReadyPush(workers: seq<WPc>, ready: seq<nat>, deque: seq<Job>, n: Job)
    requires NotReady(workers, ready, deque)
    ensures NotReady(workers, ready, deque + [n])
  {
  }

  lemma NotifyOneInv(s: State, a: nat, w: nat)
    requires Inv(s) && Enabled(s, NotifyOne(a, w))
    ensures Inv(Apply(s, NotifyOne(a, w)))
  {
    hide Locks, Jobs, Called, NotReady, Awaits, Served, Quits;
    WakeInv(s, w);
    LocksAdder(s.lock, s.workers[w := WWoken], s.adders, s.waiters, s.deleter, a, AIdle);
    ServedNotify(s.workers, s.adders, s.deque, s.quit, a, w);
  }

  lemma NotifyNoneInv(s: State, a: nat)
    requires Inv(s) && Enabled(s, NotifyNone(a))
    ensures Inv(Apply(s, NotifyNone(a)))
  {
    hide Locks, Jobs, Called, NotReady, Awaits, Quits;
    LocksAdder(s.lock, s.workers, s.adders, s.waiters, s.deleter, a, AIdle);
    assert Asleep(s.workers) == {};
  }

  lemma AddInv(s: State, a: nat)
    requires Inv(s) && Enabled(s, Add(a))
    ensures Inv(Apply(s, Add(a)))
  {
    hide Locks, Jobs, Called, NotReady, Awaits, Served, Quits;
    LocksAdder(s.lock, s.workers, s.adders, s.waiters, s.deleter, a, ALock);
    ServedAdder(s.workers, s.adders, s.deque, s.quit, a, ALock);
  }

  // ----- dispatch_queue_wait -----

  lemma AwaitingInv(s: State, v: nat)
    requires Inv(s) && CanAwaiting(s, v)
    ensures Inv(AwaitingStep(s, v))
  {
    hide Locks, Jobs, Called, NotReady, Awaits, Served, Quits;
    var p := AwaitingStep(s, v).waiters[v];
    LocksWaiter(s.lock, s.workers, s.adders, s.waiters, s.deleter, v, p);
    AwaitingKnows(s, v);
    AwaitsMove(s.waiters, s.pushed, s.popped, s.runner, s.finished, |s.workers|, v, p);
  }

  /** Reading the deque empty covers every job pushed so far. */
  lemma AwaitingKnows(s: State, v: nat)
    requires Jobs(s.workers, s.deque, s.pushed, s.popped, s.runner, s.finished) && NotReady(s.workers, s.ready, s.deque)
    requires Awaits(s.waiters, s.pushed, s.popped, s.runner, s.finished, |s.workers|) && CanAwaiting(s, v)
    ensures Knows(AwaitingStep(s, v).waiters[v], s.pushed, s.popped, s.runner, s.finished, |s.workers|)
  {
    assert Knows(s.waiters[v], s.pushed, s.popped, s.runner, s.finished, |s.workers|);
    ReadyCount(s);
    EmptyPopped(s);
    if s.waiters[v].VScan? && s.waiters[v].i < |s.ready| {
      ScanPasses(s.workers, s.ready, s.deque, s.pushed, s.popped, s.runner, s.finished, s.waiters[v].m, s.waiters[v].i);
    }
    hide Jobs, NotReady, Awaits;
  }

  lemma EmptyPopped(s: State)
    requires Jobs(s.workers, s.deque, s.pushed, s.popped, s.runner, s.finished)
    ensures s.deque == [] ==> s.pushed == s.popped
  {
  }

  lemma AwaitInv(s: State, v: nat)
    requires Inv(s) && Enabled(s, Await(v))
    ensures Inv(Apply(s, Await(v)))
  {
    hide Locks, Jobs, Called, NotReady, Awaits, Served, Quits;
    LocksWaiter(s.lock, s.workers, s.adders, s.waiters, s.deleter, v, VLock(s.pushed));
    AwaitsMove(s.waiters, s.pushed, s.popped, s.runner, s.finished, |s.workers|, v, VLock(s.pushed));
  }

  // ----- dispatch_queue_delete -----

  lemma QuitsDeleter(s: State)
    requires Locks(s.lock, s.workers, s.adders, s.waiters, s.deleter) && Quits(s.workers, s.deleter, s.quit)
    requires CanDeleting(s) && !s.deleter.DNotify?
    ensures Quits(s.workers, DeletingStep(s).deleter, DeletingStep(s).quit)
  {
  }

  lemma DeletingInv(s: State)
    requires Inv(s) && CanDeleting(s)
    ensures Inv(DeletingStep(s))
  {
    hide Locks, Jobs, Called, NotReady, Awaits, Quits, WakeAll;
    var s' := DeletingStep(s);
    LocksDeleter(s.lock, s.workers, s.adders, s.waiters, s.deleter, s'.deleter);
    if s.deleter.DNotify? {
      LocksWakeAll(s.lock, s.workers, s.adders, s.waiters, s'.deleter);
      JobsWakeAll(s.workers, s.deque, s.pushed, s.popped, s.runner, s.finished);
      CalledWakeAll(s.workers, s.runner, s.finished, s.log);
      NotReadyWakeAll(s.workers, s.ready, s.deque);
      QuitsWakeAll(s.workers, s.quit);
      assert Asleep(s'.workers) == {};
    } else {
      QuitsDeleter(s);
    }
  }

  lemma DeleteInv(s: State)
    requires Inv(s) && Enabled(s, Delete)
    ensures Inv(Apply(s, Delete))
  {
    hide Jobs, Called, NotReady, Awaits, Served;
  }

  // ----- all together -----

  lemma StepInv(s: State, ev: Event)
    requires Inv(s) && Enabled(s, ev)
    ensures Inv(Apply(s, ev))
  {
    hide Inv;
    match ev
    case Add(a) => AddInv(s, a);
    case Adding(a) => AddingInv(s, a);
    case NotifyOne(a, w) => NotifyOneInv(s, a, w);
    case NotifyNone(a) => NotifyNoneInv(s, a);
    case Await(v) => AwaitInv(s, v);
    case Awaiting(v) => AwaitingInv(s, v);
    case Delete => DeleteInv(s);
    case Deleting => DeletingInv(s);
    case Work(w) =>
      if s.workers[w].HasJob() || s.workers[w].WReset? || s.workers[w].WPop? {
        JobInv(s, w);
      } else {
        LoopInv(s, w);
      }
    case Spurious(w) => WakeInv(s, w);
  }

  lemma InitInv(s: State)
    requires Init(s)
    ensures Inv(s)
  {
    assert Asleep(s.workers) == {};
  }

  lemma NextInv(s: State, s': State)
    requires Inv(s) && Next(s, s')
    ensures Inv(s')
  {
    hide Inv, Enabled, Apply;
    var ev :| Enabled(s, ev) && s' == Apply(s, ev);
    StepInv(s, ev);
  }

  lemma {:induction false} RunInv(run: seq<State>, i: nat)
    requires IsRun(run) && i < |run|
    ensures Inv(run[i])
  {
    if i == 0 {
      InitInv(run[0]);
    } else {
      hide Inv, Next, Init;
      RunInv(run, i - 1);
      assert Next(run[i - 1], run[i - 1 + 1]);
      NextInv(run[i - 1], run[i]);
    }
  }
}

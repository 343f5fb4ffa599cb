/** The host dispatcher's promises, over every run. */
module HostTheorems {
  import opened Prelude
  import opened HostModel
  import opened HostInvariant
  import opened HostProof

  /** dispatch_queue_wait is sound: when it returns, every job pushed before it was called, and every other one pushed
      before it read the deque empty, has been performed once and signalled or deleted, whatever is added meanwhile. */
  lemma WaitSound(run: seq<State>, i: nat, v: nat, n: Job)
    requires IsRun(run) && i < |run| && v in run[i].waiters && run[i].waiters[v].VReturn?
    requires n < run[i].waiters[v].since || n < run[i].waiters[v].m
    ensures n in run[i].finished && multiset(run[i].log)[n] == 1
  {
    RunInv(run, i);
    var s := run[i];
    assert Knows(s.waiters[v], s.pushed, s.popped, s.runner, s.finished, |s.workers|);
    assert n in s.runner;
  }

  /** Jobs leave the deque in the order they were pushed and none is performed twice, lost or made up. */
  lemma EachJobOnce(run: seq<State>, i: nat, n: Job)
    requires IsRun(run) && i < |run|
    ensures var s := run[i];
            && multiset(s.log)[n] <= 1
            && (n in s.finished ==> multiset(s.log)[n] == 1)
            && (n < s.pushed <==> n in s.deque || n in s.runner)
            && !(n in s.deque && n in s.runner)
            && (n in s.runner && n !in s.finished ==>
                  s.runner[n] < |s.workers| && s.workers[s.runner[n]].HasJob() && s.workers[s.runner[n]].n == n)
            && (n in s.log ==> n in s.runner)
  {
    RunInv(run, i);
    var s := run[i];
    if s.popped <= n < s.pushed {
      assert s.deque[n - s.popped] == n;
    }
    if n !in s.log {
      assert multiset(s.log)[n] == 0;
    }
  }

  /** Work is never stranded: before quit, while some worker sleeps, there are at most as many jobs in the deque as
      notifies still to come and workers awake; so with no notify to come, a job in the deque has a worker awake. */
  lemma NeverStranded(run: seq<State>, i: nat)
    requires IsRun(run) && i < |run| && !run[i].quit
    ensures var s := run[i];
            && (Asleep(s.workers) != {} ==> |s.deque| <= |Pending(s.adders)| + |s.workers| - |Asleep(s.workers)|)
            && (s.deque != [] && |s.workers| > 0 && Pending(s.adders) == {} ==>
                  exists w :: 0 <= w < |s.workers| && !s.workers[w].WAsleep?)
  {
    RunInv(run, i);
    hide Locks, Jobs, Called, NotReady, Awaits, Quits;
    SomeAwake(run[i].workers);
  }

  lemma SomeAwake(workers: seq<WPc>)
    ensures |Asleep(workers)| < |workers| ==> exists w :: 0 <= w < |workers| && !workers[w].WAsleep?
  {
    if forall w :: 0 <= w < |workers| ==> workers[w].WAsleep? {
      assert Asleep(workers) == Below(|workers|);
    }
  }

  /** dispatch_queue_wait takes the lock only to find that it must poll again. */
  predicate PollsInVain(s: State, ev: Event) {
    ev.Awaiting? && ev.v in s.waiters && s.waiters[ev.v].VLock? && s.deque != []
  }

  /** Goes on with something begun; neither a spurious wake-up nor a vain poll counts. */
  predicate Continues(s: State, ev: Event) {
    && (ev.Adding? || ev.NotifyOne? || ev.NotifyNone? || ev.Awaiting? || ev.Deleting? || ev.Work?)
    && !PollsInVain(s, ev)
  }

  ghost predicate CanContinue(s: State) {
    exists ev :: Continues(s, ev) && Enabled(s, ev)
  }

  /** Whoever holds the lock can go on. */
  lemma HolderContinues(s: State)
    requires Inv(s) && !s.lock.Nobody?
    ensures CanContinue(s)
  {
    match s.lock
    case Worker(w) => assert Enabled(s, Work(w));
    case Adder(a) => assert Enabled(s, Adding(a));
    case Waiter(v) => assert Enabled(s, Awaiting(v));
    case Deleter => assert Enabled(s, Deleting);
  }

  lemma AwakeContinues(s: State, w: nat)
    requires Inv(s) && w < |s.workers| && !s.workers[w].WAsleep? && !s.workers[w].WExit?
    ensures CanContinue(s)
  {
    if s.lock.Nobody? {
      assert Enabled(s, Work(w));
    } else {
      HolderContinues(s);
    }
  }

  lemma PendingContinues(s: State, a: nat)
    requires Inv(s) && a in Pending(s.adders)
    ensures CanContinue(s)
  {
    if s.adders[a].ANotify? {
      if w :| 0 <= w < |s.workers| && s.workers[w].WAsleep? {
        assert Enabled(s, NotifyOne(a, w));
      } else {
        assert Enabled(s, NotifyNone(a));
      }
    } else {
      assert Enabled(s, Adding(a));
    }
  }

  /** No deadlock: with a job in the deque and a worker to do it, some thread can go on. */
  lemma JobsGetDone(run: seq<State>, i: nat)
    requires IsRun(run) && i < |run| && !run[i].quit && run[i].deque != [] && |run[i].workers| > 0
    ensures CanContinue(run[i])
  {
    RunInv(run, i);
    var s := run[i];
    NeverStranded(run, i);
    if a :| a in Pending(s.adders) {
      PendingContinues(s, a);
    } else {
      assert Pending(s.adders) == {};
      var w :| 0 <= w < |s.workers| && !s.workers[w].WAsleep?;
      NotExited(s, w);
      AwakeContinues(s, w);
    }
  }

  lemma NotExited(s: State, w: nat)
    requires Quits(s.workers, s.deleter, s.quit) && !s.quit && w < |s.workers|
    ensures !s.workers[w].WExit?
  {
  }

  /** No deadlock in a delete: once begun, some thread can go on until all workers have exited and been joined,
      because nobody sleeps through the quit flag. */
  lemma DeleteCompletes(run: seq<State>, i: nat)
    requires IsRun(run) && i < |run| && !run[i].deleter.DIdle?
    ensures !run[i].deleter.DDone? ==> CanContinue(run[i])
    ensures run[i].deleter.DDone? ==> forall w :: 0 <= w < |run[i].workers| ==> run[i].workers[w].WExit?
  {
    RunInv(run, i);
    var s := run[i];
    if s.deleter.DLock? && !s.lock.Nobody? {
      HolderContinues(s);
    } else if s.deleter.DJoin? && s.deleter.i < |s.workers| && !s.workers[s.deleter.i].WExit? {
      AwakeContinues(s, s.deleter.i);
    } else if !s.deleter.DDone? {
      assert Enabled(s, Deleting);
    }
  }

  lemma QuitStopsWorker(s: State, w: nat)
    requires Quits(s.workers, s.deleter, s.quit) && s.quit && CanWork(s, w)
    ensures WorkStep(s, w).quit && WorkStep(s, w).popped == s.popped
  {
    assert !s.workers[w].WReset? && !s.workers[w].WPop?;
    hide Quits, LoopStep, JobStep;
    if s.workers[w].HasJob() {
      JobPopsNone(s, w);
    } else {
      LoopPopsNone(s, w);
    }
  }

  lemma LoopPopsNone(s: State, w: nat)
    requires CanWork(s, w) && !s.workers[w].HasJob() && !s.workers[w].WReset? && !s.workers[w].WPop?
    ensures LoopStep(s, w).quit == s.quit && LoopStep(s, w).popped == s.popped
  {
  }

  lemma JobPopsNone(s: State, w: nat)
    requires CanWork(s, w) && s.workers[w].HasJob()
    ensures JobStep(s, w).quit == s.quit && JobStep(s, w).popped == s.popped
  {
  }

  lemma AddingPopsNone(s: State, a: nat)
    requires CanAdding(s, a)
    ensures AddingStep(s, a).quit == s.quit && AddingStep(s, a).popped == s.popped
  {
  }

  lemma AwaitingPopsNone(s: State, v: nat)
    requires CanAwaiting(s, v)
    ensures AwaitingStep(s, v).quit == s.quit && AwaitingStep(s, v).popped == s.popped
  {
  }

  lemma DeletingPopsNone(s: State)
    requires CanDeleting(s)
    ensures (s.quit ==> DeletingStep(s).quit) && DeletingStep(s).popped == s.popped
  {
  }

  lemma QuitStops(s: State, s': State)
    requires Inv(s) && s.quit && Next(s, s')
    ensures s'.quit && s'.popped == s.popped
  {
    hide Locks, Jobs, Called, NotReady, Awaits, Served, Quits;
    hide WorkStep, CanWork, AddingStep, CanAdding, AwaitingStep, CanAwaiting, DeletingStep, CanDeleting;
    var ev :| Enabled(s, ev) && s' == Apply(s, ev);
    match ev
    case Work(w) => QuitStopsWorker(s, w);
    case Adding(a) => AddingPopsNone(s, a);
    case Awaiting(v) => AwaitingPopsNone(s, v);
    case Deleting => DeletingPopsNone(s);
    case _ =>
  }

  /** After the quit flag is set no further job is taken; those left in the deque are dropped. */
  lemma {:induction false} NothingTakenAfterQuit(run: seq<State>, i: nat, j: nat)
    requires IsRun(run) && i <= j < |run| && run[i].quit
    ensures run[j].quit && run[j].popped == run[i].popped
    decreases j
  {
    hide Inv, Next, Init;
    if i < j {
      NothingTakenAfterQuit(run, i, j - 1);
      RunInv(run, j - 1);
      assert Next(run[j - 1], run[j - 1 + 1]);
      QuitStops(run[j - 1], run[j]);
    }
  }
}

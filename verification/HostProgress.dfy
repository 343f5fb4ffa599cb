/** The host dispatcher always gets to the end of what it was given: with nothing new begun, no spurious wake-up and no
    vain poll, every schedule ends, and where it ends nothing is left to do. */
module HostProgress {
  import opened Prelude
  import opened HostModel
  import opened HostInvariant
  import opened HostProof
  import opened HostTheorems

  // ----- two more things every step keeps -----

  /** Past its ready signal and before it takes a task. */
  predicate Signalled(p: WPc) { p.WPred? || p.WAsleep? || p.WWoken? || p.WDecide? || p.WReset? }

  /** A worker waiting for work is ready. */
  ghost predicate Ready(workers: seq<WPc>, ready: seq<nat>) {
    && |ready| == |workers|
    && (forall w :: 0 <= w < |workers| ==> ready[w] <= 1 && (Signalled(workers[w]) ==> ready[w] == 0))
  }

  /** A worker past its wait has a reason to be. */
  ghost predicate Decided(workers: seq<WPc>, deque: seq<Job>, quit: bool) {
    forall w :: 0 <= w < |workers| && workers[w].WDecide? ==> quit || deque != []
  }

  ghost predicate Awake(s: State) {
    Inv(s) && Ready(s.workers, s.ready) && Decided(s.workers, s.deque, s.quit)
  }

  lemma MoveAwake(workers: seq<WPc>, ready: seq<nat>, deque: seq<Job>, quit: bool, w: nat, p: WPc, v: nat)
    requires Ready(workers, ready) && Decided(workers, deque, quit) && w < |workers|
    requires v <= 1 && (Signalled(p) ==> v == 0) && (p.WDecide? ==> quit || deque != [])
    ensures Ready(workers[w := p], ready[w := v]) && Decided(workers[w := p], deque, quit)
  {
  }

  /** How many more steps a worker can take without another job, at most. */
  function WorkerWork(p: WPc, quit: bool): nat {
    match p
    case WStart => 6
    case WTop => 5
    case WPred => 4
    case WAsleep => 0
    case WWoken => 5
    case WDecide => 3
    case WReset => 2
    case WPop => 1
    case WUnlock(_) => 10
    case WRun(_) => 9
    case WFinish(_) => 8
    case WRelock => 7
    case WLoop => if quit then 1 else 6
    case WExit => 0
  }

  /** What a step around the wait changes besides the lock. */
  ghost predicate Loops(s: State, s': State, w: nat)
    requires w < |s.workers| && w < |s.ready|
  {
    && s' == s.(workers := s'.workers, ready := s'.ready, lock := s'.lock)
    && |s'.workers| == |s.workers| && s'.workers == s.workers[w := s'.workers[w]]
    && |s'.ready| == |s.ready| && s'.ready == s.ready[w := s'.ready[w]]
    && s'.ready[w] <= s.ready[w] && (s.workers[w].WTop? && s.ready[w] <= 1 ==> s'.ready[w] == 0)
    && (Signalled(s'.workers[w]) ==> Signalled(s.workers[w]) || s.workers[w].WTop?)
    && (s'.workers[w].WDecide? ==> s.quit || s.deque != [])
    && (WorkerWork(s'.workers[w], s.quit) < WorkerWork(s.workers[w], s.quit) ||
        (s.workers[w].WDecide? && !s.quit && s.deque == []))
  }

  lemma LoopLoops(s: State, w: nat)
    requires CanWork(s, w) && !s.workers[w].HasJob() && !s.workers[w].WReset? && !s.workers[w].WPop?
    ensures Loops(s, LoopStep(s, w), w)
  {
  }

  lemma LoopAwake(s: State, w: nat)
    requires Ready(s.workers, s.ready) && Decided(s.workers, s.deque, s.quit)
    requires CanWork(s, w) && !s.workers[w].HasJob() && !s.workers[w].WReset? && !s.workers[w].WPop?
    ensures var s' := LoopStep(s, w); Ready(s'.workers, s'.ready) && Decided(s'.workers, s'.deque, s'.quit)
  {
    var s' := LoopStep(s, w);
    assert s.ready[w] <= 1 && (Signalled(s.workers[w]) ==> s.ready[w] == 0);
    hide Ready, Decided, LoopStep;
    LoopLoops(s, w);
    MoveAwake(s.workers, s.ready, s.deque, s.quit, w, s'.workers[w], s'.ready[w]);
  }

  lemma PopAwake(workers: seq<WPc>, deque: seq<Job>, quit: bool, w: nat, p: WPc)
    requires w < |workers| && !p.WDecide? && deque != []
    requires forall u :: 0 <= u < |workers| && u != w ==> !workers[u].WDecide?
    ensures Decided(workers[w := p], deque[1..], quit)
  {
  }

  lemma JobAwake(s: State, w: nat)
    requires Ready(s.workers, s.ready) && Decided(s.workers, s.deque, s.quit)
    requires Locks(s.lock, s.workers, s.adders, s.waiters, s.deleter)
    requires CanWork(s, w) && (s.workers[w].HasJob() || s.workers[w].WReset? || s.workers[w].WPop?)
    ensures var s' := JobStep(s, w); Ready(s'.workers, s'.ready) && Decided(s'.workers, s'.deque, s'.quit)
  {
    var s' := JobStep(s, w);
    assert s.ready[w] <= 1;
    assert s.ready[w := s.ready[w]] == s.ready;
    hide Ready, Decided, Locks;
    MoveAwake(s.workers, s.ready, s.deque, s.quit, w, s'.workers[w], s'.ready[w]);
    if s.workers[w].WPop? {
      OthersUndecided(s, w);
      PopAwake(s.workers, s.deque, s.quit, w, s'.workers[w]);
    }
  }

  lemma OthersUndecided(s: State, w: nat)
    requires Locks(s.lock, s.workers, s.adders, s.waiters, s.deleter) && w < |s.workers| && s.workers[w].Locked()
    ensures forall u :: 0 <= u < |s.workers| && u != w ==> !s.workers[u].WDecide?
  {
  }

  lemma WakeAwake(workers: seq<WPc>, ready: seq<nat>, deque: seq<Job>, quit: bool, w: nat)
    requires Ready(workers, ready) && Decided(workers, deque, quit) && w < |workers| && workers[w].WAsleep?
    ensures Ready(workers[w := WWoken], ready) && Decided(workers[w := WWoken], deque, quit)
  {
  }

  lemma DeletingAwake(s: State)
    requires Ready(s.workers, s.ready) && Decided(s.workers, s.deque, s.quit) && CanDeleting(s)
    ensures var s' := DeletingStep(s); Ready(s'.workers, s'.ready) && Decided(s'.workers, s'.deque, s'.quit)
  {
    WakeAllAwake(s.workers, s.ready, s.deque, s.quit);
    hide Ready, WakeAll;
  }

  lemma WakeAllAwake(workers: seq<WPc>, ready: seq<nat>, deque: seq<Job>, quit: bool)
    requires Ready(workers, ready) && Decided(workers, deque, quit)
    ensures Ready(WakeAll(workers), ready) && Decided(WakeAll(workers), deque, quit)
  {
  }

  lemma AddingAwake(s: State, a: nat)
    requires CanAdding(s, a)
    ensures var s' := AddingStep(s, a);
            s'.workers == s.workers && s'.ready == s.ready && s'.quit == s.quit && |s'.deque| >= |s.deque|
  {
  }

  lemma AwaitingAwake(s: State, v: nat)
    requires CanAwaiting(s, v)
    ensures var s' := AwaitingStep(s, v);
            s'.workers == s.workers && s'.ready == s.ready && s'.quit == s.quit && s'.deque == s.deque
  {
  }

  lemma StepAwake(s: State, ev: Event)
    requires Awake(s) && Enabled(s, ev)
    ensures Awake(Apply(s, ev))
  {
    StepInv(s, ev);
    hide Locks, Jobs, Called, NotReady, Awaits, Served, Quits, Ready;
    hide JobStep, LoopStep, CanWork, AddingStep, CanAdding, AwaitingStep, CanAwaiting, DeletingStep, CanDeleting;
    match ev
    case Adding(a) => AddingAwake(s, a);
    case NotifyOne(_, w) => WakeAwake(s.workers, s.ready, s.deque, s.quit, w);
    case Awaiting(v) => AwaitingAwake(s, v);
    case Deleting => DeletingAwake(s);
    case Work(w) => WorkAwake(s, w);
    case Spurious(w) => WakeAwake(s.workers, s.ready, s.deque, s.quit, w);
    case _ =>
  }

  lemma WorkAwake(s: State, w: nat)
    requires Awake(s) && CanWork(s, w)
    ensures var s' := WorkStep(s, w); Ready(s'.workers, s'.ready) && Decided(s'.workers, s'.deque, s'.quit)
  {
    hide Locks, Jobs, Called, NotReady, Awaits, Served, Quits, Ready, Decided, JobStep, LoopStep;
    if s.workers[w].HasJob() || s.workers[w].WReset? || s.workers[w].WPop? {
      JobAwake(s, w);
    } else {
      LoopAwake(s, w);
    }
  }

  lemma {:induction false} RunAwake(run: seq<State>, i: nat)
    requires IsRun(run) && i < |run|
    ensures Awake(run[i])
  {
    if i == 0 {
      InitInv(run[0]);
    } else {
      hide Awake, Init, Enabled, Apply;
      RunAwake(run, i - 1);
      assert Next(run[i - 1], run[i - 1 + 1]);
      var ev :| Enabled(run[i - 1], ev) && run[i] == Apply(run[i - 1], ev);
      StepAwake(run[i - 1], ev);
    }
  }

  // ----- where nothing can go on, nothing is left to do -----

  /** No thread is inside task_add, and each worker sleeps or has exited. */
  ghost predicate AtRest(s: State) {
    && s.lock.Nobody?
    && (forall a :: a in s.adders ==> s.adders[a].AIdle?)
    && (forall w :: 0 <= w < |s.workers| ==> s.workers[w].WAsleep? || s.workers[w].WExit?)
  }

  lemma StuckAtRest(s: State)
    requires Inv(s) && !CanContinue(s)
    ensures AtRest(s)
  {
    hide Inv, CanContinue;
    if !s.lock.Nobody? {
      HolderContinues(s);
    }
    forall w | 0 <= w < |s.workers| ensures s.workers[w].WAsleep? || s.workers[w].WExit? {
      if !s.workers[w].WAsleep? && !s.workers[w].WExit? {
        AwakeContinues(s, w);
      }
    }
    forall a | a in s.adders ensures s.adders[a].AIdle? {
      if !s.adders[a].AIdle? {
        AdderContinues(s, a);
      }
    }
  }

  lemma AdderContinues(s: State, a: nat)
    requires Inv(s) && s.lock.Nobody? && a in s.adders && !s.adders[a].AIdle?
    ensures CanContinue(s)
  {
    if s.adders[a].ALock? {
      assert Continues(s, Adding(a)) && Enabled(s, Adding(a));
    } else {
      hide Jobs, Called, NotReady, Awaits, Served, Quits;
      assert a in Pending(s.adders);
      PendingContinues(s, a);
    }
  }

  lemma WaiterContinues(s: State, v: nat)
    requires Ready(s.workers, s.ready) && s.lock.Nobody? && s.deque == [] && v in s.waiters && !s.waiters[v].VIdle?
    requires forall w :: 0 <= w < |s.workers| ==> s.workers[w].WAsleep?
    ensures CanContinue(s)
  {
    assert Continues(s, Awaiting(v)) && Enabled(s, Awaiting(v));
  }

  lemma RestServed(s: State)
    requires Inv(s) && AtRest(s) && !s.quit && |s.workers| > 0
    ensures s.deque == [] && forall w :: 0 <= w < |s.workers| ==> s.workers[w].WAsleep?
  {
    assert Asleep(s.workers) == Below(|s.workers|);
    assert Pending(s.adders) == {};
    hide Locks, Jobs, Called, NotReady, Awaits;
    assert 0 in Asleep(s.workers);
  }

  lemma RestFinished(s: State, n: Job)
    requires Jobs(s.workers, s.deque, s.pushed, s.popped, s.runner, s.finished) && AtRest(s) && s.deque == []
    requires Called(s.workers, s.runner, s.finished, s.log) && n < s.pushed
    ensures n in s.finished && multiset(s.log)[n] == 1
  {
    assert n in s.runner;
  }

  lemma DeleterContinues(s: State)
    requires Quits(s.workers, s.deleter, s.quit) && AtRest(s) && !s.deleter.DIdle? && !s.deleter.DDone?
    ensures CanContinue(s)
  {
    assert Continues(s, Deleting) && Enabled(s, Deleting);
  }

  /** Nothing can go on only when everything is over. Before quit: every job pushed has been performed once and
      finished,
      every task_add and every dispatch_queue_wait has returned, and no delete was begun. After quit: the delete is done
      and every worker has exited. */
  lemma StuckMeansDone(run: seq<State>, i: nat)
    requires IsRun(run) && i < |run| && |run[i].workers| > 0 && !CanContinue(run[i])
    ensures var s := run[i];
            && (forall a :: a in s.adders ==> s.adders[a].AIdle?)
            && (!s.quit ==>
                  && s.deque == [] && s.deleter.DIdle?
                  && (forall n: Job :: n < s.pushed ==> n in s.finished && multiset(s.log)[n] == 1)
                  && (forall v :: v in s.waiters ==> s.waiters[v].VIdle?))
            && (s.quit ==> s.deleter.DDone? && forall w :: 0 <= w < |s.workers| ==> s.workers[w].WExit?)
  {
    RunAwake(run, i);
    var s := run[i];
    StuckAtRest(s);
    hide Locks, Jobs, Called, NotReady, Awaits, Served, Quits, Ready, Decided, CanContinue;
    if !s.deleter.DIdle? && !s.deleter.DDone? {
      DeleterContinues(s);
    }
    QuitDeleter(s);
    if !s.quit {
      RestServed(s);
      forall n: Job | n < s.pushed ensures n in s.finished && multiset(s.log)[n] == 1 { RestFinished(s, n); }
      forall v | v in s.waiters ensures s.waiters[v].VIdle? {
        if !s.waiters[v].VIdle? { WaiterContinues(s, v); }
      }
    }
  }

  lemma QuitDeleter(s: State)
    requires Quits(s.workers, s.deleter, s.quit)
    ensures s.quit ==> !s.deleter.DIdle?
    ensures s.deleter.DDone? ==> s.quit && forall w :: 0 <= w < |s.workers| ==> s.workers[w].WExit?
  {
  }

  // ----- nothing goes on for ever -----

  function WorkersWork(workers: seq<WPc>, quit: bool): nat {
    if workers == [] then 0 else WorkerWork(workers[0], quit) + WorkersWork(workers[1..], quit)
  }

  lemma {:induction false} WorkersWorkUpdate(workers: seq<WPc>, quit: bool, w: nat, p: WPc)
    requires w < |workers|
    ensures WorkersWork(workers[w := p], quit) ==
            WorkersWork(workers, quit) - WorkerWork(workers[w], quit) + WorkerWork(p, quit)
  {
    if w == 0 {
      assert workers[w := p][1..] == workers[1..];
    } else {
      WorkersWorkUpdate(workers[1..], quit, w - 1, p);
      assert workers[w := p][1..] == workers[1..][w - 1 := p];
    }
  }

  lemma {:induction false} QuitLessWork(workers: seq<WPc>, quit: bool)
    ensures WorkersWork(workers, true) <= WorkersWork(workers, quit)
  {
    if workers != [] {
      QuitLessWork(workers[1..], quit);
    }
  }

  lemma {:induction false} WakeAllWork(workers: seq<WPc>, quit: bool)
    ensures WorkersWork(WakeAll(workers), quit) <= WorkersWork(workers, quit) + 5 * |workers|
  {
    if workers != [] {
      WakeAllWork(workers[1..], quit);
      assert WakeAll(workers)[1..] == WakeAll(workers[1..]);
    }
  }

  function AdderWork(p: APc): nat {
    match p
    case AIdle => 0
    case ALock => 19
    case APush => 18
    case AUnlock => 7
    case ANotify => 6
  }

  /** n is the number of workers; empty says what a read of the deque would find. */
  function WaiterWork(p: VPc, n: nat, empty: bool): nat {
    match p
    case VIdle => 0
    case VLock(_) => n + 5
    case VRead(_) => if empty then n + 4 else n + 7
    case VUnlock(_, found, _) => if found then n + 3 else n + 6
    case VScan(_, i, _) => if i < n then 2 + n - i else 2
    case VReturn(_, _) => 1
  }

  function DeleterWork(p: DPc, n: nat): nat {
    match p
    case DIdle => 0
    case DLock => 6 * n + 5
    case DSet => 6 * n + 4
    case DUnlock => 6 * n + 3
    case DNotify => 6 * n + 2
    case DJoin(i) => if i < n then 1 + n - i else 1
    case DDone => 0
  }

  function AdderWorks(adders: map<nat, APc>): map<nat, nat> {
    map a | a in adders :: AdderWork(adders[a])
  }

  function WaiterWorks(waiters: map<nat, VPc>, n: nat, empty: bool): map<nat, nat> {
    map v | v in waiters :: WaiterWork(waiters[v], n, empty)
  }

  /** An upper bound on the steps that what has begun can still take. */
  ghost function Work(s: State): nat {
    WorkersWork(s.workers, s.quit) + 10 * |s.deque| + Total(AdderWorks(s.adders))
    + Total(WaiterWorks(s.waiters, |s.workers|, s.deque == [])) + DeleterWork(s.deleter, |s.workers|)
  }

  lemma AdderUpdate(adders: map<nat, APc>, a: nat, p: APc)
    requires a in adders
    ensures Total(AdderWorks(adders[a := p])) == Total(AdderWorks(adders)) - AdderWork(adders[a]) + AdderWork(p)
  {
    assert AdderWorks(adders[a := p]) == AdderWorks(adders)[a := AdderWork(p)];
    TotalUpdate(AdderWorks(adders), a, AdderWork(p));
  }

  lemma WaiterUpdate(waiters: map<nat, VPc>, n: nat, empty: bool, v: nat, p: VPc)
    requires v in waiters
    ensures Total(WaiterWorks(waiters[v := p], n, empty)) ==
            Total(WaiterWorks(waiters, n, empty)) - WaiterWork(waiters[v], n, empty) + WaiterWork(p, n, empty)
  {
    assert WaiterWorks(waiters[v := p], n, empty) == WaiterWorks(waiters, n, empty)[v := WaiterWork(p, n, empty)];
    TotalUpdate(WaiterWorks(waiters, n, empty), v, WaiterWork(p, n, empty));
  }

  /** While someone else holds the lock no waiter is about to read the deque, so its contents do not matter. */
  lemma NobodyReads(s: State, empty: bool)
    requires Locks(s.lock, s.workers, s.adders, s.waiters, s.deleter) && !s.lock.Waiter?
    ensures WaiterWorks(s.waiters, |s.workers|, empty) == WaiterWorks(s.waiters, |s.workers|, s.deque == [])
  {
    assert forall v :: v in s.waiters ==> !s.waiters[v].VRead?;
  }

  lemma WorkerMoves(s: State, s': State, w: nat)
    requires w < |s.workers| == |s'.workers| && s'.workers == s.workers[w := s'.workers[w]]
    requires s'.quit == s.quit && s'.adders == s.adders && s'.waiters == s.waiters && s'.deleter == s.deleter
    requires (s'.deque == []) == (s.deque == []) ||
             WaiterWorks(s.waiters, |s.workers|, s'.deque == []) == WaiterWorks(s.waiters, |s.workers|, s.deque == [])
    requires WorkerWork(s'.workers[w], s.quit) + 10 * |s'.deque| < WorkerWork(s.workers[w], s.quit) + 10 * |s.deque|
    ensures Work(s') < Work(s)
  {
    hide Total, AdderWorks, WaiterWorks, WorkerWork;
    WorkersWorkUpdate(s.workers, s.quit, w, s'.workers[w]);
  }

  lemma LoopWorks(s: State, w: nat)
    requires CanWork(s, w) && !s.workers[w].HasJob() && !s.workers[w].WReset? && !s.workers[w].WPop?
    requires Decided(s.workers, s.deque, s.quit)
    ensures Work(LoopStep(s, w)) < Work(s)
  {
    hide Work;
    assert s.workers[w].WDecide? ==> s.quit || s.deque != [];
    hide Decided, LoopStep, WorkerWork;
    LoopLoops(s, w);
    WorkerMoves(s, LoopStep(s, w), w);
  }

  lemma PopWorks(s: State, w: nat)
    requires CanWork(s, w) && s.workers[w].WPop? && Locks(s.lock, s.workers, s.adders, s.waiters, s.deleter)
    ensures Work(JobStep(s, w)) < Work(s)
  {
    hide Work;
    assert s.lock == Worker(w);
    NobodyReads(s, s.deque[1..] == []);
    hide Locks, WaiterWorks;
    WorkerMoves(s, JobStep(s, w), w);
  }

  lemma JobWorks(s: State, w: nat)
    requires CanWork(s, w) && (s.workers[w].HasJob() || s.workers[w].WReset? || s.workers[w].WPop?)
    requires Locks(s.lock, s.workers, s.adders, s.waiters, s.deleter)
    ensures Work(JobStep(s, w)) < Work(s)
  {
    hide Work, Locks, WaiterWorks;
    if s.workers[w].WPop? {
      PopWorks(s, w);
    } else {
      WorkerMoves(s, JobStep(s, w), w);
    }
  }

  lemma AddingWorks(s: State, a: nat)
    requires CanAdding(s, a) && Locks(s.lock, s.workers, s.adders, s.waiters, s.deleter)
    ensures Work(AddingStep(s, a)) < Work(s)
  {
    AdderUpdate(s.adders, a, AddingStep(s, a).adders[a]);
    if s.adders[a].APush? {
      assert s.lock == Adder(a);
      NobodyReads(s, false);
    }
    hide WorkersWork, Total, AdderWorks, WaiterWorks, Locks;
  }

  lemma NotifyOneWorks(s: State, a: nat, w: nat)
    requires Enabled(s, NotifyOne(a, w))
    ensures Work(Apply(s, NotifyOne(a, w))) < Work(s)
  {
    AdderUpdate(s.adders, a, AIdle);
    WorkersWorkUpdate(s.workers, s.quit, w, WWoken);
    hide WorkersWork, Total, AdderWorks, WaiterWorks;
  }

  lemma NotifyNoneWorks(s: State, a: nat)
    requires Enabled(s, NotifyNone(a))
    ensures Work(Apply(s, NotifyNone(a))) < Work(s)
  {
    AdderUpdate(s.adders, a, AIdle);
    hide WorkersWork, Total, AdderWorks, WaiterWorks;
  }

  lemma WaiterMoves(s: State, s': State, v: nat)
    requires v in s.waiters && v in s'.waiters && s'.waiters == s.waiters[v := s'.waiters[v]]
    requires s'.workers == s.workers && s'.quit == s.quit && s'.adders == s.adders && s'.deleter == s.deleter
    requires s'.deque == s.deque
    requires WaiterWork(s'.waiters[v], |s.workers|, s.deque == []) < WaiterWork(s.waiters[v], |s.workers|,
                                                                                s.deque == [])
    ensures Work(s') < Work(s)
  {
    hide WorkersWork, Total, AdderWorks, WaiterWorks, WaiterWork;
    WaiterUpdate(s.waiters, |s.workers|, s.deque == [], v, s'.waiters[v]);
  }

  lemma AwaitingWorks(s: State, v: nat)
    requires CanAwaiting(s, v) && |s.ready| == |s.workers| && !PollsInVain(s, Awaiting(v))
    ensures Work(AwaitingStep(s, v)) < Work(s)
  {
    hide Work;
    WaiterMoves(s, AwaitingStep(s, v), v);
  }

  lemma DeletingWorks(s: State)
    requires CanDeleting(s)
    ensures Work(DeletingStep(s)) < Work(s)
  {
    QuitLessWork(s.workers, s.quit);
    WakeAllWork(s.workers, s.quit);
    hide WorkersWork, Total, AdderWorks, WaiterWorks, WakeAll;
  }

  /** Every step that continues something uses up work. */
  lemma WorkDecreases(s: State, ev: Event)
    requires Awake(s) && Enabled(s, ev) && Continues(s, ev)
    ensures Work(Apply(s, ev)) < Work(s)
  {
    hide Work, Locks, Jobs, Called, NotReady, Awaits, Served, Quits, Decided;
    match ev
    case Work(w) =>
      if s.workers[w].HasJob() || s.workers[w].WReset? || s.workers[w].WPop? {
        JobWorks(s, w);
      } else {
        LoopWorks(s, w);
      }
    case Adding(a) => AddingWorks(s, a);
    case NotifyOne(a, w) => NotifyOneWorks(s, a, w);
    case NotifyNone(a) => NotifyNoneWorks(s, a);
    case Awaiting(v) => AwaitingWorks(s, v);
    case Deleting => DeletingWorks(s);
  }

  ghost predicate Continued(s: State, s': State) {
    exists ev :: Continues(s, ev) && Enabled(s, ev) && s' == Apply(s, ev)
  }

  ghost predicate ContinuesOnly(states: seq<State>) {
    forall i :: 0 <= i < |states| - 1 ==> Continued(states[i], states[i + 1])
  }

  lemma ContinuedWorks(s: State, s': State)
    requires Awake(s) && Continued(s, s')
    ensures Awake(s') && Work(s') < Work(s)
  {
    hide Awake, Enabled, Apply, Work;
    var ev :| Continues(s, ev) && Enabled(s, ev) && s' == Apply(s, ev);
    StepAwake(s, ev);
    WorkDecreases(s, ev);
  }

  lemma {:induction false} ScheduleEnds(states: seq<State>)
    requires |states| > 0 && Awake(states[0]) && ContinuesOnly(states)
    ensures |states| - 1 <= Work(states[0])
    decreases |states|
  {
    hide Awake, Work, Continued;
    if |states| > 1 {
      var rest := states[1..];
      forall i | 0 <= i < |rest| - 1
        ensures Continued(rest[i], rest[i + 1])
      {
        assert Continued(states[i + 1], states[i + 1 + 1]);
      }
      ContinuedWorks(states[0], states[0 + 1]);
      ScheduleEnds(rest);
    }
  }

  /** From any state of a run, with nothing new begun, no spurious wake-up and no vain poll, at most Work(s) steps
      follow,
      whatever the schedule. */
  lemma RunsEnd(run: seq<State>, i: nat, states: seq<State>)
    requires IsRun(run) && i < |run| && |states| > 0 && states[0] == run[i] && ContinuesOnly(states)
    ensures |states| - 1 <= Work(run[i])
  {
    hide Awake, Work, Continued;
    RunAwake(run, i);
    ScheduleEnds(states);
  }
}

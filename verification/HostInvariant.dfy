/** What every step of the host dispatcher keeps. Each part of the invariant names only the state it is about. */
module HostInvariant {
  import opened Prelude
  import opened HostModel

  predicate AdderLocked(p: APc) { p.APush? || p.AUnlock? }

  predicate WaiterLocked(p: VPc) { p.VRead? || p.VUnlock? }

  predicate DeleterLocked(p: DPc) { p.DSet? || p.DUnlock? }

  /** The lock is held by exactly the thread whose program counter says so. */
  ghost predicate Locks(lock: Holder, workers: seq<WPc>, adders: map<nat, APc>, waiters: map<nat, VPc>, deleter: DPc) {
    && (forall w :: 0 <= w < |workers| ==> (workers[w].Locked() <==> lock == Worker(w)))
    && (lock.Worker? ==> lock.w < |workers|)
    && (forall a :: a in adders ==> (AdderLocked(adders[a]) <==> lock == Adder(a)))
    && (lock.Adder? ==> lock.a in adders)
    && (forall v :: v in waiters ==> (WaiterLocked(waiters[v]) <==> lock == Waiter(v)))
    && (lock.Waiter? ==> lock.v in waiters)
    && (DeleterLocked(deleter) <==> lock == Deleter)
  }

  /** Jobs are popped in the order they were pushed; a popped job is finished, or held by the worker that popped it. */
  ghost predicate Jobs(workers: seq<WPc>, deque: seq<Job>, pushed: nat, popped: nat, runner: map<Job, nat>,
                       finished: set<Job>) {
    && popped + |deque| == pushed
    && (forall i :: 0 <= i < |deque| ==> deque[i] == popped + i)
    && (forall n: Job :: n in runner <==> n < popped)
    && (forall n :: n in runner ==> runner[n] < |workers|)
    && (forall w :: 0 <= w < |workers| && workers[w].HasJob() ==>
                      workers[w].n in runner && runner[workers[w].n] == w && workers[w].n !in finished)
    && (forall n :: n in runner && n !in finished ==> workers[runner[n]].HasJob() && workers[runner[n]].n == n)
    && (forall n :: n in finished ==> n in runner)
  }

  /** Each job is performed once. */
  ghost predicate Called(workers: seq<WPc>, runner: map<Job, nat>, finished: set<Job>, log: seq<Job>) {
    && (forall n :: n in log ==> n in runner)
    && (forall n :: n in runner ==>
                      multiset(log)[n] == if n in finished
                        || (runner[n] < |workers| && workers[runner[n]] == WFinish(n)) then 1 else 0)
  }

  /** A worker with a job is not ready, and one about to pop finds something. */
  ghost predicate NotReady(workers: seq<WPc>, ready: seq<nat>, deque: seq<Job>) {
    && |ready| == |workers|
    && (forall w :: 0 <= w < |workers| && (workers[w].HasJob() || workers[w].WPop?) ==> ready[w] > 0)
    && (forall w :: 0 <= w < |workers| && (workers[w].WReset? || workers[w].WPop?) ==> deque != [])
  }

  /** The first m jobs are all popped, and those unfinished are with workers from number i on. */
  ghost predicate Covered(m: nat, i: nat, popped: nat, runner: map<Job, nat>, finished: set<Job>) {
    m <= popped && forall n :: 0 <= n < m && n in runner && n !in finished ==> runner[n] >= i
  }

  /** What a call of dispatch_queue_wait knows: having read the deque empty, all jobs pushed up to then are popped;
      having scanned up to worker i, no earlier worker still has one of them. */
  ghost predicate Knows(p: VPc, pushed: nat, popped: nat, runner: map<Job, nat>, finished: set<Job>, count: nat) {
    match p
    case VIdle => true
    case VLock(since) => since <= pushed
    case VRead(since) => since <= pushed
    case VUnlock(since, empty, m) => since <= m <= pushed && (empty ==> m <= popped)
    case VScan(since, i, m) => since <= m && i <= count && Covered(m, i, popped, runner, finished)
    case VReturn(since, m) => since <= m && Covered(m, count, popped, runner, finished)
  }

  ghost predicate Awaits(waiters: map<nat, VPc>, pushed: nat, popped: nat, runner: map<Job, nat>, finished: set<Job>,
                         count: nat) {
    forall v :: v in waiters ==> Knows(waiters[v], pushed, popped, runner, finished, count)
  }

  function Asleep(workers: seq<WPc>): set<nat> {
    set w: nat | w < |workers| && workers[w].WAsleep?
  }

  /** Threads that have pushed a job and not yet notified. */
  function Pending(adders: map<nat, APc>): set<nat> {
    set a | a in adders && (adders[a].AUnlock? || adders[a].ANotify?)
  }

  /** While a worker sleeps, there are at most as many jobs as notifies to come and workers awake. */
  ghost predicate Served(workers: seq<WPc>, adders: map<nat, APc>, deque: seq<Job>, quit: bool) {
    quit || Asleep(workers) == {} || |deque| <= |Pending(adders)| + |workers| - |Asleep(workers)|
  }

  ghost predicate Quits(workers: seq<WPc>, deleter: DPc, quit: bool) {
    && (quit <==> deleter.DUnlock? || deleter.DNotify? || deleter.DJoin? || deleter.DDone?)
    && (forall w :: 0 <= w < |workers| && workers[w].WExit? ==> quit)
    && (forall w :: 0 <= w < |workers| && (workers[w].WReset? || workers[w].WPop?) ==> !quit)
    && (deleter.DJoin? || deleter.DDone? ==> forall w :: 0 <= w < |workers| ==> !workers[w].WAsleep?)
    && (deleter.DJoin? ==> deleter.i <= |workers| && forall w :: 0 <= w < deleter.i ==> workers[w].WExit?)
    && (deleter.DDone? ==> forall w :: 0 <= w < |workers| ==> workers[w].WExit?)
  }

  ghost predicate Inv(s: State) {
    && Locks(s.lock, s.workers, s.adders, s.waiters, s.deleter)
    && Jobs(s.workers, s.deque, s.pushed, s.popped, s.runner, s.finished)
    && Called(s.workers, s.runner, s.finished, s.log)
    && NotReady(s.workers, s.ready, s.deque)
    && Awaits(s.waiters, s.pushed, s.popped, s.runner, s.finished, |s.workers|)
    && Served(s.workers, s.adders, s.deque, s.quit)
    && Quits(s.workers, s.deleter, s.quit)
  }

  // ----- Locks -----

  lemma LocksWorker(lock: Holder, workers: seq<WPc>, adders: map<nat, APc>, waiters: map<nat, VPc>, deleter: DPc,
                    w: nat, p: WPc)
    requires Locks(lock, workers, adders, waiters, deleter) && w < |workers|
    requires p.Locked() && !workers[w].Locked() ==> lock.Nobody?
    ensures Locks(if p.Locked() == workers[w].Locked() then lock else if p.Locked() then Worker(w) else Nobody,
                  workers[w := p], adders, waiters, deleter)
  {
  }

  lemma LocksAdder(lock: Holder, workers: seq<WPc>, adders: map<nat, APc>, waiters: map<nat, VPc>, deleter: DPc, a: nat,
                   p: APc)
    requires Locks(lock, workers, adders, waiters, deleter) && a in adders
    requires AdderLocked(p) && !AdderLocked(adders[a]) ==> lock.Nobody?
    ensures Locks(if AdderLocked(p) == AdderLocked(adders[a]) then lock else if AdderLocked(p) then Adder(a)
                  else Nobody,
                  workers, adders[a := p], waiters, deleter)
  {
  }

  lemma LocksWaiter(lock: Holder, workers: seq<WPc>, adders: map<nat, APc>, waiters: map<nat, VPc>, deleter: DPc,
                    v: nat, p: VPc)
    requires Locks(lock, workers, adders, waiters, deleter) && v in waiters
    requires WaiterLocked(p) && !WaiterLocked(waiters[v]) ==> lock.Nobody?
    ensures Locks(if WaiterLocked(p) == WaiterLocked(waiters[v]) then lock else if WaiterLocked(p) then Waiter(v)
                  else Nobody,
                  workers, adders, waiters[v := p], deleter)
  {
  }

  lemma LocksDeleter(lock: Holder, workers: seq<WPc>, adders: map<nat, APc>, waiters: map<nat, VPc>, deleter: DPc,
                     p: DPc)
    requires Locks(lock, workers, adders, waiters, deleter)
    requires DeleterLocked(p) && !DeleterLocked(deleter) ==> lock.Nobody?
    ensures Locks(if DeleterLocked(p) == DeleterLocked(deleter) then lock else if DeleterLocked(p) then Deleter
                  else Nobody,
                  workers, adders, waiters, p)
  {
  }

  lemma LocksWakeAll(lock: Holder, workers: seq<WPc>, adders: map<nat, APc>, waiters: map<nat, VPc>, deleter: DPc)
    requires Locks(lock, workers, adders, waiters, deleter)
    ensures Locks(lock, WakeAll(workers), adders, waiters, deleter)
  {
  }

  // ----- Jobs, Called -----

  lemma JobsMove(workers: seq<WPc>, deque: seq<Job>, pushed: nat, popped: nat, runner: map<Job, nat>,
                 finished: set<Job>, w: nat, p: WPc)
    requires Jobs(workers, deque, pushed, popped, runner, finished) && w < |workers|
    requires p.HasJob() == workers[w].HasJob() && (p.HasJob() ==> p.n == workers[w].n)
    ensures Jobs(workers[w := p], deque, pushed, popped, runner, finished)
  {
  }

  lemma JobsPush(workers: seq<WPc>, deque: seq<Job>, pushed: nat, popped: nat, runner: map<Job, nat>,
                 finished: set<Job>)
    requires Jobs(workers, deque, pushed, popped, runner, finished)
    ensures Jobs(workers, deque + [pushed], pushed + 1, popped, runner, finished)
  {
  }

  lemma JobsPop(workers: seq<WPc>, deque: seq<Job>, pushed: nat, popped: nat, runner: map<Job, nat>, finished: set<Job>,
                w: nat)
    requires Jobs(workers, deque, pushed, popped, runner, finished) && w < |workers| && !workers[w].HasJob()
             && deque != []
    ensures deque[0] == popped && deque[0] !in runner
    ensures Jobs(workers[w := WUnlock(deque[0])], deque[1..], pushed, popped + 1, runner[deque[0] := w], finished)
  {
  }

  lemma JobsFinish(workers: seq<WPc>, deque: seq<Job>, pushed: nat, popped: nat, runner: map<Job, nat>,
                   finished: set<Job>, w: nat)
    requires Jobs(workers, deque, pushed, popped, runner, finished) && w < |workers| && workers[w].WFinish?
    ensures Jobs(workers[w := WRelock], deque, pushed, popped, runner, finished + {workers[w].n})
  {
  }

  lemma JobsWakeAll(workers: seq<WPc>, deque: seq<Job>, pushed: nat, popped: nat, runner: map<Job, nat>,
                    finished: set<Job>)
    requires Jobs(workers, deque, pushed, popped, runner, finished)
    ensures Jobs(WakeAll(workers), deque, pushed, popped, runner, finished)
  {
  }

  lemma CalledMove(workers: seq<WPc>, runner: map<Job, nat>, finished: set<Job>, log: seq<Job>, w: nat, p: WPc)
    requires Called(workers, runner, finished, log) && w < |workers| && !workers[w].WFinish? && !p.WFinish?
    ensures Called(workers[w := p], runner, finished, log)
  {
  }

  lemma CalledPop(workers: seq<WPc>, runner: map<Job, nat>, finished: set<Job>, log: seq<Job>, w: nat, n: Job)
    requires Called(workers, runner, finished, log) && w < |workers| && n !in runner && n !in finished
             && !workers[w].WFinish?
    ensures Called(workers[w := WUnlock(n)], runner[n := w], finished, log)
  {
  }

  lemma CalledRun(workers: seq<WPc>, runner: map<Job, nat>, finished: set<Job>, log: seq<Job>, w: nat)
    requires Called(workers, runner, finished, log) && w < |workers| && workers[w].WRun?
    requires workers[w].n in runner && runner[workers[w].n] == w && workers[w].n !in finished
    ensures Called(workers[w := WFinish(workers[w].n)], runner, finished, log + [workers[w].n])
  {
  }

  lemma CalledFinish(workers: seq<WPc>, runner: map<Job, nat>, finished: set<Job>, log: seq<Job>, w: nat)
    requires Called(workers, runner, finished, log) && w < |workers| && workers[w].WFinish?
    requires workers[w].n in runner && runner[workers[w].n] == w
    ensures Called(workers[w := WRelock], runner, finished + {workers[w].n}, log)
  {
  }

  lemma CalledWakeAll(workers: seq<WPc>, runner: map<Job, nat>, finished: set<Job>, log: seq<Job>)
    requires Called(workers, runner, finished, log)
    ensures Called(WakeAll(workers), runner, finished, log)
  {
  }

  // ----- NotReady -----

  lemma NotReadyMove(workers: seq<WPc>, ready: seq<nat>, deque: seq<Job>, w: nat, p: WPc, v: nat)
    requires NotReady(workers, ready, deque) && w < |workers|
    requires p.HasJob() || p.WPop? ==> v > 0
    requires p.WReset? || p.WPop? ==> deque != []
    ensures NotReady(workers[w := p], ready[w := v], deque)
  {
  }

  lemma NotReadyPop(workers: seq<WPc>, ready: seq<nat>, deque: seq<Job>, w: nat, n: Job)
    requires NotReady(workers, ready, deque) && w < |workers| && workers[w].WPop?
    requires forall u :: 0 <= u < |workers| && (workers[u].WReset? || workers[u].WPop?) ==> u == w
    ensures NotReady(workers[w := WUnlock(n)], ready, deque[1..])
  {
  }

  lemma NotReadyWakeAll(workers: seq<WPc>, ready: seq<nat>, deque: seq<Job>)
    requires NotReady(workers, ready, deque)
    ensures NotReady(WakeAll(workers), ready, deque)
  {
  }

  // ----- Awaits -----

  lemma AwaitsPush(waiters: map<nat, VPc>, pushed: nat, popped: nat, runner: map<Job, nat>, finished: set<Job>,
                   count: nat)
    requires Awaits(waiters, pushed, popped, runner, finished, count)
    ensures Awaits(waiters, pushed + 1, popped, runner, finished, count)
  {
  }

  lemma AwaitsPop(waiters: map<nat, VPc>, pushed: nat, popped: nat, runner: map<Job, nat>, finished: set<Job>,
                  count: nat, w: nat)
    requires Awaits(waiters, pushed, popped, runner, finished, count)
    ensures Awaits(waiters, pushed, popped + 1, runner[popped := w], finished, count)
  {
  }

  lemma AwaitsFinish(waiters: map<nat, VPc>, pushed: nat, popped: nat, runner: map<Job, nat>, finished: set<Job>,
                     count: nat, n: Job)
    requires Awaits(waiters, pushed, popped, runner, finished, count)
    ensures Awaits(waiters, pushed, popped, runner, finished + {n}, count)
  {
  }

  lemma AwaitsMove(waiters: map<nat, VPc>, pushed: nat, popped: nat, runner: map<Job, nat>, finished: set<Job>,
                   count: nat, v: nat, p: VPc)
    requires Awaits(waiters, pushed, popped, runner, finished, count)
             && Knows(p, pushed, popped, runner, finished, count)
    ensures Awaits(waiters[v := p], pushed, popped, runner, finished, count)
  {
  }

  /** A worker that is ready has no job, so a scan may pass it. */
  lemma ScanPasses(workers: seq<WPc>, ready: seq<nat>, deque: seq<Job>, pushed: nat, popped: nat, runner: map<Job, nat>,
                   finished: set<Job>, m: nat, i: nat)
    requires Jobs(workers, deque, pushed, popped, runner, finished) && NotReady(workers, ready, deque)
    requires Covered(m, i, popped, runner, finished) && i < |ready| && ready[i] == 0
    ensures Covered(m, i + 1, popped, runner, finished)
  {
    forall n | 0 <= n < m && n in runner && n !in finished
      ensures runner[n] >= i + 1
    {
      assert workers[runner[n]].HasJob();
    }
  }

  // ----- Served -----

  lemma ServedMove(workers: seq<WPc>, adders: map<nat, APc>, deque: seq<Job>, quit: bool, w: nat, p: WPc)
    requires Served(workers, adders, deque, quit) && w < |workers| && !workers[w].WAsleep? && !p.WAsleep?
    ensures Served(workers[w := p], adders, deque, quit)
  {
    assert Asleep(workers[w := p]) == Asleep(workers);
  }

  lemma ServedShrink(workers: seq<WPc>, adders: map<nat, APc>, deque: seq<Job>, quit: bool)
    requires Served(workers, adders, deque, quit) && deque != []
    ensures Served(workers, adders, deque[1..], quit)
  {
  }

  lemma ServedSleep(workers: seq<WPc>, adders: map<nat, APc>, quit: bool, w: nat)
    requires w < |workers|
    ensures Served(workers[w := WAsleep], adders, [], quit)
  {
    var workers' := workers[w := WAsleep];
    assert Asleep(workers') <= Below(|workers'|);
    SubsetBound(Asleep(workers'), Below(|workers'|));
  }

  lemma ServedWake(workers: seq<WPc>, adders: map<nat, APc>, deque: seq<Job>, quit: bool, w: nat)
    requires Served(workers, adders, deque, quit) && w < |workers| && workers[w].WAsleep?
    ensures Served(workers[w := WWoken], adders, deque, quit)
  {
    assert w in Asleep(workers);
    assert Asleep(workers[w := WWoken]) == Asleep(workers) - {w};
  }

  lemma ServedNotify(workers: seq<WPc>, adders: map<nat, APc>, deque: seq<Job>, quit: bool, a: nat, w: nat)
    requires Served(workers, adders, deque, quit) && w < |workers| && workers[w].WAsleep?
    requires a in adders && adders[a].ANotify?
    ensures Served(workers[w := WWoken], adders[a := AIdle], deque, quit)
  {
    assert w in Asleep(workers);
    assert Asleep(workers[w := WWoken]) == Asleep(workers) - {w};
    assert a in Pending(adders);
    assert Pending(adders[a := AIdle]) == Pending(adders) - {a};
  }

  lemma ServedPush(workers: seq<WPc>, adders: map<nat, APc>, deque: seq<Job>, quit: bool, a: nat, n: Job)
    requires Served(workers, adders, deque, quit) && a in adders && adders[a].APush?
    ensures Served(workers, adders[a := AUnlock], deque + [n], quit)
  {
    assert a !in Pending(adders);
    assert Pending(adders[a := AUnlock]) == Pending(adders) + {a};
  }

  lemma ServedAdder(workers: seq<WPc>, adders: map<nat, APc>, deque: seq<Job>, quit: bool, a: nat, p: APc)
    requires Served(workers, adders, deque, quit) && a in adders
    requires (p.AUnlock? || p.ANotify?) == (adders[a].AUnlock? || adders[a].ANotify?)
    ensures Served(workers, adders[a := p], deque, quit)
  {
    assert Pending(adders[a := p]) == Pending(adders);
  }

  // ----- Quits -----

  lemma QuitsWorker(workers: seq<WPc>, deleter: DPc, quit: bool, w: nat, p: WPc)
    requires Quits(workers, deleter, quit) && w < |workers| && !workers[w].WExit?
    requires p.WExit? ==> quit
    requires p.WReset? || p.WPop? || p.WAsleep? ==> !quit
    ensures Quits(workers[w := p], deleter, quit)
  {
  }

  lemma QuitsWakeAll(workers: seq<WPc>, quit: bool)
    requires Quits(workers, DNotify, quit)
    ensures Quits(WakeAll(workers), DJoin(0), quit)
  {
  }
}

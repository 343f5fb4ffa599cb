/** queue_delete while the workers wait: condition_variable_terminate walks the waiter list, and each worker that is
    told to stop returns false from queue_receive and leaves, taking its stack frame and the node in it along. */
module QueueShutdown {
  import opened Prelude
  import Ring
  import QueueModel
  import QueueInvariant

  type Tid = QueueModel.Tid

  datatype WPc =
    | Parked     // blocked on its channel, node in the list
    | Told       // got the terminate event, about to return
    | Gone       // returned false and left its loop
  {
    predicate FrameLive() { !Gone? }
  }

  datatype DPc = DGet | DTest | DSend | DNext | DPut | DFree | DDone

  /** chain and told are histories. */
  datatype State = State(
    ring: Ring.Ring,
    mutex: Option<Tid>,
    head: Option<Tid>,
    next: map<Tid, Option<Tid>>,
    spin: bool,
    worker: map<Tid, WPc>,
    deleter: DPc,
    chain: seq<Tid>,
    told: map<Tid, nat>)

  /** All workers are registered waiters and the delete begins. */
  ghost predicate Quiescent(s: State) {
    && s.mutex.None? && !s.spin && s.deleter.DGet?
    && s.next.Keys == s.told.Keys == s.worker.Keys
    && NoDuplicates(s.chain) && QueueInvariant.Linked(s.head, s.next, s.chain)
    && (forall t :: t in s.worker <==> t in s.chain)
    && (forall t :: t in s.worker ==> s.worker[t].Parked? && s.told[t] == 0)
  }

  /** The shutdown state a quiet queue is in. */
  function OfQueue(q: QueueModel.State): State {
    var waiting := set t | t in q.pc && q.pc[t].WaitIn?;
    State.State(q.ring, q.mutex, q.head, map t | t in waiting && t in q.next :: q.next[t], q.spin.Some?,
                map t | t in waiting :: Parked, DGet, q.chain, map t | t in waiting :: 0)
  }

  lemma LinkedOn(head: Option<Tid>, next: map<Tid, Option<Tid>>, next': map<Tid, Option<Tid>>, chain: seq<Tid>)
    requires QueueInvariant.Linked(head, next, chain)
    requires forall t :: t in chain ==> t in next' && (t in next ==> next'[t] == next[t])
    ensures QueueInvariant.Linked(head, next', chain)
    decreases |chain|
  {
    if chain != [] {
      LinkedOn(next[chain[0]], next, next', chain[1..]);
    }
  }

  lemma QuietFacts(q: QueueModel.State)
    requires QueueInvariant.Locks(q) && QueueInvariant.Members(q)
    requires forall t :: t in q.pc ==> q.pc[t].Idle? || q.pc[t].WaitIn?
    ensures q.mutex.None? && q.spin.None? && forall t :: t in q.chain <==> t in q.pc && q.pc[t].WaitIn?
  {
  }

  /** Whenever every thread of a queue is waiting inside an operation or outside the queue, the state is quiescent, and
      its workers are exactly the threads that wait, with their list. */
  lemma QuietQueueIsQuiescent(run: seq<QueueModel.State>, i: nat)
    requires QueueModel.IsRun(run) && i < |run|
    requires forall t :: t in run[i].pc ==> run[i].pc[t].Idle? || run[i].pc[t].WaitIn?
    ensures Quiescent(OfQueue(run[i]))
    ensures var s := OfQueue(run[i]);
            && s.ring == run[i].ring && s.mutex == run[i].mutex && s.head == run[i].head && s.chain == run[i].chain
            && (forall t :: t in s.worker <==> t in run[i].pc && run[i].pc[t].WaitIn?)
            && (forall t :: t in s.worker ==> t in run[i].next && s.next[t] == run[i].next[t])
  {
    hide QueueInvariant.Linked, QueueInvariant.Locks, QueueInvariant.MembersOf, QueueInvariant.Waits,
      QueueInvariant.Fifo;
    QueueInvariant.RunInv(run, i);
    var q := run[i];
    QuietFacts(q);
    LinkedOn(q.head, q.next, OfQueue(q).next, q.chain);
  }

  // ----- with the send and the unlink of a node as one step -----

  datatype Event = Delete | Leave(t: Tid)

  predicate CanDelete(s: State) {
    && !s.deleter.DDone?
    && (s.deleter.DGet? ==> !s.spin)
    && (s.deleter.DSend? ==>
          && s.head.Some? && s.head.value in s.worker && s.head.value in s.next && s.head.value in s.told
          && s.worker[s.head.value].Parked?)
    && !s.deleter.DNext?
  }

  function DeleteStep(s: State): State
    requires CanDelete(s)
  {
    match s.deleter
    case DGet => s.(deleter := DTest, spin := true)
    case DTest => s.(deleter := if s.head.Some? then DSend else DPut)
    case DSend =>
      var w := s.head.value;
      s.(worker := s.worker[w := Told], told := s.told[w := s.told[w] + 1], head := s.next[w],
      chain := if s.chain == [] then [] else s.chain[1..], deleter := DTest)
    case DPut => s.(deleter := DFree, spin := false)
    case DFree => s.(deleter := DDone)
  }

  predicate Enabled(s: State, e: Event) {
    match e
    case Delete => CanDelete(s)
    case Leave(t) => t in s.worker && s.worker[t].Told?
  }

  function Apply(s: State, e: Event): State
    requires Enabled(s, e)
  {
    match e
    case Delete => DeleteStep(s)
    case Leave(t) => s.(worker := s.worker[t := Gone])
  }

  ghost predicate Steps(run: seq<State>) {
    forall i :: 0 <= i < |run| - 1 ==> exists e :: Enabled(run[i], e) && run[i + 1] == Apply(run[i], e)
  }

  ghost predicate Inv(s: State) {
    && s.next.Keys == s.told.Keys == s.worker.Keys
    && NoDuplicates(s.chain) && QueueInvariant.Linked(s.head, s.next, s.chain)
    && (forall t :: t in s.chain ==> t in s.worker)
    && (forall t :: t in s.worker ==> (s.worker[t].Parked? <==> t in s.chain))
    && (forall t :: t in s.worker ==> s.told[t] == if s.worker[t].Parked? then 0 else 1)
    && (s.spin <==> s.deleter.DTest? || s.deleter.DSend? || s.deleter.DPut?)
    && !s.deleter.DNext?
    && (s.deleter.DSend? ==> s.chain != [])
    && (s.deleter.DPut? || s.deleter.DFree? || s.deleter.DDone? ==> s.chain == [])
  }

  lemma StepInv(s: State, e: Event)
    requires Inv(s) && Enabled(s, e)
    ensures Inv(Apply(s, e))
  {
  }

  lemma {:induction false} RunInv(run: seq<State>, i: nat)
    requires |run| > 0 && Quiescent(run[0]) && Steps(run) && i < |run|
    ensures Inv(run[i]) && run[i].ring == run[0].ring && run[i].mutex.None?
  {
    if i > 0 {
      RunInv(run, i - 1);
      var e :| Enabled(run[i - 1], e) && run[i - 1 + 1] == Apply(run[i - 1], e);
      StepInv(run[i - 1], e);
    }
  }

  function ToldAndThere(worker: map<Tid, WPc>): set<Tid> {
    set t | t in worker && worker[t].Told?
  }

  function StepsOf(d: DPc): nat {
    match d
    case DGet => 5
    case DTest => 4
    case DSend => 3
    case DNext => 3
    case DPut => 2
    case DFree => 1
    case DDone => 0
  }

  /** How many steps are left, at most. */
  function Left(s: State): nat {
    StepsOf(s.deleter) + 3 * |s.chain| + |ToldAndThere(s.worker)|
  }

  lemma LeaveDecreases(s: State, t: Tid)
    requires Enabled(s, Leave(t))
    ensures Left(Apply(s, Leave(t))) < Left(s)
  {
    assert t in ToldAndThere(s.worker);
    assert ToldAndThere(s.worker[t := Gone]) == ToldAndThere(s.worker) - {t};
  }

  lemma DeleteDecreases(s: State)
    requires CanDelete(s) && (s.deleter.DSend? ==> s.chain != [])
    ensures Left(DeleteStep(s)) < Left(s)
  {
    if s.deleter.DSend? {
      var w := s.head.value;
      assert ToldAndThere(s.worker[w := Told]) == ToldAndThere(s.worker) + {w};
    }
  }

  lemma LeftDecreases(s: State, e: Event)
    requires Inv(s) && Enabled(s, e)
    ensures Left(Apply(s, e)) < Left(s)
  {
    hide Left;
    match e
    case Leave(t) => LeaveDecreases(s, t);
    case Delete => DeleteDecreases(s);
  }

  /** Clean shutdown from quiescence: whatever the schedule, each worker is told to stop exactly once, and while
      anything
      is left to do some thread can step; as the steps left decrease, every run ends, and it ends with the queue
      deleted and every worker gone. The ring and the mutex are those of the quiet
      queue throughout, as no step of a terminate or of a terminated wait accesses either. */
  lemma CleanShutdown(run: seq<State>, i: nat)
    requires |run| > 0 && Quiescent(run[0]) && Steps(run) && i < |run|
    ensures var s := run[i];
            && (forall t :: t in s.worker ==> t in s.told && s.told[t] <= 1)
            && (forall t :: t in s.worker && !s.worker[t].Parked? ==> s.told[t] == 1)
            && ((exists e :: Enabled(s, e)) <==> !(s.deleter.DDone? && forall t :: t in s.worker ==> s.worker[t].Gone?))
            && (forall e :: Enabled(s, e) ==> Left(Apply(s, e)) < Left(s))
            && s.ring == run[0].ring && s.mutex.None?
  {
    RunInv(run, i);
    var s := run[i];
    forall e | Enabled(s, e) ensures Left(Apply(s, e)) < Left(s) { LeftDecreases(s, e); }
    if !s.deleter.DDone? {
      assert Enabled(s, Delete);
    } else if t :| t in s.worker && !s.worker[t].Gone? {
      assert Enabled(s, Leave(t));
    }
  }

  // ----- as written: the link is read after the send -----

  /** The send alone, and then the read of the node's link. */
  predicate CanSplit(s: State) {
    && (s.deleter.DSend? || s.deleter.DNext?)
    && s.head.Some? && s.head.value in s.worker && s.head.value in s.next && s.head.value in s.told
    && (s.deleter.DSend? ==> s.worker[s.head.value].Parked?)
    && (s.deleter.DNext? ==> s.worker[s.head.value].FrameLive())
  }

  function SplitStep(s: State): State
    requires CanSplit(s)
  {
    var w := s.head.value;
    if s.deleter.DSend? then s.(worker := s.worker[w := Told], told := s.told[w := s.told[w] + 1], deleter := DNext)
    else s.(head := s.next[w], chain := if s.chain == [] then [] else s.chain[1..], deleter := DTest)
  }

  ghost predicate FineStep(s: State, s': State) {
    || (CanSplit(s) && s' == SplitStep(s))
    || (!s.deleter.DSend? && CanDelete(s) && s' == DeleteStep(s))
    || (exists t :: Enabled(s, Leave(t)) && s' == Apply(s, Leave(t)))
  }

  ghost predicate FineRun(run: seq<State>) {
    |run| > 0 && forall i :: 0 <= i < |run| - 1 ==> FineStep(run[i], run[i + 1])
  }

  /** condition_variable_terminate is about to read the link of a node whose frame is gone. */
  predicate DeadRead(s: State) {
    s.deleter.DNext? && s.head.Some? && s.head.value in s.worker && !s.worker[s.head.value].FrameLive()
  }

  ghost predicate CanReadDead(s: State) {
    exists run :: FineRun(run) && run[0] == s && DeadRead(run[|run| - 1])
  }

  lemma {:induction false} EmptyListNeverWalked(run: seq<State>, i: nat)
    requires FineRun(run) && i < |run| && Quiescent(run[0]) && run[0].chain == []
    ensures run[i].head.None? && !run[i].deleter.DSend? && !run[i].deleter.DNext?
  {
    if i > 0 {
      EmptyListNeverWalked(run, i - 1);
      assert FineStep(run[i - 1], run[i - 1 + 1]);
    }
  }

  lemma FirstWaiterLeaves(s: State)
    requires Quiescent(s) && s.chain != []
    ensures CanReadDead(s)
  {
    var w := s.chain[0];
    var s1 := DeleteStep(s);
    var s2 := DeleteStep(s1);
    var s3 := SplitStep(s2);
    var s4 := Apply(s3, Leave(w));
    var run := [s, s1, s2, s3, s4];
    assert FineStep(s, s1) && FineStep(s1, s2) && FineStep(s2, s3);
    assert Enabled(s3, Leave(w));
    assert FineStep(s3, s4);
    assert FineRun(run) && DeadRead(run[|run| - 1]);
  }

  lemma Extended(run: seq<QueueModel.State>, e: QueueModel.Event) returns (run': seq<QueueModel.State>)
    requires QueueModel.IsRun(run) && QueueModel.Enabled(run[|run| - 1], e)
    ensures QueueModel.IsRun(run') && |run'| > 0 && run'[0] == run[0]
    ensures run'[|run'| - 1] == QueueModel.Apply(run[|run| - 1], e)
  {
    hide QueueModel.Init, QueueModel.Apply;
    var s := QueueModel.Apply(run[|run| - 1], e);
    run' := run + [s];
    assert QueueModel.Next(run[|run| - 1], s);
    forall i | 0 <= i < |run'| - 1 ensures QueueModel.Next(run'[i], run'[i + 1]) {
      assert i < |run| - 1 ==> run'[i + 1] == run[i + 1];
    }
  }

  /** A queue with one worker, thread 0, and an empty ring; chain is its waiter list. */
  function Alone(slots: seq<Ring.Item>, mutex: Option<Tid>, spin: Option<Tid>, chain: seq<Tid>, p: QueueModel.Pc,
                 y: QueueModel.Tally): QueueModel.State
    requires 0 < |slots| < Ring.SIZE_T_RANGE
  {
    QueueModel.State.State(Ring.Create(slots), mutex, spin, if chain == [] then None else Some(0), map[0 := None],
                           map[0 := p], chain, [], [], map[0 := y])
  }

  lemma RunToWait(slots: seq<Ring.Item>) returns (run: seq<QueueModel.State>)
    requires 0 < |slots| < Ring.SIZE_T_RANGE
    ensures QueueModel.IsRun(run) && |run| > 0
    ensures run[0] == Alone(slots, None, None, [], QueueModel.Idle, QueueModel.Tally(0, 0, 0, 0))
    ensures run[|run| - 1] ==
            Alone(slots, Some(0), None, [], QueueModel.WaitGet(QueueModel.Receive), QueueModel.Tally(0, 0, 0, 0))
  {
    run := [Alone(slots, None, None, [], QueueModel.Idle, QueueModel.Tally(0, 0, 0, 0))];
    run := Extended(run, QueueModel.Start(0, QueueModel.Receive));
    hide QueueModel.IsRun;
    run := Extended(run, QueueModel.Step(0));
    run := Extended(run, QueueModel.Step(0));
  }

  lemma RunToPush(slots: seq<Ring.Item>) returns (run: seq<QueueModel.State>)
    requires 0 < |slots| < Ring.SIZE_T_RANGE
    ensures QueueModel.IsRun(run) && |run| > 0
    ensures run[0] == Alone(slots, None, None, [], QueueModel.Idle, QueueModel.Tally(0, 0, 0, 0))
    ensures run[|run| - 1] ==
            Alone(slots, Some(0), Some(0), [0], QueueModel.WaitPut(QueueModel.Receive), QueueModel.Tally(1, 0, 0, 0))
  {
    hide QueueModel.IsRun;
    run := RunToWait(slots);
    run := Extended(run, QueueModel.Step(0));
    run := Extended(run, QueueModel.Step(0));
  }

  lemma RunThroughWait(slots: seq<Ring.Item>) returns (run: seq<QueueModel.State>)
    requires 0 < |slots| < Ring.SIZE_T_RANGE
    ensures QueueModel.IsRun(run) && |run| > 0
    ensures run[0] == Alone(slots, None, None, [], QueueModel.Idle, QueueModel.Tally(0, 0, 0, 0))
    ensures run[|run| - 1] ==
            Alone(slots, None, None, [0], QueueModel.WaitIn(QueueModel.Receive), QueueModel.Tally(1, 0, 1, 0))
  {
    hide QueueModel.IsRun;
    run := RunToPush(slots);
    run := Extended(run, QueueModel.Step(0));
    run := Extended(run, QueueModel.Step(0));
  }

  /** Whatever the length of the ring, a run of the queue leads a worker into its wait, from where a delete as
      written can read a dead node. */
  lemma WaitingWorkerReachable(slots: seq<Ring.Item>) returns (run: seq<QueueModel.State>)
    requires 0 < |slots| < Ring.SIZE_T_RANGE
    ensures QueueModel.IsRun(run) && |run[0].ring.slots| == |slots|
    ensures var s := OfQueue(run[|run| - 1]); Quiescent(s) && s.chain == [0] && CanReadDead(s)
  {
    run := RunThroughWait(slots);
    hide CanReadDead, Quiescent;
    QuietQueueIsQuiescent(run, |run| - 1);
    FirstWaiterLeaves(OfQueue(run[|run| - 1]));
  }

  /** As written, the delete can read a node of a frame that no longer exists if and only if a worker is waiting:
      the terminated waiter returns without taking the mutex, so nothing keeps its frame alive. */
  lemma TerminateReadsDeadExactly(s: State)
    requires Quiescent(s)
    ensures CanReadDead(s) <==> s.chain != []
  {
    if s.chain != [] {
      FirstWaiterLeaves(s);
    } else if CanReadDead(s) {
      var run :| FineRun(run) && run[0] == s && DeadRead(run[|run| - 1]);
      EmptyListNeverWalked(run, |run| - 1);
    }
  }
}

/** The queue's promises, over every run of any number of senders and receivers. */
module QueueTheorems {
  import opened Prelude
  import opened Ring
  import opened QueueModel
  import opened QueueInvariant
  import BoundedFifo

  /** No lost wake-up: while the mutex is free, every registered waiter still has reason to wait.
      The list never mixes senders with receivers, not even during a broadcast. */
  lemma NoLostWakeup(run: seq<State>, i: nat)
    requires IsRun(run) && i < |run|
    ensures var s := run[i];
            && (s.mutex.None? ==> forall t :: t in s.pc && s.pc[t].Parked() ==> Blocked(s.ring, s.pc[t].op))
            && (forall t, u :: t in s.pc && u in s.pc && s.pc[t].Parked() && s.pc[u].Parked() ==>
                                 s.pc[t].op.Send? == s.pc[u].op.Send?)
  {
    RunInv(run, i);
  }

  /** Neither the ring nor the record of what went through it has changed. */
  predicate SameQueue(s: State, s': State) {
    s'.ring == s.ring && s'.sent == s.sent && s'.received == s.received
  }

  lemma BodyKeeps(s: State, t: Tid)
    requires BodyReady(s, t)
    ensures SameQueue(s, BodyStep(s, t))
  {
    hide WellFormed, Blocked;
  }

  lemma WaitKeeps(s: State, t: Tid)
    requires WaitReady(s, t)
    ensures SameQueue(s, WaitStep(s, t))
  {
    hide WellFormed;
  }

  lemma CastKeeps(s: State, t: Tid)
    requires CastReady(s, t)
    ensures SameQueue(s, CastStep(s, t))
  {
    hide WellFormed;
  }

  lemma OnlyAccessChanges(s: State, e: Event)
    requires Enabled(s, e) && !(e.Step? && s.pc[e.t].Access?)
    ensures SameQueue(s, Apply(s, e))
  {
    hide WellFormed, AccessStep, BodyStep, WaitStep, CastStep;
    if e.Step? {
      if s.pc[e.t].InBody() {
        BodyKeeps(s, e.t);
      } else if s.pc[e.t].InWait() {
        WaitKeeps(s, e.t);
      } else {
        CastKeeps(s, e.t);
      }
    }
  }

  /** Every step leaves the queue alone or is one operation of a bounded first-in first-out queue. */
  lemma StepRefines(s: State, e: Event)
    requires Inv(s) && Enabled(s, e)
    ensures var s' := Apply(s, e);
            var q, q' := Contents(s.ring), Contents(s'.ring);
            && |s'.ring.slots| == |s.ring.slots|
            && if e.Step? && s.pc[e.t].Access? then
                 (if s.pc[e.t].op.Send?
                  then BoundedFifo.Send(|s.ring.slots|, q, s.pc[e.t].op.item, q')
                  else BoundedFifo.Receive(q, s'.pc[e.t].x, q'))
               else SameQueue(s, s')
  {
    if e.Step? && s.pc[e.t].Access? {
      AccessIsFifo(s.ring, s.pc[e.t].op);
    } else {
      OnlyAccessChanges(s, e);
    }
  }

  lemma {:induction false} LengthConstant(run: seq<State>, i: nat)
    requires IsRun(run) && i < |run|
    ensures |run[i].ring.slots| == |run[0].ring.slots|
  {
    if i > 0 {
      LengthConstant(run, i - 1);
      RunInv(run, i - 1);
      assert Next(run[i - 1], run[i - 1 + 1]);
      var e :| Enabled(run[i - 1], e) && run[i] == Apply(run[i - 1], e);
      StepRefines(run[i - 1], e);
    }
  }

  /** First in, first out: in every state the items received so far, then the ring, are the items sent so far;
      the ring never exceeds its length; and the k-th receive to return hands out the k-th item sent. */
  lemma FirstInFirstOut(run: seq<State>, i: nat)
    requires IsRun(run) && i < |run|
    ensures var s := run[i];
            && s.sent == s.received + Contents(s.ring)
            && |Contents(s.ring)| <= |run[0].ring.slots|
            && (forall t :: t in s.pc && s.pc[t].Return? ==> s.pc[t].k < |s.sent| && s.sent[s.pc[t].k] == s.pc[t].x)
  {
    RunInv(run, i);
    LengthConstant(run, i);
    FlagsAgree(run[i].ring);
    var s := run[i];
    forall t | t in s.pc && s.pc[t].Return?
      ensures s.pc[t].k < |s.sent| && s.sent[s.pc[t].k] == s.pc[t].x
    {
      assert Recorded(s, s.pc[t]);
    }
  }

  /** The branch of queue_send that overwrites the oldest item is never taken. */
  lemma NeverOverwrites(run: seq<State>, i: nat, t: Tid)
    requires IsRun(run) && i < |run| && t in run[i].pc && run[i].pc[t].Access? && run[i].pc[t].op.Send?
    ensures !run[i].ring.full
  {
    RunInv(run, i);
  }

  /** A broadcast only follows pointers to nodes in live frames, and each such access can be made:
      the node it signals is waiting on its channel, the node it unlinks is still inside its wait. */
  lemma LiveNodes(run: seq<State>, i: nat, t: Tid)
    requires IsRun(run) && i < |run| && t in run[i].pc && (run[i].pc[t].CastSend? || run[i].pc[t].CastNext?)
    ensures var s := run[i];
            && s.head.Some? && s.head.value in s.pc && s.head.value != t
            && s.pc[s.head.value].FrameLive()
            && CastReady(s, t)
            && (s.pc[t].CastSend? ==> s.pc[s.head.value].WaitIn?)
            && (s.pc[t].CastNext? ==> s.pc[s.head.value].WaitGot?)
  {
    RunInv(run, i);
  }

  /** Each registration is answered by exactly one wake-up: none is owed once a thread has left its wait. */
  lemma OneWakeupEach(run: seq<State>, i: nat, t: Tid)
    requires IsRun(run) && i < |run| && t in run[i].pc
    ensures WellFormed(run[i])
    ensures run[i].tally[t].registered == run[i].tally[t].woken + if run[i].pc[t].Parked() then 1 else 0
  {
    RunInv(run, i);
  }

  /** At most one thread is between taking and dropping the mutex, the spinlock is only used inside that,
      and a thread outside its operation, or returning from it, holds neither. Each wait gives the mutex up once and
      regains it once: outside its waits a thread has done both as often as it has registered. */
  lemma LockDiscipline(run: seq<State>, i: nat, t: Tid, u: Tid)
    requires IsRun(run) && i < |run| && t in run[i].pc && u in run[i].pc
    ensures var s := run[i];
            && (s.pc[t].HoldsMutex() && s.pc[u].HoldsMutex() ==> t == u)
            && (s.pc[t].HoldsSpin() ==> s.mutex == Some(t))
            && (s.pc[t].Idle? || s.pc[t].Return? || s.pc[t].WaitIn? ==> s.mutex != Some(t) && s.spin != Some(t))
            && (s.pc[t].Check? || s.pc[t].Access? ==> s.mutex == Some(t))
            && WellFormed(s)
            && (var Tally(registered, _, dropped, retaken) := s.tally[t];
                && (registered == dropped + if s.pc[t].Owes() then 1 else 0)
                && (dropped == retaken + if s.pc[t].Away() then 1 else 0)
                && (!s.pc[t].FrameLive() ==> registered == dropped == retaken))
  {
    RunInv(run, i);
  }

  /** The mutex holder is never blocked: not on the spinlock, not on a rendezvous. */
  lemma HolderCanStep(s: State, t: Tid)
    requires Inv(s) && s.mutex == Some(t)
    ensures t in s.pc && Enabled(s, Step(t))
  {
    if s.pc[t].CastSend? || s.pc[t].CastNext? {
      assert s.head == Some(s.chain[0]);
    }
    if s.spin.Some? {
      assert s.pc[s.spin.value].HoldsSpin();
      assert s.pc[s.spin.value].HoldsMutex();
    }
  }

  ghost predicate CanStep(s: State) {
    exists t :: t in s.pc && Enabled(s, Step(t))
  }

  /** Outside every operation, or waiting for something the ring still lacks. */
  predicate AtRest(s: State, t: Tid)
    requires t in s.pc
  {
    s.pc[t].Idle? || (s.pc[t].WaitIn? && Blocked(s.ring, s.pc[t].op))
  }

  lemma BusyCanStep(s: State, t: Tid)
    requires Inv(s) && t in s.pc && !AtRest(s, t)
    ensures CanStep(s)
  {
    if s.mutex.Some? {
      HolderCanStep(s, s.mutex.value);
    } else {
      assert !s.pc[t].HoldsMutex() && !s.pc[t].HoldsSpin();
      assert s.pc[t].WaitIn? ==> t in s.chain;
      assert Enabled(s, Step(t));
    }
  }

  lemma RestBlocked(s: State, t: Tid)
    requires Inv(s) && t in s.pc && AtRest(s, t)
    requires forall u :: u in s.pc ==> AtRest(s, u)
    ensures !Enabled(s, Step(t))
  {
  }

  /** Nothing can move exactly when every thread is outside its operation or waits for what the ring lacks. */
  lemma StuckExactly(run: seq<State>, i: nat)
    requires IsRun(run) && i < |run|
    ensures !CanStep(run[i]) <==> forall t :: t in run[i].pc ==> AtRest(run[i], t)
  {
    RunInv(run, i);
    var s := run[i];
    if t :| t in s.pc && !AtRest(s, t) {
      BusyCanStep(s, t);
    } else {
      forall t | t in s.pc ensures !Enabled(s, Step(t)) { RestBlocked(s, t); }
    }
  }

  /** With a sender and a receiver inside their operations, some thread can always move. */
  lemma DeadlockFree(run: seq<State>, i: nat, t: Tid, u: Tid)
    requires IsRun(run) && i < |run| && t in run[i].pc && u in run[i].pc
    requires !run[i].pc[t].Idle? && run[i].pc[t].op.Send?
    requires !run[i].pc[u].Idle? && run[i].pc[u].op.Receive?
    ensures CanStep(run[i])
  {
    RunInv(run, i);
    if AtRest(run[i], t) {
      BusyCanStep(run[i], u);
    } else {
      BusyCanStep(run[i], t);
    }
  }

  /** How many more steps the mutex holder can take before it drops the mutex, given the list length. */
  function Rank(p: Pc, n: nat): nat {
    match p
    case Check(_) => 3 * n + 6
    case Access(_) => 3 * n + 5
    case CastGet(_, _, _) => 3 * n + 4
    case CastTest(_, _, _) => 3 * n + 3
    case CastSend(_, _, _) => 3 * n + 2
    case CastNext(_, _, _) => 3 * n + 1
    case WaitGet(_) => 4
    case WaitPush(_) => 3
    case WaitPut(_) => 2
    case CastPut(_, _, _) => 2
    case _ => 1
  }

  /** The step dropped the mutex or brought its holder closer to that. */
  ghost predicate Advanced(s: State, s': State, t: Tid)
    requires t in s.pc
  {
    || s'.mutex.None?
    || (s'.mutex == Some(t) && t in s'.pc && Rank(s'.pc[t], |s'.chain|) < Rank(s.pc[t], |s.chain|))
  }

  lemma BodyAdvances(s: State, t: Tid)
    requires s.mutex == Some(t) && BodyReady(s, t) && s.pc[t].HoldsMutex()
    ensures Advanced(s, BodyStep(s, t), t)
  {
  }

  lemma AccessAdvances(s: State, t: Tid)
    requires s.mutex == Some(t) && AccessReady(s, t)
    ensures Advanced(s, AccessStep(s, t), t)
  {
    hide Changed, Moved;
  }

  lemma WaitAdvances(s: State, t: Tid)
    requires s.mutex == Some(t) && WaitReady(s, t) && s.pc[t].HoldsMutex()
    ensures Advanced(s, WaitStep(s, t), t)
  {
  }

  lemma CastAdvances(s: State, t: Tid)
    requires s.mutex == Some(t) && CastReady(s, t) && (s.pc[t].CastNext? ==> s.chain != [])
    ensures Advanced(s, CastStep(s, t), t)
  {
  }

  /** Critical sections are finite: each step of the mutex holder drops the mutex or lowers its rank,
      in which the list length measures the broadcast loop. */
  lemma HolderAdvances(s: State, t: Tid)
    requires Inv(s) && s.mutex == Some(t) && Enabled(s, Step(t))
    ensures Advanced(s, Apply(s, Step(t)), t)
  {
    assert s.pc[t].HoldsMutex() && (s.pc[t].CastNext? ==> s.chain != []);
    if s.pc[t].InBody() {
      BodyAdvances(s, t);
    } else if s.pc[t].Access? {
      AccessAdvances(s, t);
    } else if s.pc[t].InWait() {
      WaitAdvances(s, t);
    } else {
      CastAdvances(s, t);
    }
  }

  /** No step of another thread touches the mutex, the list or the holder. */
  lemma OthersKeepOut(s: State, e: Event, t: Tid)
    requires Locks(s) && Enabled(s, e) && s.mutex == Some(t) && e != Step(t)
    ensures var s' := Apply(s, e);
            t in s'.pc && s'.mutex == s.mutex && s'.chain == s.chain && s'.pc[t] == s.pc[t]
  {
  }
}

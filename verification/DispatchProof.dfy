/** Every step of the dispatcher keeps the invariant, so every run does. */
module DispatchProof {
  import opened Prelude
  import opened DispatchModel
  import opened DispatchInvariant
  import opened DispatchSteps

  // ----- facts drawn from one part of the invariant -----

  lemma TaskAt(s: State, g: GroupId, i: nat)
    requires Placed(s.group, s.place, s.task) && g in s.group && i < |s.group[g].tasks|
    ensures var t := s.group[g].tasks[i];
            && t in s.place && t in s.task && s.place[t] == Place(g, i) && s.task[t].waitable == s.group[g].waitable
            && forall u :: u in s.place && s.place[u] == s.place[t] ==> u == t
  {
  }

  lemma IndexBound(s: State, g: GroupId)
    requires Placed(s.group, s.place, s.task)
    ensures forall t :: t in s.place && s.place[t].group == g ==> g in s.group && s.place[t].index < |s.group[g].tasks|
  {
  }

  lemma HeldBy(s: State, e: Exec)
    requires Located(s.phase, s.queue, s.exec) && e < |s.exec|
    ensures s.exec[e].HasTask() ==> s.exec[e].t in s.phase && s.phase[s.exec[e].t] == Running(e)
    ensures s.exec[e].HasTask() ==> forall u :: u in s.phase && s.phase[u] == Running(e) ==> u == s.exec[e].t
    ensures !s.exec[e].HasTask() ==> forall u :: u in s.phase && s.phase[u].Running? ==> s.phase[u].e != e
  {
  }

  lemma RanOnce(s: State, t: TaskId)
    requires Ran(s.phase, s.exec, s.log) && t in s.phase && s.phase[t].Finished?
    ensures multiset(s.log)[t] == 1
  {
  }

  lemma NotQueued(s: State)
    requires Located(s.phase, s.queue, s.exec)
    ensures s.queue != [] ==> s.queue[0] in s.phase && s.phase[s.queue[0]].Queued?
  {
  }

  lemma KeysAgree(s: State)
    requires Placed(s.group, s.place, s.task) && Sent(s.phase, s.place, s.submitted, s.client)
    requires Freed(s.task, s.place, s.phase, s.counter, s.waited, s.client, s.taskFrees, s.counterFrees)
    requires Signalled(s.exec, s.group, s.counter, s.tokensSent)
    ensures s.task.Keys == s.place.Keys == s.phase.Keys == s.taskFrees.Keys
    ensures s.counter.Keys == s.tokensSent.Keys == s.counterFrees.Keys
  {
  }

  lemma EnqueuedSent(c: Config, s: State)
    requires Ordered(c, s.enqueued, s.popped, s.queue, s.phase)
    ensures s.popped <= |s.enqueued| && s.queue == s.enqueued[s.popped..]
    ensures forall t :: t in s.enqueued ==> t in s.phase && !s.phase[t].Fresh?
  {
  }

  lemma AddingSubmitted(s: State)
    requires Sent(s.phase, s.place, s.submitted, s.client)
    ensures s.client.CLink? || s.client.CSend? || s.client.CRun? ==> s.client.g in s.submitted
  {
  }

  /** The client waits on the group's own counter, after which every task has been signalled. */
  lemma WaitingOn(s: State)
    requires Tokens(s.counter, s.tokensSent, s.waited, s.client, s.group)
             && Counted(s.group, s.submitted, s.waited, s.counter)
    ensures s.client.CWait? || s.client.CFreeCounter? ==> s.client.c == s.client.g
    ensures s.client.CWait? || s.client.CFreeCounter? || s.client.CFreeTask? ==>
              s.client.g in s.waited && s.client.g in s.counter && s.client.g in s.group && s.group[s.client.g].waitable
    ensures s.client.CFreeTask? ==> s.client.i <= |s.group[s.client.g].tasks|
  {
  }

  lemma UnknownUncounted(s: State, g: GroupId)
    requires Counted(s.group, s.submitted, s.waited, s.counter) && g !in s.group
    ensures g !in s.submitted && g !in s.counter
  {
  }

  lemma OnOwnCounter(s: State, t: TaskId, p: XPc)
    requires t in s.task && t in s.place
    requires if s.task[t].waitable then p == XLock(t, s.place[t].group) && s.place[t].group in s.counter
             else p == XFree(t)
    ensures OnCounter([p], s.task, s.place, s.counter)
  {
  }

  // ----- building groups -----

  lemma NewGroupInv(c: Config, s: State, g: GroupId, waitable: bool)
    requires Inv(c, s) && CanNewGroup(s, g)
    ensures Inv(c, NewGroupStep(s, g, waitable))
  {
    hide Placed, Counted, Located, Sent, Pointed, OnCounter, Ran, Counting, Locked, Signalled, Tokens, Freed, Ordered,
      Reordered, InTurn;
    UnknownUncounted(s, g);
    var v := Group([], waitable);
    PlacedNewGroup(s.group, s.place, s.task, g, waitable);
    CountedGroup(s.group, s.submitted, s.waited, s.counter, g, v);
    CountingGroup(s.group, s.phase, s.counter, g, v);
    SignalledGroup(s.exec, s.group, s.counter, s.tokensSent, g, v);
    TokensGroup(s.counter, s.tokensSent, s.waited, s.group, s.group[g := v]);
  }

  lemma NewTaskInv(c: Config, s: State, g: GroupId, t: TaskId)
    requires Inv(c, s) && CanNewTask(s, g, t)
    ensures Inv(c, NewTaskStep(s, g, t))
  {
    hide Placed, Counted, Located, Sent, Pointed, OnCounter, Ran, Counting, Locked, Signalled, Tokens, Freed, Ordered,
      Reordered, InTurn;
    KeysAgree(s);
    EnqueuedSent(c, s);
    UnsubmittedUncounted(s, g);
    var v := Group(s.group[g].tasks + [t], s.group[g].waitable);
    var p := Place(g, |s.group[g].tasks|);
    var k := Task(s.group[g].waitable, None);
    PlacedNewTask(s.group, s.place, s.task, g, t);
    CountedGroup(s.group, s.submitted, s.waited, s.counter, g, v);
    LocatedNew(s.phase, s.queue, s.exec, t);
    SentNewTask(s.phase, s.place, s.submitted, s.client, t, p);
    PointedNewTask(s.task, s.place, s.phase, t, p, k);
    OnCounterTask(s.exec, s.task, s.place, s.counter, t, k);
    OnCounterPlace(s.exec, s.task[t := k], s.place, s.counter, t, p);
    RanNewTask(s.phase, s.exec, s.log, t);
    NotInGroups(s, t);
    CountingPhase(s.group, s.phase, s.counter, t, Fresh);
    CountingGroup(s.group, s.phase[t := Fresh], s.counter, g, v);
    SignalledGroup(s.exec, s.group, s.counter, s.tokensSent, g, v);
    TokensGroup(s.counter, s.tokensSent, s.waited, s.group, s.group[g := v]);
    FreedNewTask(s.task, s.place, s.phase, s.counter, s.waited, s.client, s.taskFrees, s.counterFrees, t, k, p);
    OrderedPhase(c, s.enqueued, s.popped, s.queue, s.phase, t, Fresh);
    ReorderedPhase(c, s.enqueued, s.phase, t, Fresh);
  }

  lemma UnsubmittedUncounted(s: State, g: GroupId)
    requires Counted(s.group, s.submitted, s.waited, s.counter) && g !in s.submitted
    ensures g !in s.counter && g !in s.waited
  {
  }

  lemma NotInGroups(s: State, t: TaskId)
    requires Placed(s.group, s.place, s.task) && t !in s.task
    ensures forall g :: g in s.group ==> t !in s.group[g].tasks
  {
  }

  // ----- dispatch_queue_group_add -----

  lemma SubmitInv(c: Config, s: State, g: GroupId)
    requires Inv(c, s) && CanSubmit(s, g)
    ensures Inv(c, SubmitStep(s, g))
  {
    hide Placed, Counted, Located, Sent, Pointed, OnCounter, Ran, Counting, Locked, Signalled, Tokens, Freed, Ordered,
      Reordered, InTurn;
    var n := |s.group[g].tasks|;
    var v := Counter(n, None, 0);
    KeysAgree(s);
    UnsubmittedUncounted(s, g);
    AllFresh(s, g);
    OnKnownCounters(s);
    CountedSubmit(s.group, s.submitted, s.waited, s.counter, g, v);
    SentSubmit(s.phase, s.place, s.submitted, g);
    PointedMove(s.task, s.place, s.phase, s.client, CLink(g, 0));
    TokensMove(s.counter, s.tokensSent, s.waited, s.client, CLink(g, 0), s.group);
    FreedMove(s.task, s.place, s.phase, s.counter, s.waited, s.client, CLink(g, 0), s.taskFrees, s.counterFrees);
    if s.group[g].waitable {
      OnCounterCounter(s.exec, s.task, s.place, s.counter, g, v);
      CountingSubmit(s.group, s.phase, s.counter, g);
      LockedCounter(s.exec, s.counter, g, v);
      SignalledSubmit(s.exec, s.group, s.counter, s.tokensSent, g, v);
      TokensSubmit(s.counter, s.tokensSent, s.waited, CLink(g, 0), s.group, g, n);
      FreedSubmit(s.task, s.place, s.phase, s.counter, s.waited, CLink(g, 0), s.taskFrees, s.counterFrees, g, v);
    }
  }

  lemma AllFresh(s: State, g: GroupId)
    requires Placed(s.group, s.place, s.task) && Sent(s.phase, s.place, s.submitted, s.client) && g in s.group
             && g !in s.submitted
    ensures forall i :: 0 <= i < |s.group[g].tasks| ==>
            s.group[g].tasks[i] in s.phase && s.phase[s.group[g].tasks[i]].Fresh?
  {
  }

  lemma OnKnownCounters(s: State)
    requires OnCounter(s.exec, s.task, s.place, s.counter)
    ensures forall e :: 0 <= e < |s.exec| && (s.exec[e].XUnlock? || s.exec[e].XToken?) ==> s.exec[e].c in s.counter
  {
  }

  lemma LinkInv(c: Config, s: State)
    requires Inv(c, s) && CanLink(s)
    ensures Inv(c, LinkStep(s))
  {
    hide Placed, Counted, Located, Sent, Pointed, OnCounter, Ran, Counting, Locked, Signalled, Tokens, Freed, Ordered,
      Reordered, InTurn;
    var g, i := s.client.g, s.client.i;
    IndexBound(s, g);
    AddingSubmitted(s);
    if i < |s.group[g].tasks| {
      TaskAt(s, g, i);
      var t := s.group[g].tasks[i];
      var v := Task(s.task[t].waitable, if s.group[g].waitable then Some(g) else None);
      PlacedLink(s.group, s.place, s.task, t, v.privateData);
      SentMove(s.phase, s.place, s.submitted, s.client, CSend(g, i));
      PointedLink(s.task, s.place, s.phase, g, i, t);
      OnCounterTask(s.exec, s.task, s.place, s.counter, t, v);
      TokensMove(s.counter, s.tokensSent, s.waited, s.client, CSend(g, i), s.group);
      FreedMove(s.task, s.place, s.phase, s.counter, s.waited, s.client, CSend(g, i), s.taskFrees, s.counterFrees);
      FreedLink(s.task, s.place, s.phase, s.counter, s.waited, CSend(g, i), s.taskFrees, s.counterFrees, t, v);
    } else {
      SentMove(s.phase, s.place, s.submitted, s.client, CIdle);
      PointedMove(s.task, s.place, s.phase, s.client, CIdle);
      TokensMove(s.counter, s.tokensSent, s.waited, s.client, CIdle, s.group);
      FreedMove(s.task, s.place, s.phase, s.counter, s.waited, s.client, CIdle, s.taskFrees, s.counterFrees);
    }
  }

  lemma EnqueueInv(c: Config, s: State)
    requires Inv(c, s) && CanEnqueue(c, s)
    ensures Inv(c, EnqueueStep(s))
  {
    hide Placed, Counted, Located, Sent, Pointed, OnCounter, Ran, Counting, Locked, Signalled, Tokens, Freed, Ordered,
      Reordered, InTurn;
    var g, i := s.client.g, s.client.i;
    var t, client' := s.group[g].tasks[i], CLink(g, i + 1);
    TaskAt(s, g, i);
    EnqueuedSent(c, s);
    SentOff(s.phase, s.place, s.submitted, s.client, client', t, Queued);
    LocatedEnqueue(s.phase, s.queue, s.exec, t);
    PointedPhase(s.task, s.place, s.phase, s.client, t, Queued);
    PointedMove(s.task, s.place, s.phase[t := Queued], s.client, client');
    RanEnqueue(s.phase, s.exec, s.log, t);
    CountingPhase(s.group, s.phase, s.counter, t, Queued);
    TokensMove(s.counter, s.tokensSent, s.waited, s.client, client', s.group);
    FreedPhase(s.task, s.place, s.phase, s.counter, s.waited, s.client, s.taskFrees, s.counterFrees, t, Queued);
    FreedMove(s.task, s.place, s.phase[t := Queued], s.counter, s.waited, s.client, client', s.taskFrees,
              s.counterFrees);
    OrderedEnqueue(c, s.enqueued, s.popped, s.queue, s.phase, t);
    ReorderedEnqueue(c, s.enqueued, s.phase, t);
    InTurnEnqueue(c, s.enqueued, s.popped, s.exec, s.workerLog, t);
  }

  lemma PitchInInv(c: Config, s: State)
    requires Inv(c, s) && CanPitchIn(c, s)
    ensures Inv(c, PitchInStep(c, s))
  {
    hide Placed, Counted, Located, Sent, Pointed, OnCounter, Ran, Counting, Locked, Signalled, Tokens, Freed, Ordered,
      Reordered, InTurn;
    var g, i, e := s.client.g, s.client.i, c.workers;
    var t, client', p := s.group[g].tasks[i], CRun(g, i), Running(c.workers);
    TaskAt(s, g, i);
    HeldBy(s, e);
    EnqueuedSent(c, s);
    SentOff(s.phase, s.place, s.submitted, s.client, client', t, p);
    LocatedStart(s.phase, s.queue, s.exec, e, t);
    PointedPhase(s.task, s.place, s.phase, s.client, t, p);
    PointedMove(s.task, s.place, s.phase[t := p], s.client, client');
    OnCounterTaskOnly(s, XPerform(t));
    OnCounterExec(s.exec, s.task, s.place, s.counter, e, XPerform(t));
    RanStart(s.phase, s.exec, s.log, e, t);
    CountingPhase(s.group, s.phase, s.counter, t, p);
    LockedKeep(s.exec, s.counter, e, XPerform(t));
    SignalledKeep(s.exec, s.group, s.counter, s.tokensSent, e, XPerform(t));
    TokensMove(s.counter, s.tokensSent, s.waited, s.client, client', s.group);
    FreedPhase(s.task, s.place, s.phase, s.counter, s.waited, s.client, s.taskFrees, s.counterFrees, t, p);
    FreedMove(s.task, s.place, s.phase[t := p], s.counter, s.waited, s.client, client', s.taskFrees, s.counterFrees);
    OrderedPhase(c, s.enqueued, s.popped, s.queue, s.phase, t, p);
    ReorderedPhase(c, s.enqueued, s.phase, t, p);
    InTurnKeep(c, s.enqueued, s.popped, s.exec, s.workerLog, e, XPerform(t));
  }

  lemma OnCounterTaskOnly(s: State, p: XPc)
    requires p.XIdle? || p.XPerform? || p.XBranch?
    ensures OnCounter([p], s.task, s.place, s.counter)
  {
  }

  lemma ResumeInv(c: Config, s: State)
    requires Inv(c, s) && CanResume(c, s)
    ensures Inv(c, ResumeStep(s))
  {
    hide Placed, Counted, Located, Sent, Pointed, OnCounter, Ran, Counting, Locked, Signalled, Tokens, Freed, Ordered,
      Reordered, InTurn;
    var client' := CLink(s.client.g, s.client.i + 1);
    AddingSubmitted(s);
    SentMove(s.phase, s.place, s.submitted, s.client, client');
    PointedMove(s.task, s.place, s.phase, s.client, client');
    TokensMove(s.counter, s.tokensSent, s.waited, s.client, client', s.group);
    FreedMove(s.task, s.place, s.phase, s.counter, s.waited, s.client, client', s.taskFrees, s.counterFrees);
  }

  // ----- dispatch_queue_group_wait -----

  /** Once added, a waitable group's first task points to the group's counter. */
  lemma FirstTaskPoints(c: Config, s: State, g: GroupId)
    requires Inv(c, s) && MayWait(s, g)
    ensures CanWait(s, g) && s.task[s.group[g].tasks[0]].privateData == Some(g) && g in s.counter
  {
    hide Located, OnCounter, Ran, Counting, Locked, Signalled, Tokens, Freed, Ordered, Reordered, InTurn;
    TaskAt(s, g, 0);
  }

  lemma WaitInv(c: Config, s: State, g: GroupId)
    requires Inv(c, s) && CanWait(s, g)
    ensures Inv(c, WaitStep(s, g))
  {
    hide Placed, Counted, Located, Sent, Pointed, OnCounter, Ran, Counting, Locked, Signalled, Tokens, Freed, Ordered,
      Reordered, InTurn;
    FirstTaskPoints(c, s, g);
    CountedWait(s.group, s.submitted, s.waited, s.counter, g);
    SentMove(s.phase, s.place, s.submitted, s.client, CWait(g, g));
    PointedMove(s.task, s.place, s.phase, s.client, CWait(g, g));
    TokensWait(s.counter, s.tokensSent, s.waited, s.group, g);
    FreedWait(s.task, s.place, s.phase, s.counter, s.waited, s.taskFrees, s.counterFrees, g);
  }

  lemma TakeTokenInv(c: Config, s: State)
    requires Inv(c, s) && CanTakeToken(s)
    ensures Inv(c, TakeTokenStep(s))
  {
    hide Placed, Counted, Located, Sent, Pointed, OnCounter, Ran, Counting, Locked, Signalled, Tokens, Freed, Ordered,
      Reordered, InTurn;
    var k, client' := s.client.c, CFreeCounter(s.client.g, s.client.c);
    var v := s.counter[k].(tokens := s.counter[k].tokens - 1);
    CountedUpdate(s.group, s.submitted, s.waited, s.counter, k, v);
    SentMove(s.phase, s.place, s.submitted, s.client, client');
    PointedMove(s.task, s.place, s.phase, s.client, client');
    OnCounterCounter(s.exec, s.task, s.place, s.counter, k, v);
    CountingSame(s.group, s.phase, s.counter, k, v);
    LockedCounter(s.exec, s.counter, k, v);
    SignalledSame(s.exec, s.group, s.counter, s.tokensSent, k, v);
    TokensTake(s.counter, s.tokensSent, s.waited, s.client, s.group);
    FreedUpdate(s.task, s.place, s.phase, s.counter, s.waited, s.client, s.taskFrees, s.counterFrees, k, v);
    FreedMove(s.task, s.place, s.phase, s.counter[k := v], s.waited, s.client, client', s.taskFrees, s.counterFrees);
  }

  lemma FreeCounterInv(c: Config, s: State)
    requires Inv(c, s) && CanFreeCounter(s)
    ensures Inv(c, FreeCounterStep(s))
  {
    hide Placed, Counted, Located, Sent, Pointed, OnCounter, Ran, Counting, Locked, Signalled, Tokens, Freed, Ordered,
      Reordered, InTurn;
    var g, client' := s.client.g, CFreeTask(s.client.g, 0);
    KeysAgree(s);
    WaitingOn(s);
    SentMove(s.phase, s.place, s.submitted, s.client, client');
    PointedMove(s.task, s.place, s.phase, s.client, client');
    TokensMove(s.counter, s.tokensSent, s.waited, s.client, client', s.group);
    FreedCounter(s.task, s.place, s.phase, s.counter, s.waited, s.taskFrees, s.counterFrees, g);
  }

  lemma FreeTaskInv(c: Config, s: State)
    requires Inv(c, s) && CanFreeTask(s)
    ensures Inv(c, FreeTaskStep(s))
  {
    hide Placed, Counted, Located, Sent, Pointed, OnCounter, Ran, Counting, Locked, Signalled, Tokens, Freed, Ordered,
      Reordered, InTurn;
    var g, i := s.client.g, s.client.i;
    IndexBound(s, g);
    WaitingOn(s);
    KeysAgree(s);
    var client' := if i < |s.group[g].tasks| then CFreeTask(g, i + 1) else CIdle;
    SentMove(s.phase, s.place, s.submitted, s.client, client');
    PointedMove(s.task, s.place, s.phase, s.client, client');
    TokensMove(s.counter, s.tokensSent, s.waited, s.client, client', s.group);
    if i < |s.group[g].tasks| {
      TaskAt(s, g, i);
      FreedByWaiter(s.task, s.place, s.phase, s.counter, s.waited, s.taskFrees, s.counterFrees, g, i,
                    s.group[g].tasks[i]);
    } else {
      FreedDone(s.task, s.place, s.phase, s.counter, s.waited, s.taskFrees, s.counterFrees, g, i);
    }
  }

  // ----- dispatch_queue_worker and run_task -----

  lemma ReceiveInv(c: Config, s: State, e: Exec)
    requires Inv(c, s) && CanReceive(c, s, e)
    ensures Inv(c, ReceiveStep(s, e))
  {
    hide Placed, Counted, Located, Sent, Pointed, OnCounter, Ran, Counting, Locked, Signalled, Tokens, Freed, Ordered,
      Reordered, InTurn;
    var t, p := s.queue[0], Running(e);
    NotQueued(s);
    HeldBy(s, e);
    KeysAgree(s);
    EnqueuedSent(c, s);
    LocatedReceive(s.phase, s.queue, s.exec, e);
    SentPhase(s.phase, s.place, s.submitted, s.client, t, p);
    PointedPhase(s.task, s.place, s.phase, s.client, t, p);
    OnCounterTaskOnly(s, XPerform(t));
    OnCounterExec(s.exec, s.task, s.place, s.counter, e, XPerform(t));
    RanStart(s.phase, s.exec, s.log, e, t);
    CountingPhase(s.group, s.phase, s.counter, t, p);
    LockedKeep(s.exec, s.counter, e, XPerform(t));
    SignalledKeep(s.exec, s.group, s.counter, s.tokensSent, e, XPerform(t));
    FreedPhase(s.task, s.place, s.phase, s.counter, s.waited, s.client, s.taskFrees, s.counterFrees, t, p);
    OrderedReceive(c, s.enqueued, s.popped, s.queue, s.phase, e);
    ReorderedPhase(c, s.enqueued, s.phase, t, p);
    InTurnReceive(c, s.enqueued, s.popped, s.queue, s.exec, s.workerLog, e);
  }

  lemma PerformInv(c: Config, s: State, e: Exec)
    requires Inv(c, s) && CanPerform(s, e)
    ensures Inv(c, PerformStep(c, s, e))
  {
    hide Placed, Counted, Located, Sent, Pointed, OnCounter, Ran, Counting, Locked, Signalled, Tokens, Freed, Ordered,
      Reordered, InTurn;
    var p := XBranch(s.exec[e].t);
    HeldBy(s, e);
    LocatedKeep(s.phase, s.queue, s.exec, e, p);
    OnCounterTaskOnly(s, p);
    OnCounterExec(s.exec, s.task, s.place, s.counter, e, p);
    RanPerform(s.phase, s.exec, s.log, e);
    LockedKeep(s.exec, s.counter, e, p);
    SignalledKeep(s.exec, s.group, s.counter, s.tokensSent, e, p);
    InTurnPerform(c, s.enqueued, s.popped, s.exec, s.workerLog, e);
  }

  /** A running task's private_data names its group's counter, if it is waitable. */
  lemma RunningPoints(c: Config, s: State, e: Exec)
    requires Inv(c, s) && e < |s.exec| && s.exec[e].HasTask()
    ensures var t := s.exec[e].t;
            && t in s.task && t in s.place && t in s.phase && s.phase[t] == Running(e)
            && s.task[t].privateData == (if s.task[t].waitable then Some(s.place[t].group) else None)
            && (s.task[t].waitable ==> s.place[t].group in s.counter)
  {
    hide OnCounter, Ran, Counting, Locked, Signalled, Tokens, Freed, Ordered, Reordered, InTurn;
    HeldBy(s, e);
  }

  lemma BranchInv(c: Config, s: State, e: Exec)
    requires Inv(c, s) && CanBranch(s, e)
    ensures Inv(c, BranchStep(s, e))
  {
    hide Placed, Counted, Located, Sent, Pointed, OnCounter, Ran, Counting, Locked, Signalled, Tokens, Freed, Ordered,
      Reordered, InTurn;
    RunningPoints(c, s, e);
    var t := s.exec[e].t;
    var p := if s.task[t].waitable then XLock(t, s.task[t].privateData.value) else XFree(t);
    OnOwnCounter(s, t, p);
    LocatedKeep(s.phase, s.queue, s.exec, e, p);
    OnCounterExec(s.exec, s.task, s.place, s.counter, e, p);
    RanKeep(s.phase, s.exec, s.log, e, p);
    LockedKeep(s.exec, s.counter, e, p);
    SignalledKeep(s.exec, s.group, s.counter, s.tokensSent, e, p);
    InTurnKeep(c, s.enqueued, s.popped, s.exec, s.workerLog, e, p);
  }

  lemma FreeInv(c: Config, s: State, e: Exec)
    requires Inv(c, s) && CanFree(s, e)
    ensures Inv(c, FreeStep(s, e))
  {
    hide Placed, Counted, Located, Sent, Pointed, OnCounter, Ran, Counting, Locked, Signalled, Tokens, Freed, Ordered,
      Reordered, InTurn;
    var t := s.exec[e].t;
    RunningPoints(c, s, e);
    NotWaitable(s, e);
    HeldBy(s, e);
    NotCounted(s, t);
    LocatedFinish(s.phase, s.queue, s.exec, e, XIdle);
    SentPhase(s.phase, s.place, s.submitted, s.client, t, Finished);
    PointedPhase(s.task, s.place, s.phase, s.client, t, Finished);
    OnCounterTaskOnly(s, XIdle);
    OnCounterExec(s.exec, s.task, s.place, s.counter, e, XIdle);
    RanFinish(s.phase, s.exec, s.log, t);
    RanKeep(s.phase[t := Finished], s.exec, s.log, e, XIdle);
    CountingPhase(s.group, s.phase, s.counter, t, Finished);
    LockedKeep(s.exec, s.counter, e, XIdle);
    SignalledKeep(s.exec, s.group, s.counter, s.tokensSent, e, XIdle);
    FreedByWorker(s.task, s.place, s.phase, s.counter, s.waited, s.client, s.taskFrees, s.counterFrees, t);
    OrderedPhase(c, s.enqueued, s.popped, s.queue, s.phase, t, Finished);
    ReorderedFinish(c, s.enqueued, s.popped, s.queue, s.phase, s.exec, t);
    InTurnKeep(c, s.enqueued, s.popped, s.exec, s.workerLog, e, XIdle);
  }

  lemma NotWaitable(s: State, e: Exec)
    requires OnCounter(s.exec, s.task, s.place, s.counter) && e < |s.exec| && s.exec[e].XFree?
    ensures s.exec[e].t in s.task && !s.task[s.exec[e].t].waitable
  {
  }

  lemma NotCounted(s: State, t: TaskId)
    requires Placed(s.group, s.place, s.task) && Counted(s.group, s.submitted, s.waited, s.counter)
    requires t in s.task && !s.task[t].waitable
    ensures forall g :: g in s.counter && g in s.group ==> t !in s.group[g].tasks
  {
  }

  /** The counter a thread works on is that of its task's group. */
  lemma OnItsCounter(s: State, e: Exec)
    requires OnCounter(s.exec, s.task, s.place, s.counter) && e < |s.exec|
    ensures s.exec[e].XLock? || s.exec[e].XCount? ==>
              && s.exec[e].t in s.task && s.exec[e].t in s.place && s.task[s.exec[e].t].waitable
              && s.place[s.exec[e].t].group == s.exec[e].c && s.exec[e].c in s.counter
    ensures s.exec[e].XUnlock? || s.exec[e].XToken? ==> s.exec[e].c in s.counter
  {
  }

  lemma OnSameCounter(s: State, e: Exec, p: XPc)
    requires OnCounter(s.exec, s.task, s.place, s.counter) && e < |s.exec|
    requires match s.exec[e]
             case XLock(t, k) => p == XCount(t, k)
             case XCount(_, k) => p.XUnlock? && p.c == k
             case XUnlock(k, _) => p == XToken(k) || p.XIdle?
             case XToken(_) => p.XIdle?
             case _ => false
    ensures OnCounter([p], s.task, s.place, s.counter)
  {
  }

  lemma LockInv(c: Config, s: State, e: Exec)
    requires Inv(c, s) && CanLock(s, e)
    ensures Inv(c, LockStep(s, e))
  {
    hide Placed, Counted, Located, Sent, Pointed, OnCounter, Ran, Counting, Locked, Signalled, Tokens, Freed, Ordered,
      Reordered, InTurn;
    var XLock(t, k) := s.exec[e];
    var p, v := XCount(t, k), s.counter[k].(lock := Some(e));
    CountedUpdate(s.group, s.submitted, s.waited, s.counter, k, v);
    LocatedKeep(s.phase, s.queue, s.exec, e, p);
    OnSameCounter(s, e, p);
    OnCounterExec(s.exec, s.task, s.place, s.counter, e, p);
    OnCounterCounter(s.exec[e := p], s.task, s.place, s.counter, k, v);
    RanKeep(s.phase, s.exec, s.log, e, p);
    CountingSame(s.group, s.phase, s.counter, k, v);
    LockedTake(s.exec, s.counter, e, p);
    SignalledKeep(s.exec, s.group, s.counter, s.tokensSent, e, p);
    SignalledSame(s.exec[e := p], s.group, s.counter, s.tokensSent, k, v);
    TokensSame(s.counter, s.tokensSent, s.waited, s.client, s.group, k, v);
    FreedUpdate(s.task, s.place, s.phase, s.counter, s.waited, s.client, s.taskFrees, s.counterFrees, k, v);
    InTurnKeep(c, s.enqueued, s.popped, s.exec, s.workerLog, e, p);
  }

  lemma CountInv(c: Config, s: State, e: Exec)
    requires Inv(c, s) && CanCount(s, e)
    ensures s.counter[s.exec[e].c].count > 0 && Inv(c, CountStep(s, e))
  {
    hide Placed, Counted, Located, Sent, Pointed, OnCounter, Ran, Counting, Locked, Signalled, Tokens, Freed, Ordered,
      Reordered, InTurn;
    var XCount(t, k) := s.exec[e];
    RunningPoints(c, s, e);
    OnItsCounter(s, e);
    HeldBy(s, e);
    CountingCount(s.group, s.phase, s.place, s.task, s.counter, t);
    var n := s.counter[k].count - 1;
    var p, v := XUnlock(k, n == 0), s.counter[k].(count := n);
    CountedUpdate(s.group, s.submitted, s.waited, s.counter, k, v);
    LocatedFinish(s.phase, s.queue, s.exec, e, p);
    SentPhase(s.phase, s.place, s.submitted, s.client, t, Finished);
    PointedPhase(s.task, s.place, s.phase, s.client, t, Finished);
    OnSameCounter(s, e, p);
    OnCounterExec(s.exec, s.task, s.place, s.counter, e, p);
    OnCounterCounter(s.exec[e := p], s.task, s.place, s.counter, k, v);
    RanFinish(s.phase, s.exec, s.log, t);
    RanKeep(s.phase[t := Finished], s.exec, s.log, e, p);
    LockedKeep(s.exec, s.counter, e, p);
    LockedCounter(s.exec[e := p], s.counter, k, v);
    SignalledCount(s.exec, s.group, s.counter, s.tokensSent, e);
    TokensSame(s.counter, s.tokensSent, s.waited, s.client, s.group, k, v);
    FreedPhase(s.task, s.place, s.phase, s.counter, s.waited, s.client, s.taskFrees, s.counterFrees, t, Finished);
    FreedUpdate(s.task, s.place, s.phase[t := Finished], s.counter, s.waited, s.client, s.taskFrees, s.counterFrees, k,
                v);
    OrderedPhase(c, s.enqueued, s.popped, s.queue, s.phase, t, Finished);
    ReorderedFinish(c, s.enqueued, s.popped, s.queue, s.phase, s.exec, t);
    InTurnKeep(c, s.enqueued, s.popped, s.exec, s.workerLog, e, p);
  }

  lemma UnlockInv(c: Config, s: State, e: Exec)
    requires Inv(c, s) && CanUnlock(s, e)
    ensures Inv(c, UnlockStep(s, e))
  {
    hide Placed, Counted, Located, Sent, Pointed, OnCounter, Ran, Counting, Locked, Signalled, Tokens, Freed, Ordered,
      Reordered, InTurn;
    var XUnlock(k, last) := s.exec[e];
    var p, v := if last then XToken(k) else XIdle, s.counter[k].(lock := None);
    CountedUpdate(s.group, s.submitted, s.waited, s.counter, k, v);
    LocatedKeep(s.phase, s.queue, s.exec, e, p);
    OnSameCounter(s, e, p);
    OnCounterExec(s.exec, s.task, s.place, s.counter, e, p);
    OnCounterCounter(s.exec[e := p], s.task, s.place, s.counter, k, v);
    RanKeep(s.phase, s.exec, s.log, e, p);
    CountingSame(s.group, s.phase, s.counter, k, v);
    LockedDrop(s.exec, s.counter, e, p);
    SignalledUnlock(s.exec, s.group, s.counter, s.tokensSent, e);
    SignalledSame(s.exec[e := p], s.group, s.counter, s.tokensSent, k, v);
    TokensSame(s.counter, s.tokensSent, s.waited, s.client, s.group, k, v);
    FreedUpdate(s.task, s.place, s.phase, s.counter, s.waited, s.client, s.taskFrees, s.counterFrees, k, v);
    InTurnKeep(c, s.enqueued, s.popped, s.exec, s.workerLog, e, p);
  }

  lemma TokenInv(c: Config, s: State, e: Exec)
    requires Inv(c, s) && CanToken(s, e)
    ensures Inv(c, TokenStep(s, e))
  {
    hide Placed, Counted, Located, Sent, Pointed, OnCounter, Ran, Counting, Locked, Signalled, Tokens, Freed, Ordered,
      Reordered, InTurn;
    var k := s.exec[e].c;
    var v := s.counter[k].(tokens := s.counter[k].tokens + 1);
    CountedUpdate(s.group, s.submitted, s.waited, s.counter, k, v);
    LocatedKeep(s.phase, s.queue, s.exec, e, XIdle);
    OnCounterTaskOnly(s, XIdle);
    OnCounterExec(s.exec, s.task, s.place, s.counter, e, XIdle);
    OnCounterCounter(s.exec[e := XIdle], s.task, s.place, s.counter, k, v);
    RanKeep(s.phase, s.exec, s.log, e, XIdle);
    CountingSame(s.group, s.phase, s.counter, k, v);
    LockedKeep(s.exec, s.counter, e, XIdle);
    LockedCounter(s.exec[e := XIdle], s.counter, k, v);
    SignalledToken(s.exec, s.group, s.counter, s.tokensSent, e);
    SignalledSame(s.exec[e := XIdle], s.group, s.counter, s.tokensSent[k := s.tokensSent[k] + 1], k, v);
    TokensSend(s.counter, s.tokensSent, s.waited, s.client, s.group, k);
    FreedUpdate(s.task, s.place, s.phase, s.counter, s.waited, s.client, s.taskFrees, s.counterFrees, k, v);
    InTurnKeep(c, s.enqueued, s.popped, s.exec, s.workerLog, e, XIdle);
  }

  lemma RunStepInv(c: Config, s: State, e: Exec)
    requires Inv(c, s) && CanRun(c, s, e)
    ensures Inv(c, RunStep(c, s, e))
  {
    hide Inv;
    match s.exec[e]
    case XIdle => ReceiveInv(c, s, e);
    case XPerform(_) => PerformInv(c, s, e);
    case XBranch(_) => BranchInv(c, s, e);
    case XFree(_) => FreeInv(c, s, e);
    case XLock(_, _) => LockInv(c, s, e);
    case XCount(_, _) => CountInv(c, s, e);
    case XUnlock(_, _) => UnlockInv(c, s, e);
    case XToken(_) => TokenInv(c, s, e);
  }

  lemma StepInv(c: Config, s: State, ev: Event)
    requires Inv(c, s) && Enabled(c, s, ev)
    ensures Inv(c, Apply(c, s, ev))
  {
    hide Inv;
    match ev
    case NewGroup(g, waitable) => NewGroupInv(c, s, g, waitable);
    case NewTask(g, t) => NewTaskInv(c, s, g, t);
    case Submit(g) => SubmitInv(c, s, g);
    case Link => LinkInv(c, s);
    case Enqueue => EnqueueInv(c, s);
    case PitchIn => PitchInInv(c, s);
    case Resume => ResumeInv(c, s);
    case Wait(g) => WaitInv(c, s, g);
    case TakeToken => TakeTokenInv(c, s);
    case FreeCounter => FreeCounterInv(c, s);
    case FreeTask => FreeTaskInv(c, s);
    case Run(e) => RunStepInv(c, s, e);
  }

  lemma InitTasks(c: Config, s: State)
    requires Init(c, s)
    ensures Placed(s.group, s.place, s.task) && Counted(s.group, s.submitted, s.waited, s.counter)
    ensures Sent(s.phase, s.place, s.submitted, s.client) && Pointed(s.task, s.place, s.phase, s.client)
    ensures Counting(s.group, s.phase, s.counter)
    ensures Freed(s.task, s.place, s.phase, s.counter, s.waited, s.client, s.taskFrees, s.counterFrees)
    ensures Tokens(s.counter, s.tokensSent, s.waited, s.client, s.group)
  {
  }

  lemma InitThreads(c: Config, s: State)
    requires Init(c, s)
    ensures Located(s.phase, s.queue, s.exec) && OnCounter(s.exec, s.task, s.place, s.counter)
    ensures Ran(s.phase, s.exec, s.log) && Locked(s.exec, s.counter)
    ensures Signalled(s.exec, s.group, s.counter, s.tokensSent)
  {
  }

  lemma InitOrder(c: Config, s: State)
    requires Init(c, s)
    ensures Ordered(c, s.enqueued, s.popped, s.queue, s.phase) && Reordered(c, s.enqueued, s.phase)
    ensures InTurn(c, s.enqueued, s.popped, s.exec, s.workerLog)
  {
  }

  lemma InitInv(c: Config, s: State)
    requires Init(c, s)
    ensures Inv(c, s)
  {
    hide Placed, Counted, Located, Sent, Pointed, OnCounter, Ran, Counting, Locked, Signalled, Tokens, Freed, Ordered,
      Reordered, InTurn;
    InitTasks(c, s);
    InitThreads(c, s);
    InitOrder(c, s);
  }

  lemma NextInv(c: Config, s: State, s': State)
    requires Inv(c, s) && Next(c, s, s')
    ensures Inv(c, s')
  {
    hide Inv, Enabled, Apply;
    var ev :| Enabled(c, s, ev) && s' == Apply(c, s, ev);
    StepInv(c, s, ev);
  }

  lemma {:induction false} RunInv(c: Config, run: seq<State>, i: nat)
    requires IsRun(c, run) && i < |run|
    ensures Inv(c, run[i])
  {
    if i == 0 {
      InitInv(c, run[0]);
    } else {
      hide Inv, Next, Init;
      RunInv(c, run, i - 1);
      assert Next(c, run[i - 1], run[i - 1 + 1]);
      NextInv(c, run[i - 1], run[i]);
    }
  }
}

/** The dispatcher always gets to the end of what it was given: no state is stuck, and no run goes on for ever. */
module DispatchProgress {
  import opened Prelude
  import opened DispatchModel
  import opened DispatchInvariant
  import opened DispatchProof

  /** Goes on with an add, a wait or a task that has begun, rather than beginning another. */
  predicate Continues(ev: Event) {
    !ev.NewGroup? && !ev.NewTask? && !ev.Submit? && !ev.Wait?
  }

  ghost predicate CanContinue(c: Config, s: State) {
    exists ev :: Continues(ev) && Enabled(c, s, ev)
  }

  // ----- nothing is ever stuck -----

  lemma LockHolder(s: State, g: GroupId)
    requires Locked(s.exec, s.counter) && g in s.counter && s.counter[g].lock.Some?
    ensures var h := s.counter[g].lock.value; h < |s.exec| && s.exec[h].HasLock() && s.exec[h].c == g
  {
  }

  /** A thread with a task can go on, or waits for a lock whose holder can. */
  lemma BusyCanRun(c: Config, s: State, e: Exec) returns (h: Exec)
    requires Inv(c, s) && e < |s.exec| && !s.exec[e].XIdle?
    ensures CanRun(c, s, h) && h < |s.exec| && !s.exec[h].XIdle? && (h == e || s.exec[h].HasLock())
  {
    hide Placed, Counted, Located, Sent, Pointed, OnCounter, Ran, Counting, Locked, Signalled, Tokens, Freed, Ordered,
      Reordered, InTurn;
    KeysAgree(s);
    OnItsCounter(s, e);
    if s.exec[e].HasTask() {
      RunningPoints(c, s, e);
    }
    h := e;
    if s.exec[e].XLock? && s.counter[s.exec[e].c].lock.Some? {
      h := s.counter[s.exec[e].c].lock.value;
      LockHolder(s, s.exec[e].c);
    }
  }

  lemma BusyContinues(c: Config, s: State, e: Exec)
    requires Inv(c, s) && e < |s.exec| && !s.exec[e].XIdle?
    ensures CanContinue(c, s)
  {
    hide Inv, CanRun;
    var h := BusyCanRun(c, s, e);
    assert Enabled(c, s, Run(h));
  }

  lemma QueueContinues(c: Config, s: State)
    requires Inv(c, s) && s.queue != [] && c.workers > 0
    ensures CanContinue(c, s)
  {
    hide Placed, Counted, Located, Sent, Pointed, OnCounter, Ran, Counting, Locked, Signalled, Tokens, Freed, Ordered,
      Reordered, InTurn;
    if s.exec[0].XIdle? {
      assert Enabled(c, s, Run(0));
    } else {
      BusyContinues(c, s, 0);
    }
  }

  lemma UnfinishedWhere(s: State, t: TaskId)
    requires Located(s.phase, s.queue, s.exec) && Sent(s.phase, s.place, s.submitted, s.client)
    requires t in s.phase && !s.phase[t].Finished? && !Unsent(s.place[t], s.submitted, s.client)
    ensures t in s.queue || (s.phase[t].Running? && s.phase[t].e < |s.exec| && s.exec[s.phase[t].e].HasTask())
  {
  }

  lemma SentContinues(c: Config, s: State, t: TaskId)
    requires Inv(c, s) && c.workers > 0
    requires t in s.phase && !s.phase[t].Finished? && t in s.place && !Unsent(s.place[t], s.submitted, s.client)
    ensures CanContinue(c, s)
  {
    hide Placed, Counted, Located, Sent, Pointed, OnCounter, Ran, Counting, Locked, Signalled, Tokens, Freed, Ordered,
      Reordered, InTurn;
    UnfinishedWhere(s, t);
    if t in s.queue {
      QueueContinues(c, s);
    } else {
      BusyContinues(c, s, s.phase[t].e);
    }
  }

  /** While the token is missing, some thread is about to send it or some task has not counted down. */
  lemma TokenMissing(c: Config, s: State) returns (e: Exec, t: TaskId)
    requires Inv(c, s) && s.client.CWait? && !CanTakeToken(s)
    ensures (e < |s.exec| && !s.exec[e].XIdle?) ||
            (t in s.phase && !s.phase[t].Finished? && t in s.place && !Unsent(s.place[t], s.submitted, s.client))
  {
    e, t := 0, 0;
    hide Placed, Located, Sent, Pointed, OnCounter, Ran, Locked, Freed, Ordered, Reordered, InTurn;
    WaitingOn(s);
    KeysAgree(s);
    var g := s.client.g;
    var tasks := s.group[g].tasks;
    if s.counter[g].count == 0 {
      var x :| 0 <= x < |s.exec| && Ending(s.exec[x]) && s.exec[x].c == g;
      e := x;
    } else {
      var i :| i in Unfinished(tasks, s.phase);
      TaskAt(s, g, i);
      t := tasks[i];
    }
  }

  lemma ClientContinues(c: Config, s: State)
    requires Inv(c, s) && c.workers > 0 && c.length > 0 && !s.client.CIdle?
    ensures CanContinue(c, s)
  {
    hide Placed, Counted, Located, Sent, Pointed, OnCounter, Ran, Counting, Locked, Signalled, Tokens, Freed, Ordered,
      Reordered, InTurn;
    KeysAgree(s);
    match s.client
    case CLink(g, i) =>
      AddingKnown(s);
      if i < |s.group[g].tasks| { TaskAt(s, g, i); }
      assert Enabled(c, s, Link);
    case CSend(_, _) =>
      if |s.queue| < c.length { assert Enabled(c, s, Enqueue); } else { QueueContinues(c, s); }
    case CRun(_, _) =>
      if s.exec[c.workers].XIdle? { assert Enabled(c, s, Resume); } else { BusyContinues(c, s, c.workers); }
    case CWait(_, _) =>
      if CanTakeToken(s) {
        assert Enabled(c, s, TakeToken);
      } else {
        var e, t := TokenMissing(c, s);
        if e < |s.exec| && !s.exec[e].XIdle? { BusyContinues(c, s, e); } else { SentContinues(c, s, t); }
      }
    case CFreeCounter(_, _) =>
      WaitingOn(s);
      assert Enabled(c, s, FreeCounter);
    case CFreeTask(g, i) =>
      WaitingOn(s);
      if i < |s.group[g].tasks| { TaskAt(s, g, i); }
      assert Enabled(c, s, FreeTask);
  }

  lemma AddingKnown(s: State)
    requires Sent(s.phase, s.place, s.submitted, s.client) && Counted(s.group, s.submitted, s.waited, s.counter)
    ensures s.client.CLink? ==> s.client.g in s.group
  {
  }

  /** Nothing can go on only when everything is over: the client's add or wait has returned, the queue is empty,
      every thread is idle, and every task handed over has been called exactly once. */
  lemma StuckMeansDone(c: Config, run: seq<State>, i: nat)
    requires IsRun(c, run) && i < |run| && c.workers > 0 && c.length > 0 && !CanContinue(c, run[i])
    ensures var s := run[i];
            && s.client.CIdle? && s.queue == []
            && (forall e :: 0 <= e < |s.exec| ==> s.exec[e].XIdle?)
            && (forall g, k :: g in s.submitted && g in s.group && 0 <= k < |s.group[g].tasks| ==>
                                 multiset(s.log)[s.group[g].tasks[k]] == 1)
  {
    RunInv(c, run, i);
    var s := run[i];
    hide Inv, Enabled, CanContinue;
    if !s.client.CIdle? { ClientContinues(c, s); }
    if s.queue != [] { QueueContinues(c, s); }
    forall e | 0 <= e < |s.exec|
      ensures s.exec[e].XIdle?
    {
      if !s.exec[e].XIdle? { BusyContinues(c, s, e); }
    }
    forall g, k | g in s.submitted && g in s.group && 0 <= k < |s.group[g].tasks|
      ensures multiset(s.log)[s.group[g].tasks[k]] == 1
    {
      CalledOnce(c, s, g, k);
    }
  }

  lemma CalledOnce(c: Config, s: State, g: GroupId, k: nat)
    requires Inv(c, s) && c.workers > 0 && s.client.CIdle? && g in s.submitted && g in s.group && k < |s.group[g].tasks|
    requires !CanContinue(c, s)
    ensures multiset(s.log)[s.group[g].tasks[k]] == 1
  {
    hide Placed, Counted, Located, Sent, Pointed, OnCounter, Ran, Counting, Locked, Signalled, Tokens, Freed, Ordered,
      Reordered, InTurn;
    var t := s.group[g].tasks[k];
    TaskAt(s, g, k);
    KeysAgree(s);
    if s.phase[t].Finished? {
      RanOnce(s, t);
    } else {
      SentContinues(c, s, t);
    }
  }

  // ----- nothing goes on for ever -----

  function ThreadWork(p: XPc): nat {
    match p
    case XIdle => 0
    case XPerform(_) => 7
    case XBranch(_) => 6
    case XLock(_, _) => 5
    case XCount(_, _) => 4
    case XUnlock(_, _) => 3
    case XToken(_) => 1
    case XFree(_) => 1
  }

  function ThreadsWork(exec: seq<XPc>): nat {
    if exec == [] then 0 else ThreadWork(exec[0]) + ThreadsWork(exec[1..])
  }

  lemma {:induction false} ThreadsWorkUpdate(exec: seq<XPc>, e: Exec, p: XPc)
    requires e < |exec|
    ensures ThreadsWork(exec[e := p]) == ThreadsWork(exec) - ThreadWork(exec[e]) + ThreadWork(p)
  {
    if e == 0 {
      assert exec[e := p][1..] == exec[1..];
    } else {
      ThreadsWorkUpdate(exec[1..], e - 1, p);
      assert exec[e := p][1..] == exec[1..][e - 1 := p];
    }
  }

  /** Tasks of group g from number i on. */
  function Left(s: State, g: GroupId, i: nat): nat {
    if g in s.group && i <= |s.group[g].tasks| then |s.group[g].tasks| - i else 0
  }

  function ClientWork(s: State): nat {
    match s.client
    case CIdle => 0
    case CLink(g, i) => 12 * Left(s, g, i) + 1
    case CSend(g, i) => 12 * Left(s, g, i)
    case CRun(g, i) => if Left(s, g, i) > 0 then 12 * Left(s, g, i) - 8 else 4
    case CWait(g, _) => Left(s, g, 0) + 3
    case CFreeCounter(g, _) => Left(s, g, 0) + 2
    case CFreeTask(g, i) => Left(s, g, i) + 1
  }

  /** An upper bound on the steps that what has begun can still take. */
  function Work(s: State): nat {
    ClientWork(s) + 8 * |s.queue| + ThreadsWork(s.exec)
  }

  lemma StepWorks(s: State, s': State, e: Exec, p: XPc)
    requires e < |s.exec| && s'.exec == s.exec[e := p] && s'.client == s.client && s'.group == s.group
    requires ThreadWork(p) + 8 * |s'.queue| < ThreadWork(s.exec[e]) + 8 * |s.queue|
    ensures Work(s') < Work(s)
  {
    ThreadsWorkUpdate(s.exec, e, p);
  }

  lemma ReceiveWorks(c: Config, s: State, e: Exec)
    requires CanReceive(c, s, e)
    ensures Work(ReceiveStep(s, e)) < Work(s)
  {
    hide Work;
    StepWorks(s, ReceiveStep(s, e), e, XPerform(s.queue[0]));
  }

  lemma PerformWorks(c: Config, s: State, e: Exec)
    requires CanPerform(s, e)
    ensures Work(PerformStep(c, s, e)) < Work(s)
  {
    hide Work;
    StepWorks(s, PerformStep(c, s, e), e, XBranch(s.exec[e].t));
  }

  lemma BranchWorks(c: Config, s: State, e: Exec)
    requires CanBranch(s, e)
    ensures Work(BranchStep(s, e)) < Work(s)
  {
    hide Work;
    StepWorks(s, BranchStep(s, e), e, BranchStep(s, e).exec[e]);
  }

  lemma FreeWorks(c: Config, s: State, e: Exec)
    requires CanFree(s, e)
    ensures Work(FreeStep(s, e)) < Work(s)
  {
    hide Work;
    StepWorks(s, FreeStep(s, e), e, XIdle);
  }

  lemma LockWorks(c: Config, s: State, e: Exec)
    requires CanLock(s, e)
    ensures Work(LockStep(s, e)) < Work(s)
  {
    hide Work;
    StepWorks(s, LockStep(s, e), e, XCount(s.exec[e].t, s.exec[e].c));
  }

  lemma CountWorks(c: Config, s: State, e: Exec)
    requires CanCount(s, e)
    ensures Work(CountStep(s, e)) < Work(s)
  {
    hide Work;
    StepWorks(s, CountStep(s, e), e, CountStep(s, e).exec[e]);
  }

  lemma UnlockWorks(c: Config, s: State, e: Exec)
    requires CanUnlock(s, e)
    ensures Work(UnlockStep(s, e)) < Work(s)
  {
    hide Work;
    StepWorks(s, UnlockStep(s, e), e, UnlockStep(s, e).exec[e]);
  }

  lemma TokenWorks(c: Config, s: State, e: Exec)
    requires CanToken(s, e)
    ensures Work(TokenStep(s, e)) < Work(s)
  {
    hide Work;
    StepWorks(s, TokenStep(s, e), e, XIdle);
  }

  lemma RunWorks(c: Config, s: State, e: Exec)
    requires CanRun(c, s, e)
    ensures Work(RunStep(c, s, e)) < Work(s)
  {
    hide Work;
    match s.exec[e]
    case XIdle => ReceiveWorks(c, s, e);
    case XPerform(_) => PerformWorks(c, s, e);
    case XBranch(_) => BranchWorks(c, s, e);
    case XFree(_) => FreeWorks(c, s, e);
    case XLock(_, _) => LockWorks(c, s, e);
    case XCount(_, _) => CountWorks(c, s, e);
    case XUnlock(_, _) => UnlockWorks(c, s, e);
    case XToken(_) => TokenWorks(c, s, e);
  }

  lemma PitchInWorks(c: Config, s: State)
    requires CanPitchIn(c, s)
    ensures Work(PitchInStep(c, s)) < Work(s)
  {
    ThreadsWorkUpdate(s.exec, c.workers, XPerform(s.group[s.client.g].tasks[s.client.i]));
  }

  lemma LinkWorks(s: State)
    requires CanLink(s)
    ensures Work(LinkStep(s)) < Work(s)
  {
  }

  lemma EnqueueWorks(s: State)
    requires s.client.CSend? && AtTask(s, s.client.g, s.client.i)
    ensures Work(EnqueueStep(s)) < Work(s)
  {
  }

  lemma ResumeWorks(s: State)
    requires s.client.CRun?
    ensures Work(ResumeStep(s)) < Work(s)
  {
  }

  lemma TakeTokenWorks(s: State)
    requires CanTakeToken(s)
    ensures Work(TakeTokenStep(s)) < Work(s)
  {
  }

  lemma FreeCounterWorks(s: State)
    requires CanFreeCounter(s)
    ensures Work(FreeCounterStep(s)) < Work(s)
  {
  }

  lemma FreeTaskWorks(s: State)
    requires CanFreeTask(s)
    ensures Work(FreeTaskStep(s)) < Work(s)
  {
  }

  /** Every step that continues something uses up work: from any state at most Work(s) such steps can follow. */
  lemma WorkDecreases(c: Config, s: State, ev: Event)
    requires Enabled(c, s, ev) && Continues(ev)
    ensures Work(Apply(c, s, ev)) < Work(s)
  {
    hide Work;
    match ev
    case Run(e) => RunWorks(c, s, e);
    case PitchIn => PitchInWorks(c, s);
    case Link => LinkWorks(s);
    case Enqueue => EnqueueWorks(s);
    case Resume => ResumeWorks(s);
    case TakeToken => TakeTokenWorks(s);
    case FreeCounter => FreeCounterWorks(s);
    case FreeTask => FreeTaskWorks(s);
  }

  ghost predicate Continued(c: Config, s: State, s': State) {
    exists ev :: Continues(ev) && Enabled(c, s, ev) && s' == Apply(c, s, ev)
  }

  ghost predicate ContinuesOnly(c: Config, states: seq<State>) {
    forall i :: 0 <= i < |states| - 1 ==> Continued(c, states[i], states[i + 1])
  }

  lemma ContinuedWorks(c: Config, s: State, s': State)
    requires Continued(c, s, s')
    ensures Work(s') < Work(s)
  {
    hide Enabled, Apply, Work;
    var ev :| Continues(ev) && Enabled(c, s, ev) && s' == Apply(c, s, ev);
    WorkDecreases(c, s, ev);
  }

  /** With nothing new begun, whatever the schedule, at most Work(s) steps follow a state s. */
  lemma {:induction false} RunsEnd(c: Config, states: seq<State>)
    requires |states| > 0 && ContinuesOnly(c, states)
    ensures |states| - 1 <= Work(states[0])
    decreases |states|
  {
    hide Work, Continued;
    if |states| > 1 {
      var rest := states[1..];
      forall i | 0 <= i < |rest| - 1
        ensures Continued(c, rest[i], rest[i + 1])
      {
        assert Continued(c, states[i + 1], states[i + 1 + 1]);
      }
      RunsEnd(c, rest);
      ContinuedWorks(c, states[0], states[0 + 1]);
    }
  }
}

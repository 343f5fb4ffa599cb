/** The dispatcher's promises, over every run: any number of workers, of groups in flight and of tasks per group. */
module DispatchTheorems {
  import opened Prelude
  import opened DispatchModel
  import opened DispatchInvariant
  import opened DispatchProof
  import DispatchGroup

  // ----- waiting is exact -----

  /** The calls in a log that were made to given tasks. */
  function Calls(log: seq<TaskId>, tasks: seq<TaskId>): seq<TaskId> {
    if log == [] then []
    else if log[|log| - 1] in tasks then Calls(log[..|log| - 1], tasks) + [log[|log| - 1]]
    else Calls(log[..|log| - 1], tasks)
  }

  lemma {:induction false} CallsCount(log: seq<TaskId>, tasks: seq<TaskId>, t: TaskId)
    ensures multiset(Calls(log, tasks))[t] == if t in tasks then multiset(log)[t] else 0
  {
    if log != [] {
      var front, last := log[..|log| - 1], log[|log| - 1];
      CallsCount(front, tasks, t);
      assert log == front + [last];
    }
  }

  lemma DistinctCount(tasks: seq<TaskId>, t: TaskId)
    requires NoDuplicates(tasks)
    ensures multiset(tasks)[t] == if t in tasks then 1 else 0
  {
    if tasks != [] {
      DistinctCount(tasks[..|tasks| - 1], t);
      assert tasks == tasks[..|tasks| - 1] + [tasks[|tasks| - 1]];
    }
  }

  lemma GroupDistinct(s: State, g: GroupId)
    requires Placed(s.group, s.place, s.task) && g in s.group
    ensures NoDuplicates(s.group[g].tasks)
    ensures forall t :: t in s.group[g].tasks ==> t in s.place && s.place[t].group == g
  {
  }

  lemma EmptyMeansAll(tasks: seq<TaskId>, phase: map<TaskId, Phase>)
    requires |Unfinished(tasks, phase)| == 0 && forall t :: t in tasks ==> t in phase
    ensures forall t :: t in tasks ==> phase[t].Finished?
  {
    forall t | t in tasks
      ensures phase[t].Finished?
    {
      var i :| 0 <= i < |tasks| && tasks[i] == t;
      assert Unfinished(tasks, phase) == {};
      assert i !in Unfinished(tasks, phase);
    }
  }

  lemma TokenMeansZero(s: State, g: GroupId)
    requires Signalled(s.exec, s.group, s.counter, s.tokensSent) && Counted(s.group, s.submitted, s.waited, s.counter)
    requires Tokens(s.counter, s.tokensSent, s.waited, s.client, s.group) && Taken(g, s.waited, s.client)
    ensures g in s.counter && s.tokensSent[g] == 1 && s.counter[g].count == 0 && s.counter[g].tokens == 0
  {
  }

  /** Group wait is exact: whenever the client has got past a group's token, exactly one token was sent, the counter is
      at zero, and the calls made so far to the group's tasks are the tasks themselves, each once. */
  lemma GroupWaitExact(c: Config, run: seq<State>, i: nat, g: GroupId)
    requires IsRun(c, run) && i < |run| && Taken(g, run[i].waited, run[i].client)
    ensures var s := run[i];
            && g in s.group && g in s.counter && g in s.tokensSent
            && s.tokensSent[g] == 1 && s.counter[g].count == 0
            && multiset(Calls(s.log, s.group[g].tasks)) == multiset(s.group[g].tasks)
            && forall t :: t in s.group[g].tasks ==> t in s.phase && s.phase[t].Finished? && multiset(s.log)[t] == 1
  {
    RunInv(c, run, i);
    hide Placed, Counted, Located, Sent, Pointed, OnCounter, Ran, Counting, Locked, Signalled, Tokens, Freed, Ordered,
      Reordered, InTurn;
    var s := run[i];
    KeysAgree(s);
    TokenMeansZero(s, g);
    CountOf(s, g);
    GroupDistinct(s, g);
    var tasks := s.group[g].tasks;
    EmptyMeansAll(tasks, s.phase);
    forall t | t in tasks ensures multiset(s.log)[t] == 1 { RanOnce(s, t); }
    CallsOnce(s.log, tasks);
  }

  lemma CallsOnce(log: seq<TaskId>, tasks: seq<TaskId>)
    requires NoDuplicates(tasks) && forall t :: t in tasks ==> multiset(log)[t] == 1
    ensures multiset(Calls(log, tasks)) == multiset(tasks)
  {
    var made, wanted: multiset<TaskId> := multiset(Calls(log, tasks)), multiset(tasks);
    forall t: TaskId ensures made[t] == wanted[t] {
      CallsCount(log, tasks, t);
      DistinctCount(tasks, t);
    }
  }

  /** The calls that performing tasks one after the other makes, if code says what each task calls. */
  function Made(tasks: seq<TaskId>, code: TaskId -> DispatchGroup.Call): seq<DispatchGroup.Call> {
    seq(|tasks|, i requires 0 <= i < |tasks| => code(tasks[i]))
  }

  lemma Without(tasks: seq<TaskId>, k: nat, code: TaskId -> DispatchGroup.Call)
    requires k < |tasks|
    ensures var rest := tasks[..k] + tasks[k + 1..];
            && multiset(rest) == multiset(tasks) - multiset{tasks[k]}
            && multiset(Made(tasks, code)) == multiset(Made(rest, code)) + multiset{code(tasks[k])}
  {
    var rest := tasks[..k] + tasks[k + 1..];
    assert tasks == tasks[..k] + [tasks[k]] + tasks[k + 1..];
    assert Made(rest, code) == Made(tasks, code)[..k] + Made(tasks, code)[k + 1..];
    assert Made(tasks, code) == Made(tasks, code)[..k] + [code(tasks[k])] + Made(tasks, code)[k + 1..];
  }

  /** Calling the same tasks in another order makes the same calls. */
  lemma {:induction false} SameCalls(a: seq<TaskId>, b: seq<TaskId>, code: TaskId -> DispatchGroup.Call)
    requires multiset(a) == multiset(b)
    ensures multiset(Made(a, code)) == multiset(Made(b, code))
    decreases |a|
  {
    hide Made;
    assert |b| == |multiset(b)| == |multiset(a)| == |a|;
    if a == [] {
      assert b == [];
    } else {
      var t := a[0];
      assert t in multiset(b);
      var k :| 0 <= k < |b| && b[k] == t;
      Without(a, 0, code);
      Without(b, k, code);
      SameCalls(a[..0] + a[1..], b[..k] + b[k + 1..], code);
    }
  }

  /** Once the client is past a group's token, the calls made to the group's tasks are, in some order, those that
      DispatchGroup.Group.Perform makes for the same tasks in the caller's thread. */
  lemma WaitCallsAsPerform(c: Config, run: seq<State>, i: nat, g: GroupId, tasks: seq<DispatchGroup.Task>,
                           code: TaskId -> DispatchGroup.Call)
    requires IsRun(c, run) && i < |run| && Taken(g, run[i].waited, run[i].client)
    requires g in run[i].group && |tasks| == |run[i].group[g].tasks|
    requires forall k :: 0 <= k < |tasks| ==>
                           code(run[i].group[g].tasks[k]) == DispatchGroup.Call(tasks[k].callee, tasks[k].argument)
    ensures multiset(Made(Calls(run[i].log, run[i].group[g].tasks), code)) == multiset(DispatchGroup.Calls(tasks))
  {
    GroupWaitExact(c, run, i, g);
    SameCalls(Calls(run[i].log, run[i].group[g].tasks), run[i].group[g].tasks, code);
    assert Made(run[i].group[g].tasks, code) == DispatchGroup.Calls(tasks);
  }

  lemma CountOf(s: State, g: GroupId)
    requires Counting(s.group, s.phase, s.counter) && g in s.counter
    ensures g in s.group && s.counter[g].count == |Unfinished(s.group[g].tasks, s.phase)|
  {
  }

  /** At every moment, also while later tasks of the group are still being added, an event counter equals the number
      of the group's tasks that have not counted down; the token is sent at most once, and only at zero. */
  lemma CounterExact(c: Config, run: seq<State>, i: nat, g: GroupId)
    requires IsRun(c, run) && i < |run| && g in run[i].counter
    ensures var s := run[i];
            && g in s.group && g in s.tokensSent
            && s.counter[g].count == |Unfinished(s.group[g].tasks, s.phase)|
            && s.tokensSent[g] <= 1
            && (s.tokensSent[g] == 1 ==> s.counter[g].count == 0)
  {
    RunInv(c, run, i);
  }

  // ----- lifetimes -----

  lemma TaskLive(s: State, t: TaskId)
    requires Freed(s.task, s.place, s.phase, s.counter, s.waited, s.client, s.taskFrees, s.counterFrees)
    requires t in s.task && t in s.place && t in s.phase
    requires if s.task[t].waitable then !TaskGone(s.place[t], s.waited, s.client) else !s.phase[t].Finished?
    ensures t in s.taskFrees && s.taskFrees[t] == 0
  {
  }

  lemma CounterLive(s: State, g: GroupId)
    requires Freed(s.task, s.place, s.phase, s.counter, s.waited, s.client, s.taskFrees, s.counterFrees)
    requires g in s.counter && !CounterGone(g, s.waited, s.client)
    ensures g in s.counterFrees && s.counterFrees[g] == 0
  {
  }

  /** A group with an unfinished task, or with a thread still in event_counter_signal, has not given its token away. */
  lemma NotTaken(c: Config, s: State, e: Exec)
    requires Inv(c, s) && e < |s.exec|
    ensures s.exec[e].HasTask() && s.exec[e].t in s.place ==> !Taken(s.place[s.exec[e].t].group, s.waited, s.client)
    ensures s.exec[e].XUnlock? || s.exec[e].XToken? ==> !Taken(s.exec[e].c, s.waited, s.client)
  {
    hide Sent, Pointed, Ran, Locked, Freed, Ordered, Reordered, InTurn, Located, Placed, Counting, Signalled, Tokens,
      Counted, OnCounter;
    HeldBy(s, e);
    KeysAgree(s);
    if s.exec[e].HasTask() && s.exec[e].t in s.place {
      var t := s.exec[e].t;
      var g := s.place[t].group;
      if Taken(g, s.waited, s.client) {
        TokenMeansZero(s, g);
        CountOf(s, g);
        InGroup(s, t);
        GroupDistinct(s, g);
        EmptyMeansAll(s.group[g].tasks, s.phase);
      }
    }
    if s.exec[e].XUnlock? || s.exec[e].XToken? {
      OnItsCounter(s, e);
      if Taken(s.exec[e].c, s.waited, s.client) {
        TokenMeansZero(s, s.exec[e].c);
        EndingUnsent(s, e);
      }
    }
  }

  lemma InGroup(s: State, t: TaskId)
    requires Placed(s.group, s.place, s.task) && t in s.place
    ensures s.place[t].group in s.group && t in s.group[s.place[t].group].tasks
  {
  }

  lemma EndingUnsent(s: State, e: Exec)
    requires Signalled(s.exec, s.group, s.counter, s.tokensSent) && e < |s.exec|
             && (s.exec[e].XUnlock? || s.exec[e].XToken?)
    requires s.exec[e].c in s.counter
    ensures s.counter[s.exec[e].c].count == 0 ==> s.exec[e].c in s.tokensSent && s.tokensSent[s.exec[e].c] == 0
  {
  }

  lemma RunTouchesLive(c: Config, s: State, e: Exec)
    requires Inv(c, s) && CanRun(c, s, e)
    ensures forall t :: t in TasksTouched(s, Run(e)) ==> t in s.taskFrees && s.taskFrees[t] == 0
    ensures forall g :: g in CountersTouched(s, Run(e)) ==> g in s.counterFrees && s.counterFrees[g] == 0
  {
    hide Placed, Counted, Located, Sent, Pointed, OnCounter, Ran, Counting, Locked, Signalled, Tokens, Freed, Ordered,
      Reordered, InTurn;
    NotTaken(c, s, e);
    OnItsCounter(s, e);
    if s.exec[e].HasTask() {
      RunningPoints(c, s, e);
      TaskLive(s, s.exec[e].t);
    }
    if s.exec[e].XLock? || s.exec[e].XCount? || s.exec[e].XUnlock? || s.exec[e].XToken? {
      CounterLive(s, s.exec[e].c);
    }
  }

  lemma ClientTouchesLive(c: Config, s: State, ev: Event)
    requires Inv(c, s) && Enabled(c, s, ev) && !ev.Run?
    ensures forall t :: t in TasksTouched(s, ev) ==> t in s.taskFrees && s.taskFrees[t] == 0
    ensures forall g :: g in CountersTouched(s, ev) ==> g in s.counterFrees && s.counterFrees[g] == 0
  {
    hide Placed, Counted, Located, Sent, Pointed, OnCounter, Ran, Counting, Locked, Signalled, Tokens, Freed, Ordered,
      Reordered, InTurn;
    KeysAgree(s);
    match ev
    case Submit(g) =>
      if AtTask(s, g, 0) {
        TaskAt(s, g, 0);
        UnsubmittedUncounted(s, g);
        AllFresh(s, g);
        TaskLive(s, s.group[g].tasks[0]);
      }
    case Wait(g) =>
      TaskAt(s, g, 0);
      TaskLive(s, s.group[g].tasks[0]);
    case Link =>
      if AtTask(s, s.client.g, s.client.i) {
        TaskAt(s, s.client.g, s.client.i);
        LinkedFresh(s);
        TaskLive(s, s.group[s.client.g].tasks[s.client.i]);
      }
    case FreeTask =>
      WaitingOn(s);
      if AtTask(s, s.client.g, s.client.i) {
        TaskAt(s, s.client.g, s.client.i);
        TaskLive(s, s.group[s.client.g].tasks[s.client.i]);
      }
    case TakeToken => WaitingOn(s); CounterLive(s, s.client.c);
    case FreeCounter => WaitingOn(s); CounterLive(s, s.client.c);
    case _ =>
  }

  /** The task being linked has not been handed over, and its group has not been waited on. */
  lemma LinkedFresh(s: State)
    requires Placed(s.group, s.place, s.task) && Sent(s.phase, s.place, s.submitted, s.client)
    requires Tokens(s.counter, s.tokensSent, s.waited, s.client, s.group)
             && Counted(s.group, s.submitted, s.waited, s.counter)
    requires Counting(s.group, s.phase, s.counter) && Signalled(s.exec, s.group, s.counter, s.tokensSent)
    requires s.client.CLink? && AtTask(s, s.client.g, s.client.i)
    ensures var t := s.group[s.client.g].tasks[s.client.i];
            t in s.phase && s.phase[t].Fresh? && !Taken(s.client.g, s.waited, s.client)
  {
    var g := s.client.g;
    var t := s.group[g].tasks[s.client.i];
    assert Unsent(s.place[t], s.submitted, s.client);
    if Taken(g, s.waited, s.client) {
      TokenMeansZero(s, g);
      GroupDistinct(s, g);
      EmptyMeansAll(s.group[g].tasks, s.phase);
    }
  }

  /** Lifetime safety: no step of any thread accesses a task or an event counter that has been freed;
      a step that frees one is such an access, so nothing is freed twice. */
  lemma NothingUsedAfterFree(c: Config, run: seq<State>, i: nat, ev: Event)
    requires IsRun(c, run) && i < |run| && Enabled(c, run[i], ev)
    ensures var s := run[i];
            && (forall t :: t in TasksTouched(s, ev) ==> t in s.taskFrees && s.taskFrees[t] == 0)
            && (forall g :: g in CountersTouched(s, ev) ==> g in s.counterFrees && s.counterFrees[g] == 0)
  {
    RunInv(c, run, i);
    hide Inv;
    if ev.Run? {
      RunTouchesLive(c, run[i], ev.e);
    } else {
      ClientTouchesLive(c, run[i], ev);
    }
  }

  /** Freed exactly once: a non-waitable task when it is done; a waitable one and its counter in the wait, so both
      are gone once the wait has returned. */
  lemma FreedExactlyOnce(c: Config, run: seq<State>, i: nat)
    requires IsRun(c, run) && i < |run|
    ensures var s := run[i];
            && (forall t :: t in s.task ==> t in s.taskFrees && t in s.phase && t in s.place && s.taskFrees[t] <= 1)
            && (forall t :: t in s.task && !s.task[t].waitable ==> (s.taskFrees[t] == 1 <==> s.phase[t].Finished?))
            && (forall t :: t in s.task && s.task[t].waitable && s.client.CIdle? ==>
                              (s.taskFrees[t] == 1 <==> s.place[t].group in s.waited))
            && (forall g :: g in s.counter ==> g in s.counterFrees && s.counterFrees[g] <= 1)
            && (forall g :: g in s.counter && s.client.CIdle? ==> (s.counterFrees[g] == 1 <==> g in s.waited))
  {
    RunInv(c, run, i);
    hide Placed, Counted, Located, Sent, Pointed, OnCounter, Ran, Counting, Locked, Signalled, Tokens, Freed, Ordered,
      Reordered, InTurn;
    KeysAgree(run[i]);
    FreeCounts(run[i]);
  }

  lemma FreeCounts(s: State)
    requires Freed(s.task, s.place, s.phase, s.counter, s.waited, s.client, s.taskFrees, s.counterFrees)
    requires s.task.Keys == s.place.Keys == s.phase.Keys == s.taskFrees.Keys
    ensures forall t :: t in s.task ==> s.taskFrees[t] <= 1
    ensures forall t :: t in s.task && !s.task[t].waitable ==> (s.taskFrees[t] == 1 <==> s.phase[t].Finished?)
    ensures forall t :: t in s.task && s.task[t].waitable && s.client.CIdle? ==>
            (s.taskFrees[t] == 1 <==> s.place[t].group in s.waited)
    ensures forall g :: g in s.counter ==> g in s.counterFrees && s.counterFrees[g] <= 1
    ensures forall g :: g in s.counter && s.client.CIdle? ==> (s.counterFrees[g] == 1 <==> g in s.waited)
  {
  }

  // ----- who frees -----

  ghost predicate FreesTask(c: Config, s: State, ev: Event, t: TaskId)
    requires Enabled(c, s, ev)
  {
    var s' := Apply(c, s, ev);
    t in s.taskFrees && t in s'.taskFrees && s'.taskFrees[t] != s.taskFrees[t]
  }

  /** Groups, once made, keep their tasks and whether they can be waited on; once added or waited on, they stay so, and
      an added group gets no further tasks. */
  ghost predicate Grows(s: State, s': State) {
    && s.submitted <= s'.submitted && s.waited <= s'.waited
    && (forall g :: g in s.group ==>
                      && g in s'.group && s'.group[g].waitable == s.group[g].waitable
                      && s.group[g].tasks <= s'.group[g].tasks)
    && (forall g :: g in s.group && g in s.submitted ==> s'.group[g] == s.group[g])
  }

  lemma SameGrows(s: State, s': State)
    requires s'.group == s.group && s'.submitted == s.submitted && s'.waited == s.waited
    ensures Grows(s, s')
  {
  }

  /** What a step of thread e changes in the queue and in the lives of the tasks. */
  ghost predicate Runs(s: State, s': State, e: Exec)
    requires e < |s.exec|
  {
    var p := s.exec[e];
    && s'.client == s.client && s'.counterFrees == s.counterFrees && Grows(s, s')
    && |s'.exec| == |s.exec| && s'.exec == s.exec[e := s'.exec[e]]
    && s'.queue == (if p.XIdle? && s.queue != [] then s.queue[1..] else s.queue)
    && s'.phase == (if p.XIdle? && s.queue != [] then s.phase[s.queue[0] := Running(e)]
                    else if p.XFree? || p.XCount? then s.phase[p.t := Finished]
                    else s.phase)
    && s'.taskFrees == (if p.XFree? && p.t in s.taskFrees then s.taskFrees[p.t := s.taskFrees[p.t] + 1]
                        else s.taskFrees)
    && s'.log == (if p.XPerform? then s.log + [p.t] else s.log)
    && (p.XIdle? && s.queue != [] ==> s'.exec[e] == XPerform(s.queue[0]))
  }

  lemma ReceiveRuns(c: Config, s: State, e: Exec)
    requires CanReceive(c, s, e)
    ensures Runs(s, ReceiveStep(s, e), e)
  {
  }

  lemma PerformRuns(c: Config, s: State, e: Exec)
    requires CanPerform(s, e)
    ensures Runs(s, PerformStep(c, s, e), e)
  {
  }

  lemma BranchRuns(s: State, e: Exec)
    requires CanBranch(s, e)
    ensures Runs(s, BranchStep(s, e), e)
  {
  }

  lemma FreeRuns(s: State, e: Exec)
    requires CanFree(s, e)
    ensures Runs(s, FreeStep(s, e), e)
  {
  }

  lemma LockRuns(s: State, e: Exec)
    requires CanLock(s, e)
    ensures Runs(s, LockStep(s, e), e)
  {
  }

  lemma CountRuns(s: State, e: Exec)
    requires CanCount(s, e)
    ensures Runs(s, CountStep(s, e), e)
  {
  }

  lemma UnlockRuns(s: State, e: Exec)
    requires CanUnlock(s, e)
    ensures Runs(s, UnlockStep(s, e), e)
  {
  }

  lemma TokenRuns(s: State, e: Exec)
    requires CanToken(s, e)
    ensures Runs(s, TokenStep(s, e), e)
  {
  }

  lemma RunStepRuns(c: Config, s: State, e: Exec)
    requires CanRun(c, s, e)
    ensures e < |s.exec| && Runs(s, RunStep(c, s, e), e)
  {
    hide Runs;
    match s.exec[e]
    case XIdle => ReceiveRuns(c, s, e);
    case XPerform(_) => PerformRuns(c, s, e);
    case XBranch(_) => BranchRuns(s, e);
    case XFree(_) => FreeRuns(s, e);
    case XLock(_, _) => LockRuns(s, e);
    case XCount(_, _) => CountRuns(s, e);
    case XUnlock(_, _) => UnlockRuns(s, e);
    case XToken(_) => TokenRuns(s, e);
  }

  predicate FreesNow(s: State, ev: Event, t: TaskId) {
    && ev.FreeTask? && s.client.CFreeTask? && s.client.g in s.group && s.client.i < |s.group[s.client.g].tasks|
    && s.group[s.client.g].tasks[s.client.i] == t
  }

  /** The client frees what its wait says, and nothing else; only a task it runs itself concerns a thread, only an
      enqueue the queue; groups only grow. */
  ghost predicate ClientFrees(s: State, s': State, ev: Event) {
    && (forall t :: t in s.taskFrees && !(ev.NewTask? && ev.t == t) ==>
                      t in s'.taskFrees && s'.taskFrees[t] == s.taskFrees[t] + if FreesNow(s, ev, t) then 1 else 0)
    && (forall g :: g in s.counterFrees && g in s'.counterFrees && s'.counterFrees[g] > s.counterFrees[g] ==>
                      ev.FreeCounter? && s.client.CFreeCounter? && s.client.c == g)
    && (!ev.PitchIn? ==> s'.exec == s.exec) && (!ev.Enqueue? ==> s'.queue == s.queue)
    && Grows(s, s')
  }

  lemma BuildFrees(c: Config, s: State, ev: Event)
    requires Enabled(c, s, ev) && (ev.NewGroup? || ev.NewTask?)
    ensures ClientFrees(s, Apply(c, s, ev), ev)
  {
    hide CanRun, RunStep;
  }

  lemma SubmitFrees(c: Config, s: State, g: GroupId)
    requires CanSubmit(s, g)
    ensures Enabled(c, s, Submit(g)) && ClientFrees(s, Apply(c, s, Submit(g)), Submit(g))
  {
  }

  lemma LinkFrees(c: Config, s: State)
    requires CanLink(s)
    ensures Enabled(c, s, Link) && ClientFrees(s, Apply(c, s, Link), Link)
  {
  }

  lemma AddFrees(c: Config, s: State, ev: Event)
    requires Enabled(c, s, ev) && (ev.Enqueue? || ev.PitchIn? || ev.Resume?)
    ensures ClientFrees(s, Apply(c, s, ev), ev)
  {
    hide CanRun, RunStep;
  }

  lemma WaitFrees(c: Config, s: State, ev: Event)
    requires Enabled(c, s, ev) && (ev.Wait? || ev.TakeToken? || ev.FreeCounter?)
    ensures ClientFrees(s, Apply(c, s, ev), ev)
  {
    hide CanRun, RunStep;
  }

  lemma FreeTaskFrees(c: Config, s: State)
    requires CanFreeTask(s)
    ensures Enabled(c, s, FreeTask) && ClientFrees(s, Apply(c, s, FreeTask), FreeTask)
  {
  }

  lemma OnlyWaitFrees(c: Config, s: State, ev: Event)
    requires Enabled(c, s, ev) && !ev.Run?
    ensures ClientFrees(s, Apply(c, s, ev), ev)
  {
    hide ClientFrees, CanRun, RunStep, FreeTaskStep, SubmitStep, LinkStep;
    match ev
    case NewGroup(_, _) => BuildFrees(c, s, ev);
    case NewTask(_, _) => BuildFrees(c, s, ev);
    case Submit(g) => SubmitFrees(c, s, g);
    case Link => LinkFrees(c, s);
    case Wait(_) => WaitFrees(c, s, ev);
    case TakeToken => WaitFrees(c, s, ev);
    case FreeCounter => WaitFrees(c, s, ev);
    case FreeTask => FreeTaskFrees(c, s);
    case _ => AddFrees(c, s, ev);
  }

  lemma RunFreedBy(c: Config, s: State, e: Exec, t: TaskId)
    requires Inv(c, s) && CanRun(c, s, e) && t in s.taskFrees && t in RunStep(c, s, e).taskFrees
    requires RunStep(c, s, e).taskFrees[t] != s.taskFrees[t]
    ensures t in s.task && t in s.phase && t in s.place && s.taskFrees[t] == 0 && RunStep(c, s, e).taskFrees[t] == 1
    ensures !s.task[t].waitable && s.phase[t] == Running(e) && multiset(s.log)[t] == 1
  {
    hide Placed, Counted, Located, Sent, Pointed, OnCounter, Ran, Counting, Locked, Signalled, Tokens, Freed, Ordered,
      Reordered, InTurn;
    hide CanRun, RunStep;
    KeysAgree(s);
    RunStepRuns(c, s, e);
    RunTouchesLive(c, s, e);
    HeldBy(s, e);
    FreeingRan(s, e, t);
  }

  lemma ClientFreedBy(c: Config, s: State, ev: Event, t: TaskId)
    requires Inv(c, s) && Enabled(c, s, ev) && !ev.Run? && FreesTask(c, s, ev, t)
    ensures t in s.task && t in s.phase && t in s.place && s.taskFrees[t] == 0 && Apply(c, s, ev).taskFrees[t] == 1
    ensures s.task[t].waitable && ev.FreeTask? && s.client.CFreeTask?
    ensures s.place[t].group == s.client.g && s.client.g in s.waited
  {
    hide Placed, Counted, Located, Sent, Pointed, OnCounter, Ran, Counting, Locked, Signalled, Tokens, Freed, Ordered,
      Reordered, InTurn;
    KeysAgree(s);
    NewTaskOther(c, s, ev, t);
    hide Enabled, Apply;
    OnlyWaitFrees(c, s, ev);
    WaitingOn(s);
    TaskAt(s, s.client.g, s.client.i);
    ClientTouchesLive(c, s, ev);
  }

  /** A step that frees a task is the free of a task that is done, by the thread that holds it, if the task is not
      waitable, and otherwise a step of the client's wait on the task's group. */
  lemma FreedBy(c: Config, run: seq<State>, i: nat, ev: Event, t: TaskId)
    requires IsRun(c, run) && i < |run| && Enabled(c, run[i], ev) && FreesTask(c, run[i], ev, t)
    ensures var s := run[i];
            && t in s.task && t in s.phase && t in s.place
            && s.taskFrees[t] == 0 && Apply(c, s, ev).taskFrees[t] == 1
            && if s.task[t].waitable
               then ev.FreeTask? && s.client.CFreeTask? && s.place[t].group == s.client.g && s.client.g in s.waited
               else ev.Run? && s.phase[t] == Running(ev.e) && multiset(s.log)[t] == 1
  {
    hide Inv, IsRun, CanRun, RunStep;
    RunInv(c, run, i);
    if ev.Run? {
      RunFreedBy(c, run[i], ev.e, t);
    } else {
      hide Enabled, Apply, FreesTask;
      ClientFreedBy(c, run[i], ev, t);
    }
  }

  lemma NewTaskOther(c: Config, s: State, ev: Event, t: TaskId)
    requires Enabled(c, s, ev) && t in s.task
    ensures ev.NewTask? ==> ev.t != t
  {
  }

  lemma FreeingRan(s: State, e: Exec, t: TaskId)
    requires Ran(s.phase, s.exec, s.log) && OnCounter(s.exec, s.task, s.place, s.counter) && e < |s.exec|
    requires s.exec[e] == XFree(t) && t in s.phase && s.phase[t] == Running(e)
    ensures multiset(s.log)[t] == 1 && t in s.task && !s.task[t].waitable
  {
  }

  /** The client frees a counter, in its wait on the counter's group; no other step does. */
  lemma CounterFreedBy(c: Config, s: State, ev: Event, g: GroupId)
    requires Enabled(c, s, ev) && g in s.counterFrees && g in Apply(c, s, ev).counterFrees
    requires Apply(c, s, ev).counterFrees[g] > s.counterFrees[g]
    ensures ev.FreeCounter? && s.client.CFreeCounter? && s.client.c == g
  {
    if ev.Run? {
      RunStepRuns(c, s, ev.e);
    } else {
      hide Enabled, Apply;
      OnlyWaitFrees(c, s, ev);
    }
  }

  lemma RunKeepsRunner(c: Config, s: State, e: Exec, t: TaskId)
    requires Inv(c, s) && CanRun(c, s, e) && t in s.phase
    requires s.phase[t].Running? || s.phase[t].Finished?
    ensures var s' := RunStep(c, s, e); t in s'.phase && (s'.phase[t] == s.phase[t] || s'.phase[t].Finished?)
  {
    hide Placed, Counted, Located, Sent, Pointed, OnCounter, Ran, Counting, Locked, Signalled, Tokens, Freed, Ordered,
      Reordered, InTurn;
    hide CanRun, RunStep;
    NotQueued(s);
    RunStepRuns(c, s, e);
  }

  lemma ClientKeepsRunner(c: Config, s: State, ev: Event, t: TaskId)
    requires Inv(c, s) && Enabled(c, s, ev) && !ev.Run? && t in s.phase
    requires s.phase[t].Running? || s.phase[t].Finished?
    ensures t in Apply(c, s, ev).phase && Apply(c, s, ev).phase[t] == s.phase[t]
  {
    hide Placed, Counted, Located, Sent, Pointed, OnCounter, Ran, Counting, Locked, Signalled, Tokens, Freed, Ordered,
      Reordered, InTurn;
    KeysAgree(s);
    if s.client.CSend? {
      TaskAt(s, s.client.g, s.client.i);
      SendingFresh(s);
    }
  }

  lemma SendingFresh(s: State)
    requires Placed(s.group, s.place, s.task) && Sent(s.phase, s.place, s.submitted, s.client)
    requires s.client.CSend? && AtTask(s, s.client.g, s.client.i)
    ensures var t := s.group[s.client.g].tasks[s.client.i]; t in s.phase && s.phase[t].Fresh?
  {
  }

  lemma KeepsRunner(c: Config, s: State, s': State, t: TaskId)
    requires Inv(c, s) && Next(c, s, s') && t in s.phase && (s.phase[t].Running? || s.phase[t].Finished?)
    ensures t in s'.phase && (s'.phase[t] == s.phase[t] || s'.phase[t].Finished?)
  {
    hide Inv, CanRun, RunStep;
    var ev :| Enabled(c, s, ev) && s' == Apply(c, s, ev);
    if ev.Run? {
      RunKeepsRunner(c, s, ev.e, t);
    } else {
      hide Enabled, Apply;
      ClientKeepsRunner(c, s, ev, t);
    }
  }

  lemma {:induction false} RunnerKept(c: Config, run: seq<State>, i: nat, j: nat, t: TaskId)
    requires IsRun(c, run) && i <= j < |run| && t in run[i].phase
    requires run[i].phase[t].Running? || run[i].phase[t].Finished?
    ensures t in run[j].phase && (run[j].phase[t] == run[i].phase[t] || run[j].phase[t].Finished?)
    decreases j
  {
    hide Inv, Next, Init;
    if i < j {
      RunnerKept(c, run, i, j - 1, t);
      RunInv(c, run, j - 1);
      assert Next(c, run[j - 1], run[j - 1 + 1]);
      KeepsRunner(c, run[j - 1], run[j], t);
    }
  }

  /** The thread that frees a non-waitable task is the one that called its function. */
  lemma FreedByItsRunner(c: Config, run: seq<State>, i: nat, e: Exec, j: nat, ev: Event, t: TaskId)
    requires IsRun(c, run) && i <= j < |run| && e < |run[i].exec| && run[i].exec[e] == XPerform(t)
    requires Enabled(c, run[j], ev) && FreesTask(c, run[j], ev, t) && t in run[j].task && !run[j].task[t].waitable
    ensures ev == Run(e)
  {
    RunInv(c, run, i);
    HeldBy(run[i], e);
    RunnerKept(c, run, i, j, t);
    FreedBy(c, run, j, ev, t);
  }

  // ----- order -----

  /** Bounded completion reordering: when the k-th enqueued task has finished, fewer than thread_count of those
      enqueued before it have not. */
  lemma BoundedReordering(c: Config, run: seq<State>, i: nat, k: nat, late: set<nat>)
    requires IsRun(c, run) && i < |run| && k < |run[i].enqueued| && run[i].enqueued[k] in run[i].phase
    requires run[i].phase[run[i].enqueued[k]].Finished?
    requires forall j :: j in late ==>
                           j < k && run[i].enqueued[j] in run[i].phase && !run[i].phase[run[i].enqueued[j]].Finished?
    ensures |late| <= c.workers - 1
  {
    RunInv(c, run, i);
    hide Placed, Counted, Located, Sent, Pointed, OnCounter, Ran, Counting, Locked, Signalled, Tokens, Freed, Ordered,
      InTurn;
    SubsetBound(late, Behind(run[i].enqueued, run[i].phase, k));
  }

  /** One worker runs the tasks in exactly the order they were enqueued. */
  lemma SingleWorkerInOrder(c: Config, run: seq<State>, i: nat)
    requires IsRun(c, run) && i < |run| && c.workers == 1
    ensures run[i].workerLog <= run[i].enqueued
  {
    RunInv(c, run, i);
    hide Placed, Counted, Located, Sent, Pointed, OnCounter, Ran, Counting, Locked, Signalled, Tokens, Freed, Ordered,
      Reordered;
  }
}

/** The bare-metal dispatcher's calls from their start: what building, adding and waiting on a group have led to later
    in the run, stated from the calls alone. */
module DispatchCalls {
  import opened Prelude
  import opened DispatchModel
  import opened DispatchInvariant
  import opened DispatchProof
  import opened DispatchTheorems
  import opened DispatchProgress

  /** In step i of the run the event happens. */
  ghost predicate Happens(c: Config, run: seq<State>, i: nat, ev: Event) {
    i + 1 < |run| && Enabled(c, run[i], ev) && run[i + 1] == Apply(c, run[i], ev)
  }

  // ----- groups only grow -----

  lemma StepGrows(c: Config, s: State, ev: Event)
    requires Enabled(c, s, ev)
    ensures Grows(s, Apply(c, s, ev))
  {
    if ev.Run? {
      RunStepRuns(c, s, ev.e);
      hide CanRun, RunStep, Grows;
    } else {
      hide Enabled, Apply, Grows;
      OnlyWaitFrees(c, s, ev);
    }
  }

  lemma GrowsTwice(s: State, s': State, s'': State)
    requires Grows(s, s') && Grows(s', s'')
    ensures Grows(s, s'')
  {
  }

  lemma {:induction false} RunGrows(c: Config, run: seq<State>, i: nat, j: nat)
    requires IsRun(c, run) && i <= j < |run|
    ensures Grows(run[i], run[j])
    decreases j
  {
    hide Init, Enabled, Apply, Grows;
    if i == j {
      SameGrows(run[i], run[j]);
    } else {
      RunGrows(c, run, i, j - 1);
      assert Next(c, run[j - 1], run[j - 1 + 1]);
      var ev :| Enabled(c, run[j - 1], ev) && run[j] == Apply(c, run[j - 1], ev);
      StepGrows(c, run[j - 1], ev);
      GrowsTwice(run[i], run[j - 1], run[j]);
    }
  }

  // ----- dispatch_queue_group_wait -----

  /** dispatch_queue_group_wait from call to return: once the client is outside it again, each task of the group has
      been
      called once and freed once, and so has the group's event counter been freed. */
  lemma WaitReturnsDone(c: Config, run: seq<State>, i: nat, j: nat, g: GroupId, t: TaskId)
    requires IsRun(c, run) && i < j < |run| && Happens(c, run, i, Wait(g)) && run[j].client.CIdle?
    requires g in run[i].group && t in run[i].group[g].tasks
    ensures multiset(run[j].log)[t] == 1
    ensures t in run[j].taskFrees && run[j].taskFrees[t] == 1
    ensures g in run[j].counterFrees && run[j].counterFrees[g] == 1
    ensures g in run[j].tokensSent && run[j].tokensSent[g] == 1
  {
    WaitBegins(c, run, i, g);
    hide IsRun, Happens;
    RunGrows(c, run, i, i + 1);
    RunGrows(c, run, i + 1, j);
    GroupWaitExact(c, run, j, g);
    TasksOfGroup(c, run, j, g, t);
    FreedExactlyOnce(c, run, j);
  }

  lemma WaitBegins(c: Config, run: seq<State>, i: nat, g: GroupId)
    requires Happens(c, run, i, Wait(g))
    ensures g in run[i + 1].waited
  {
  }

  lemma TasksOfGroup(c: Config, run: seq<State>, j: nat, g: GroupId, t: TaskId)
    requires IsRun(c, run) && j < |run| && g in run[j].group && t in run[j].group[g].tasks
    ensures t in run[j].place && run[j].place[t].group == g && t in run[j].task && t in run[j].phase
    ensures run[j].task[t].waitable == run[j].group[g].waitable
  {
    RunInv(c, run, j);
    hide Placed, Counted, Located, Sent, Pointed, OnCounter, Ran, Counting, Locked, Signalled, Tokens, Freed, Ordered,
      Reordered, InTurn;
    var i :| 0 <= i < |run[j].group[g].tasks| && run[j].group[g].tasks[i] == t;
    TaskAt(run[j], g, i);
    KeysAgree(run[j]);
  }

  // ----- dispatch_group_create, dispatch_group_function_add -----

  /** A group keeps what it was made as, and a task put into it stays in it and takes its waitability. */
  lemma BuiltAsAsked(c: Config, run: seq<State>, f: nat, h: nat, j: nat, g: GroupId, waitable: bool, t: TaskId)
    requires IsRun(c, run) && f < h < j < |run|
    requires Happens(c, run, f, NewGroup(g, waitable)) && Happens(c, run, h, NewTask(g, t))
    ensures g in run[j].group && run[j].group[g].waitable == waitable && t in run[j].group[g].tasks
    ensures t in run[j].task && run[j].task[t].waitable == waitable
  {
    hide IsRun;
    MadeAndJoined(c, run, f, h, g, waitable, t);
    hide Happens, Enabled, Apply;
    RunGrows(c, run, f + 1, j);
    RunGrows(c, run, h + 1, j);
    StaysIn(run[h + 1], run[j], g, t);
    GroupStays(run[f + 1], run[j], g);
    hide Grows;
    TasksOfGroup(c, run, j, g, t);
  }

  lemma StaysIn(s: State, s': State, g: GroupId, t: TaskId)
    requires Grows(s, s') && g in s.group && t in s.group[g].tasks
    ensures g in s'.group && t in s'.group[g].tasks
  {
    var k :| 0 <= k < |s.group[g].tasks| && s.group[g].tasks[k] == t;
    assert s'.group[g].tasks[k] == t;
  }

  lemma GroupStays(s: State, s': State, g: GroupId)
    requires Grows(s, s') && g in s.group
    ensures g in s'.group && s'.group[g].waitable == s.group[g].waitable
    ensures g in s.submitted ==> s'.group[g] == s.group[g] && g in s'.submitted
  {
  }

  lemma MadeAndJoined(c: Config, run: seq<State>, f: nat, h: nat, g: GroupId, waitable: bool, t: TaskId)
    requires Happens(c, run, f, NewGroup(g, waitable)) && Happens(c, run, h, NewTask(g, t))
    ensures g in run[f + 1].group && run[f + 1].group[g] == Group([], waitable)
    ensures g in run[h + 1].group && t in run[h + 1].group[g].tasks
  {
  }

  // ----- dispatch_queue_group_add -----

  lemma SubmitBegins(c: Config, run: seq<State>, i: nat, g: GroupId)
    requires Happens(c, run, i, Submit(g))
    ensures g in run[i].group && g in run[i + 1].submitted && g in run[i + 1].group
    ensures run[i + 1].group[g] == run[i].group[g]
  {
  }

  lemma SubmittedTask(c: Config, run: seq<State>, i: nat, j: nat, g: GroupId, t: TaskId)
    requires IsRun(c, run) && i < j < |run| && Happens(c, run, i, Submit(g))
    requires g in run[i].group && t in run[i].group[g].tasks
    ensures g in run[j].submitted && g in run[j].group && run[j].group[g] == run[i].group[g]
    ensures t in run[j].place && run[j].place[t].group == g && t in run[j].phase
  {
    SubmitBegins(c, run, i, g);
    hide IsRun, Happens;
    RunGrows(c, run, i + 1, j);
    GroupStays(run[i + 1], run[j], g);
    hide Grows;
    TasksOfGroup(c, run, j, g, t);
  }

  /** A thread holds the task. */
  ghost predicate Held(s: State, t: TaskId) {
    exists e :: 0 <= e < |s.exec| && s.exec[e].HasTask() && s.exec[e].t == t
  }

  /** dispatch_queue_group_add from call to return: once the client is outside it again, each task of the group is in
      the
      queue, with a thread, or finished after exactly one call. */
  lemma AddHandsOver(c: Config, run: seq<State>, i: nat, j: nat, g: GroupId, t: TaskId)
    requires IsRun(c, run) && i < j < |run| && Happens(c, run, i, Submit(g)) && run[j].client.CIdle?
    requires g in run[i].group && t in run[i].group[g].tasks
    ensures t in run[j].queue || Held(run[j], t) || multiset(run[j].log)[t] == 1
  {
    SubmittedTask(c, run, i, j, g, t);
    RunInv(c, run, j);
    hide IsRun, Happens, Grows;
    HandedOver(c, run[j], t);
  }

  lemma HandedOver(c: Config, s: State, t: TaskId)
    requires Inv(c, s) && s.client.CIdle? && t in s.place && t in s.phase && s.place[t].group in s.submitted
    ensures t in s.queue || Held(s, t) || multiset(s.log)[t] == 1
  {
    hide Placed, Counted, Located, Sent, Pointed, OnCounter, Ran, Counting, Locked, Signalled, Tokens, Freed, Ordered,
      Reordered, InTurn;
    if s.phase[t].Finished? {
      RanOnce(s, t);
    } else {
      UnfinishedWhere(s, t);
      RunsIt(s, t);
    }
  }

  lemma RunsIt(s: State, t: TaskId)
    requires Located(s.phase, s.queue, s.exec) && t in s.phase
    ensures s.phase[t].Running? ==> Held(s, t)
  {
  }

  /** What was asked for gets done: a task put into a group that is then added has been called exactly once when nothing
      can go on. */
  lemma AddedGetsDone(c: Config, run: seq<State>, h: nat, i: nat, j: nat, g: GroupId, t: TaskId)
    requires IsRun(c, run) && h < i < j < |run| && c.workers > 0 && c.length > 0 && !CanContinue(c, run[j])
    requires Happens(c, run, h, NewTask(g, t)) && Happens(c, run, i, Submit(g))
    ensures multiset(run[j].log)[t] == 1
  {
    Joined(c, run, h, g, t);
    hide IsRun, Happens, CanContinue;
    RunGrows(c, run, h + 1, i);
    StaysIn(run[h + 1], run[i], g, t);
    hide Grows;
    SubmittedTask(c, run, i, j, g, t);
    StuckMeansDone(c, run, j);
  }

  lemma Joined(c: Config, run: seq<State>, h: nat, g: GroupId, t: TaskId)
    requires Happens(c, run, h, NewTask(g, t))
    ensures g in run[h + 1].group && t in run[h + 1].group[g].tasks
  {
  }

  // ----- the queue's length -----

  lemma RunBounded(c: Config, s: State, e: Exec)
    requires CanRun(c, s, e)
    ensures |RunStep(c, s, e).queue| <= |s.queue|
  {
    RunStepRuns(c, s, e);
    hide RunStep;
  }

  lemma StepBounded(c: Config, s: State, ev: Event)
    requires Enabled(c, s, ev) && |s.queue| <= c.length
    ensures |Apply(c, s, ev).queue| <= c.length
  {
    hide CanRun, RunStep;
    if ev.Run? {
      RunBounded(c, s, ev.e);
    } else if !ev.Enqueue? {
      hide Enabled, Apply;
      OnlyWaitFrees(c, s, ev);
    }
  }

  /** The queue never holds more tasks than its length; an add waits instead. */
  lemma {:induction false} QueueBounded(c: Config, run: seq<State>, i: nat)
    requires IsRun(c, run) && i < |run|
    ensures |run[i].queue| <= c.length
  {
    if i > 0 {
      hide Init, Enabled, Apply;
      QueueBounded(c, run, i - 1);
      assert Next(c, run[i - 1], run[i - 1 + 1]);
      var ev :| Enabled(c, run[i - 1], ev) && run[i] == Apply(c, run[i - 1], ev);
      StepBounded(c, run[i - 1], ev);
    }
  }
}

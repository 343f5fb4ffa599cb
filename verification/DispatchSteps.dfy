/** Each part of the dispatcher's invariant under each change made to the state it is about. */
module DispatchSteps {
  import opened Prelude
  import opened DispatchModel
  import opened DispatchInvariant

  // ----- Placed -----

  lemma PlacedNewGroup(group: map<GroupId, Group>, place: map<TaskId, Place>, task: map<TaskId, Task>, g: GroupId,
                       waitable: bool)
    requires Placed(group, place, task) && g !in group
    ensures Placed(group[g := Group([], waitable)], place, task)
  {
  }

  lemma PlacedNewTask(group: map<GroupId, Group>, place: map<TaskId, Place>, task: map<TaskId, Task>, g: GroupId,
                      t: TaskId)
    requires Placed(group, place, task) && g in group && t !in task
    ensures Placed(group[g := Group(group[g].tasks + [t], group[g].waitable)], place[t := Place(g, |group[g].tasks|)],
                   task[t := Task(group[g].waitable, None)])
  {
    var group' := group[g := Group(group[g].tasks + [t], group[g].waitable)];
    var place' := place[t := Place(g, |group[g].tasks|)];
    forall h, i | h in group' && 0 <= i < |group'[h].tasks|
      ensures group'[h].tasks[i] in place' && place'[group'[h].tasks[i]] == Place(h, i)
    {
      assert h != g || i < |group[g].tasks| ==> group'[h].tasks[i] == group[h].tasks[i];
    }
  }

  lemma PlacedLink(group: map<GroupId, Group>, place: map<TaskId, Place>, task: map<TaskId, Task>, t: TaskId,
                   v: Option<GroupId>)
    requires Placed(group, place, task) && t in task
    ensures Placed(group, place, task[t := Task(task[t].waitable, v)])
  {
  }

  // ----- Located -----

  lemma LocatedNew(phase: map<TaskId, Phase>, queue: seq<TaskId>, exec: seq<XPc>, t: TaskId)
    requires Located(phase, queue, exec) && t !in phase
    ensures Located(phase[t := Fresh], queue, exec)
  {
  }

  lemma LocatedEnqueue(phase: map<TaskId, Phase>, queue: seq<TaskId>, exec: seq<XPc>, t: TaskId)
    requires Located(phase, queue, exec) && t in phase && phase[t].Fresh?
    ensures Located(phase[t := Queued], queue + [t], exec)
  {
  }

  lemma LocatedReceive(phase: map<TaskId, Phase>, queue: seq<TaskId>, exec: seq<XPc>, e: Exec)
    requires Located(phase, queue, exec) && queue != [] && e < |exec| && !exec[e].HasTask()
    ensures Located(phase[queue[0] := Running(e)], queue[1..], exec[e := XPerform(queue[0])])
  {
    assert forall t :: t in queue <==> t == queue[0] || t in queue[1..];
  }

  lemma LocatedStart(phase: map<TaskId, Phase>, queue: seq<TaskId>, exec: seq<XPc>, e: Exec, t: TaskId)
    requires Located(phase, queue, exec) && t in phase && phase[t].Fresh? && e < |exec| && !exec[e].HasTask()
    ensures Located(phase[t := Running(e)], queue, exec[e := XPerform(t)])
  {
  }

  lemma LocatedKeep(phase: map<TaskId, Phase>, queue: seq<TaskId>, exec: seq<XPc>, e: Exec, p: XPc)
    requires Located(phase, queue, exec) && e < |exec| && exec[e].HasTask() == p.HasTask()
    requires p.HasTask() ==> p.t == exec[e].t
    ensures Located(phase, queue, exec[e := p])
  {
  }

  lemma LocatedFinish(phase: map<TaskId, Phase>, queue: seq<TaskId>, exec: seq<XPc>, e: Exec, p: XPc)
    requires Located(phase, queue, exec) && e < |exec| && exec[e].HasTask() && !p.HasTask()
    ensures Located(phase[exec[e].t := Finished], queue, exec[e := p])
  {
  }

  // ----- Sent -----

  lemma SentNewTask(phase: map<TaskId, Phase>, place: map<TaskId, Place>, submitted: set<GroupId>, client: CPc,
                    t: TaskId, p: Place)
    requires Sent(phase, place, submitted, client) && t !in phase && p.group !in submitted
    ensures Sent(phase[t := Fresh], place[t := p], submitted, client)
  {
  }

  lemma SentSubmit(phase: map<TaskId, Phase>, place: map<TaskId, Place>, submitted: set<GroupId>, g: GroupId)
    requires Sent(phase, place, submitted, CIdle) && g !in submitted
    ensures Sent(phase, place, submitted + {g}, CLink(g, 0))
  {
  }

  /** The client moves on without handing anything over. */
  lemma SentMove(phase: map<TaskId, Phase>, place: map<TaskId, Place>, submitted: set<GroupId>, client: CPc,
                 client': CPc)
    requires Sent(phase, place, submitted, client)
    requires client'.CLink? || client'.CSend? || client'.CRun? ==> client'.g in submitted
    requires forall t :: t in place ==> Unsent(place[t], submitted, client) == Unsent(place[t], submitted, client')
    ensures Sent(phase, place, submitted, client')
  {
  }

  /** A task that was already handed over changes phase. */
  lemma SentPhase(phase: map<TaskId, Phase>, place: map<TaskId, Place>, submitted: set<GroupId>, client: CPc, t: TaskId,
                  p: Phase)
    requires Sent(phase, place, submitted, client) && t in phase && !phase[t].Fresh? && !p.Fresh?
    ensures Sent(phase[t := p], place, submitted, client)
  {
  }

  /** The client hands over the task it is at. */
  lemma SentOff(phase: map<TaskId, Phase>, place: map<TaskId, Place>, submitted: set<GroupId>, client: CPc,
                client': CPc, t: TaskId, p: Phase)
    requires Sent(phase, place, submitted, client) && client.CSend? && !p.Fresh?
    requires t in place && place[t] == Place(client.g, client.i)
    requires forall u :: u in place && place[u] == place[t] ==> u == t
    requires client' == CLink(client.g, client.i + 1) || client' == CRun(client.g, client.i)
    ensures t in phase && phase[t].Fresh? && Sent(phase[t := p], place, submitted, client')
  {
  }

  // ----- Pointed -----

  lemma PointedNewTask(task: map<TaskId, Task>, place: map<TaskId, Place>, phase: map<TaskId, Phase>, t: TaskId,
                       p: Place, v: Task)
    requires Pointed(task, place, phase, CIdle)
    ensures Pointed(task[t := v], place[t := p], phase[t := Fresh], CIdle)
  {
  }

  lemma PointedLink(task: map<TaskId, Task>, place: map<TaskId, Place>, phase: map<TaskId, Phase>, g: GroupId, i: nat,
                    t: TaskId)
    requires Pointed(task, place, phase, CLink(g, i)) && t in task && t in place && place[t] == Place(g, i)
    requires forall u :: u in place && place[u] == place[t] ==> u == t
    ensures Pointed(task[t := Task(task[t].waitable, if task[t].waitable then Some(g) else None)], place, phase,
                    CSend(g, i))
  {
  }

  lemma PointedMove(task: map<TaskId, Task>, place: map<TaskId, Place>, phase: map<TaskId, Phase>, client: CPc,
                    client': CPc)
    requires Pointed(task, place, phase, client) && !client'.CSend?
    ensures Pointed(task, place, phase, client')
  {
  }

  lemma PointedPhase(task: map<TaskId, Task>, place: map<TaskId, Place>, phase: map<TaskId, Phase>, client: CPc,
                     t: TaskId, p: Phase)
    requires Pointed(task, place, phase, client) && t in phase
    requires !phase[t].Fresh? || (client.CSend? && t in place && place[t] == Place(client.g, client.i))
    ensures Pointed(task, place, phase[t := p], client)
  {
  }

  // ----- OnCounter -----

  lemma OnCounterTask(exec: seq<XPc>, task: map<TaskId, Task>, place: map<TaskId, Place>,
                      counter: map<GroupId, Counter>, t: TaskId, v: Task)
    requires OnCounter(exec, task, place, counter) && (t in task ==> v.waitable == task[t].waitable)
    ensures OnCounter(exec, task[t := v], place, counter)
  {
  }

  lemma OnCounterPlace(exec: seq<XPc>, task: map<TaskId, Task>, place: map<TaskId, Place>,
                       counter: map<GroupId, Counter>, t: TaskId, p: Place)
    requires OnCounter(exec, task, place, counter) && t !in place
    ensures OnCounter(exec, task, place[t := p], counter)
  {
  }

  lemma OnCounterCounter(exec: seq<XPc>, task: map<TaskId, Task>, place: map<TaskId, Place>,
                         counter: map<GroupId, Counter>, g: GroupId, v: Counter)
    requires OnCounter(exec, task, place, counter)
    ensures OnCounter(exec, task, place, counter[g := v])
  {
  }

  lemma OnCounterExec(exec: seq<XPc>, task: map<TaskId, Task>, place: map<TaskId, Place>,
                      counter: map<GroupId, Counter>, e: Exec, p: XPc)
    requires OnCounter(exec, task, place, counter) && e < |exec| && OnCounter([p], task, place, counter)
    ensures OnCounter(exec[e := p], task, place, counter)
  {
    assert [p][0] == p;
  }

  // ----- Ran -----

  lemma RanNewTask(phase: map<TaskId, Phase>, exec: seq<XPc>, log: seq<TaskId>, t: TaskId)
    requires Ran(phase, exec, log) && t !in phase
    ensures Ran(phase[t := Fresh], exec, log)
  {
  }

  /** Up to the call of its function, a task has not run. */
  lemma RanStart(phase: map<TaskId, Phase>, exec: seq<XPc>, log: seq<TaskId>, e: Exec, t: TaskId)
    requires Ran(phase, exec, log) && t in phase && (phase[t].Fresh? || phase[t].Queued?) && e < |exec|
    requires forall u :: u in phase && phase[u].Running? ==> phase[u].e != e
    ensures Ran(phase[t := Running(e)], exec[e := XPerform(t)], log)
  {
  }

  lemma RanEnqueue(phase: map<TaskId, Phase>, exec: seq<XPc>, log: seq<TaskId>, t: TaskId)
    requires Ran(phase, exec, log) && t in phase && phase[t].Fresh?
    ensures Ran(phase[t := Queued], exec, log)
  {
  }

  lemma RanPerform(phase: map<TaskId, Phase>, exec: seq<XPc>, log: seq<TaskId>, e: Exec)
    requires Ran(phase, exec, log) && e < |exec| && exec[e].XPerform? && exec[e].t in phase
             && phase[exec[e].t] == Running(e)
    requires forall u :: u in phase && phase[u] == Running(e) ==> u == exec[e].t
    ensures Ran(phase, exec[e := XBranch(exec[e].t)], log + [exec[e].t])
  {
  }

  lemma RanKeep(phase: map<TaskId, Phase>, exec: seq<XPc>, log: seq<TaskId>, e: Exec, p: XPc)
    requires Ran(phase, exec, log) && e < |exec| && !exec[e].XPerform? && !p.XPerform?
    ensures Ran(phase, exec[e := p], log)
  {
  }

  lemma RanFinish(phase: map<TaskId, Phase>, exec: seq<XPc>, log: seq<TaskId>, t: TaskId)
    requires Ran(phase, exec, log) && t in phase && phase[t].Running? && phase[t].e < |exec|
             && !exec[phase[t].e].XPerform?
    ensures Ran(phase[t := Finished], exec, log)
  {
  }

  // ----- Counted -----

  lemma CountedGroup(group: map<GroupId, Group>, submitted: set<GroupId>, waited: set<GroupId>,
                     counter: map<GroupId, Counter>, g: GroupId, v: Group)
    requires Counted(group, submitted, waited, counter) && g !in submitted
    ensures Counted(group[g := v], submitted, waited, counter)
  {
  }

  lemma CountedSubmit(group: map<GroupId, Group>, submitted: set<GroupId>, waited: set<GroupId>,
                      counter: map<GroupId, Counter>, g: GroupId, v: Counter)
    requires Counted(group, submitted, waited, counter) && g in group
    ensures Counted(group, submitted + {g}, waited, if group[g].waitable then counter[g := v] else counter)
  {
  }

  lemma CountedWait(group: map<GroupId, Group>, submitted: set<GroupId>, waited: set<GroupId>,
                    counter: map<GroupId, Counter>, g: GroupId)
    requires Counted(group, submitted, waited, counter) && g in counter && g in group && group[g].tasks != []
    ensures Counted(group, submitted, waited + {g}, counter)
  {
  }

  lemma CountedUpdate(group: map<GroupId, Group>, submitted: set<GroupId>, waited: set<GroupId>,
                      counter: map<GroupId, Counter>, g: GroupId, v: Counter)
    requires Counted(group, submitted, waited, counter) && g in counter
    ensures Counted(group, submitted, waited, counter[g := v])
  {
  }

  // ----- Counting -----

  lemma UnfinishedAll(tasks: seq<TaskId>, phase: map<TaskId, Phase>, n: nat)
    requires n <= |tasks| && forall i :: 0 <= i < |tasks| ==> tasks[i] in phase && !phase[tasks[i]].Finished?
    ensures |Unfinished(tasks[..n], phase)| == n
  {
    if n > 0 {
      UnfinishedAll(tasks, phase, n - 1);
      assert Unfinished(tasks[..n], phase) == Unfinished(tasks[..n - 1], phase) + {n - 1};
    } else {
      assert Unfinished(tasks[..n], phase) == {};
    }
  }

  lemma CountingSubmit(group: map<GroupId, Group>, phase: map<TaskId, Phase>, counter: map<GroupId, Counter>,
                       g: GroupId)
    requires Counting(group, phase, counter) && g in group
    requires forall i :: 0 <= i < |group[g].tasks| ==> group[g].tasks[i] in phase && !phase[group[g].tasks[i]].Finished?
    ensures Counting(group, phase, counter[g := Counter(|group[g].tasks|, None, 0)])
  {
    var tasks := group[g].tasks;
    UnfinishedAll(tasks, phase, |tasks|);
    assert tasks[..|tasks|] == tasks;
  }

  lemma CountingGroup(group: map<GroupId, Group>, phase: map<TaskId, Phase>, counter: map<GroupId, Counter>, g: GroupId,
                      v: Group)
    requires Counting(group, phase, counter) && g !in counter
    ensures Counting(group[g := v], phase, counter)
  {
  }

  /** A new phase that leaves the task as unfinished as before, or that concerns no counted group. */
  lemma CountingPhase(group: map<GroupId, Group>, phase: map<TaskId, Phase>, counter: map<GroupId, Counter>, t: TaskId,
                      p: Phase)
    requires Counting(group, phase, counter)
    requires (t in phase && phase[t].Finished? == p.Finished?)
             || (forall g :: g in counter && g in group ==> t !in group[g].tasks)
    ensures Counting(group, phase[t := p], counter)
  {
    forall g | g in counter
      ensures Unfinished(group[g].tasks, phase[t := p]) == Unfinished(group[g].tasks, phase)
    {
    }
  }

  lemma CountingCount(group: map<GroupId, Group>, phase: map<TaskId, Phase>, place: map<TaskId, Place>,
                      task: map<TaskId, Task>, counter: map<GroupId, Counter>, t: TaskId)
    requires Counting(group, phase, counter) && Placed(group, place, task)
    requires t in place && t in phase && !phase[t].Finished? && place[t].group in counter
    ensures var g := place[t].group;
            && counter[g].count > 0
            && Counting(group, phase[t := Finished], counter[g := counter[g].(count := counter[g].count - 1)])
  {
    var g, i := place[t].group, place[t].index;
    assert i in Unfinished(group[g].tasks, phase);
    assert Unfinished(group[g].tasks, phase[t := Finished]) == Unfinished(group[g].tasks, phase) - {i};
    forall h | h in counter && h != g
      ensures Unfinished(group[h].tasks, phase[t := Finished]) == Unfinished(group[h].tasks, phase)
    {
      assert forall j :: 0 <= j < |group[h].tasks| ==> place[group[h].tasks[j]] == Place(h, j);
    }
  }

  lemma CountingSame(group: map<GroupId, Group>, phase: map<TaskId, Phase>, counter: map<GroupId, Counter>, g: GroupId,
                     v: Counter)
    requires Counting(group, phase, counter) && g in counter && v.count == counter[g].count
    ensures Counting(group, phase, counter[g := v])
  {
  }

  // ----- Locked -----

  lemma LockedKeep(exec: seq<XPc>, counter: map<GroupId, Counter>, e: Exec, p: XPc)
    requires Locked(exec, counter) && e < |exec| && exec[e].HasLock() == p.HasLock()
             && (p.HasLock() ==> p.c == exec[e].c)
    ensures Locked(exec[e := p], counter)
  {
  }

  lemma LockedCounter(exec: seq<XPc>, counter: map<GroupId, Counter>, g: GroupId, v: Counter)
    requires Locked(exec, counter) && if g in counter then v.lock == counter[g].lock else v.lock.None?
    ensures Locked(exec, counter[g := v])
  {
  }

  lemma LockedTake(exec: seq<XPc>, counter: map<GroupId, Counter>, e: Exec, p: XPc)
    requires Locked(exec, counter) && e < |exec| && !exec[e].HasLock() && p.HasLock()
    requires p.c in counter && counter[p.c].lock.None?
    ensures Locked(exec[e := p], counter[p.c := counter[p.c].(lock := Some(e))])
  {
  }

  lemma LockedDrop(exec: seq<XPc>, counter: map<GroupId, Counter>, e: Exec, p: XPc)
    requires Locked(exec, counter) && e < |exec| && exec[e].HasLock() && !p.HasLock()
    ensures exec[e].c in counter
    ensures Locked(exec[e := p], counter[exec[e].c := counter[exec[e].c].(lock := None)])
  {
  }

  // ----- Signalled -----

  lemma SignalledGroup(exec: seq<XPc>, group: map<GroupId, Group>, counter: map<GroupId, Counter>,
                       tokensSent: map<GroupId, nat>, g: GroupId, v: Group)
    requires Signalled(exec, group, counter, tokensSent) && g !in counter
    ensures Signalled(exec, group[g := v], counter, tokensSent)
  {
  }

  lemma SignalledSubmit(exec: seq<XPc>, group: map<GroupId, Group>, counter: map<GroupId, Counter>,
                        tokensSent: map<GroupId, nat>, g: GroupId, v: Counter)
    requires Signalled(exec, group, counter, tokensSent) && g !in counter && g in group && v.count == |group[g].tasks|
    requires forall e :: 0 <= e < |exec| && (exec[e].XUnlock? || exec[e].XToken?) ==> exec[e].c in counter
    ensures Signalled(exec, group, counter[g := v], tokensSent[g := 0])
  {
  }

  lemma SignalledSame(exec: seq<XPc>, group: map<GroupId, Group>, counter: map<GroupId, Counter>,
                      tokensSent: map<GroupId, nat>, g: GroupId, v: Counter)
    requires Signalled(exec, group, counter, tokensSent) && g in counter && v.count == counter[g].count
    ensures Signalled(exec, group, counter[g := v], tokensSent)
  {
  }

  /** A thread moves on outside the end of event_counter_signal. */
  lemma SignalledKeep(exec: seq<XPc>, group: map<GroupId, Group>, counter: map<GroupId, Counter>,
                      tokensSent: map<GroupId, nat>, e: Exec, p: XPc)
    requires Signalled(exec, group, counter, tokensSent) && e < |exec| && !Ending(exec[e])
    requires !p.XUnlock? && !p.XToken?
    ensures Signalled(exec[e := p], group, counter, tokensSent)
  {
    var exec' := exec[e := p];
    forall g | g in counter && g in group && counter[g].count == 0 && group[g].tasks != [] && tokensSent[g] == 0
      ensures exists x :: 0 <= x < |exec'| && Ending(exec'[x]) && exec'[x].c == g
    {
      var x :| 0 <= x < |exec| && Ending(exec[x]) && exec[x].c == g;
      assert exec'[x] == exec[x];
    }
  }

  lemma SignalledCount(exec: seq<XPc>, group: map<GroupId, Group>, counter: map<GroupId, Counter>,
                       tokensSent: map<GroupId, nat>, e: Exec)
    requires Signalled(exec, group, counter, tokensSent) && Locked(exec, counter)
    requires e < |exec| && exec[e].XCount? && exec[e].c in counter && counter[exec[e].c].count > 0
    ensures var c := exec[e].c;
            var n := counter[c].count - 1;
            Signalled(exec[e := XUnlock(c, n == 0)], group, counter[c := counter[c].(count := n)], tokensSent)
  {
    var c := exec[e].c;
    var n := counter[c].count - 1;
    var exec' := exec[e := XUnlock(c, n == 0)];
    var counter' := counter[c := counter[c].(count := n)];
    assert forall x :: 0 <= x < |exec| && exec[x].XUnlock? ==> exec[x].c != c;
    forall g | g in counter' && g in group && counter'[g].count == 0 && group[g].tasks != [] && tokensSent[g] == 0
      ensures exists x :: 0 <= x < |exec'| && Ending(exec'[x]) && exec'[x].c == g
    {
      if g == c {
        assert Ending(exec'[e]) && exec'[e].c == g;
      } else {
        var x :| 0 <= x < |exec| && Ending(exec[x]) && exec[x].c == g;
        assert exec'[x] == exec[x];
      }
    }
  }

  lemma SignalledUnlock(exec: seq<XPc>, group: map<GroupId, Group>, counter: map<GroupId, Counter>,
                        tokensSent: map<GroupId, nat>, e: Exec)
    requires Signalled(exec, group, counter, tokensSent) && e < |exec| && exec[e].XUnlock? && exec[e].c in counter
    ensures var c := exec[e].c;
            Signalled(exec[e := if exec[e].last then XToken(c) else XIdle], group, counter, tokensSent)
  {
    var exec' := exec[e := if exec[e].last then XToken(exec[e].c) else XIdle];
    forall g | g in counter && g in group && counter[g].count == 0 && group[g].tasks != [] && tokensSent[g] == 0
      ensures exists x :: 0 <= x < |exec'| && Ending(exec'[x]) && exec'[x].c == g
    {
      var x :| 0 <= x < |exec| && Ending(exec[x]) && exec[x].c == g;
      assert Ending(exec'[x]) && exec'[x].c == g;
    }
  }

  lemma SignalledToken(exec: seq<XPc>, group: map<GroupId, Group>, counter: map<GroupId, Counter>,
                       tokensSent: map<GroupId, nat>, e: Exec)
    requires Signalled(exec, group, counter, tokensSent) && e < |exec| && exec[e].XToken? && exec[e].c in counter
    ensures Signalled(exec[e := XIdle], group, counter, tokensSent[exec[e].c := tokensSent[exec[e].c] + 1])
  {
    var c, exec' := exec[e].c, exec[e := XIdle];
    forall g | g in counter && g in group && g != c && counter[g].count == 0 && group[g].tasks != []
      && tokensSent[g] == 0
      ensures exists x :: 0 <= x < |exec'| && Ending(exec'[x]) && exec'[x].c == g
    {
      var x :| 0 <= x < |exec| && Ending(exec[x]) && exec[x].c == g;
      assert exec'[x] == exec[x];
    }
  }

  // ----- Ordered, Reordered, InTurn -----

  lemma OrderedEnqueue(c: Config, enqueued: seq<TaskId>, popped: nat, queue: seq<TaskId>, phase: map<TaskId, Phase>,
                       t: TaskId)
    requires Ordered(c, enqueued, popped, queue, phase) && t in phase && phase[t].Fresh?
    ensures Ordered(c, enqueued + [t], popped, queue + [t], phase[t := Queued])
  {
  }

  lemma OrderedReceive(c: Config, enqueued: seq<TaskId>, popped: nat, queue: seq<TaskId>, phase: map<TaskId, Phase>,
                       e: Exec)
    requires Ordered(c, enqueued, popped, queue, phase) && queue != [] && e < c.workers
    ensures Ordered(c, enqueued, popped + 1, queue[1..], phase[queue[0] := Running(e)])
  {
    assert queue[0] == enqueued[popped];
  }

  lemma OrderedPhase(c: Config, enqueued: seq<TaskId>, popped: nat, queue: seq<TaskId>, phase: map<TaskId, Phase>,
                     t: TaskId, p: Phase)
    requires Ordered(c, enqueued, popped, queue, phase)
    requires t in enqueued ==> p.Finished?
    ensures Ordered(c, enqueued, popped, queue, phase[t := p])
  {
  }

  lemma ReorderedEnqueue(c: Config, enqueued: seq<TaskId>, phase: map<TaskId, Phase>, t: TaskId)
    requires Reordered(c, enqueued, phase) && t !in enqueued
    ensures Reordered(c, enqueued + [t], phase[t := Queued])
  {
    var phase' := phase[t := Queued];
    forall k | 0 <= k < |enqueued|
      ensures Behind(enqueued + [t], phase', k) == Behind(enqueued, phase, k)
    {
    }
  }

  /** A change of phase that finishes nothing that was enqueued. */
  lemma ReorderedPhase(c: Config, enqueued: seq<TaskId>, phase: map<TaskId, Phase>, t: TaskId, p: Phase)
    requires Reordered(c, enqueued, phase)
    requires t in enqueued ==> t in phase && !phase[t].Finished? && !p.Finished?
    ensures Reordered(c, enqueued, phase[t := p])
  {
    forall k | 0 <= k < |enqueued|
      ensures Behind(enqueued, phase[t := p], k) == Behind(enqueued, phase, k)
    {
    }
  }

  /** The tasks that an earlier-started one overtakes are all held by other workers. */
  lemma BehindBound(c: Config, enqueued: seq<TaskId>, popped: nat, queue: seq<TaskId>, phase: map<TaskId, Phase>,
                    exec: seq<XPc>, k: nat, e: Exec)
    requires Ordered(c, enqueued, popped, queue, phase) && Located(phase, queue, exec)
    requires k < popped && phase[enqueued[k]] == Running(e) && e < c.workers
    ensures |Behind(enqueued, phase, k)| < c.workers
  {
    var behind := Behind(enqueued, phase, k);
    var holder := map j | j in behind :: phase[enqueued[j]].e;
    var others := Below(c.workers) - {e};
    forall j, j' | j in behind && j' in behind && j != j'
      ensures holder[j] != holder[j']
    {
      assert enqueued[j] != enqueued[j'];
      assert exec[phase[enqueued[j]].e].t == enqueued[j] && exec[phase[enqueued[j']].e].t == enqueued[j'];
    }
    forall j | j in behind
      ensures holder[j] in others
    {
      assert enqueued[j] != enqueued[k];
      assert exec[phase[enqueued[j]].e].t == enqueued[j] && exec[e].t == enqueued[k];
    }
    InjectionBound(behind, others, holder);
  }

  lemma PoppedBeforeRun(c: Config, enqueued: seq<TaskId>, popped: nat, queue: seq<TaskId>, phase: map<TaskId, Phase>,
                        exec: seq<XPc>, k: nat)
    requires Ordered(c, enqueued, popped, queue, phase) && Located(phase, queue, exec) && k < |enqueued|
    ensures phase[enqueued[k]].Running? ==> k < popped && phase[enqueued[k]].e < c.workers
  {
    if k >= popped {
      assert enqueued[k] == queue[k - popped];
    }
  }

  lemma ReorderedFinish(c: Config, enqueued: seq<TaskId>, popped: nat, queue: seq<TaskId>, phase: map<TaskId, Phase>,
                        exec: seq<XPc>, t: TaskId)
    requires Ordered(c, enqueued, popped, queue, phase) && Located(phase, queue, exec) && Reordered(c, enqueued, phase)
    requires t in phase && phase[t].Running?
    ensures Reordered(c, enqueued, phase[t := Finished])
  {
    var phase' := phase[t := Finished];
    forall k | 0 <= k < |enqueued| && phase'[enqueued[k]].Finished?
      ensures |Behind(enqueued, phase', k)| < c.workers
    {
      assert Behind(enqueued, phase', k) <= Behind(enqueued, phase, k);
      SubsetBound(Behind(enqueued, phase', k), Behind(enqueued, phase, k));
      if enqueued[k] == t {
        PoppedBeforeRun(c, enqueued, popped, queue, phase, exec, k);
        BehindBound(c, enqueued, popped, queue, phase, exec, k, phase[t].e);
      }
    }
  }

  lemma InTurnEnqueue(c: Config, enqueued: seq<TaskId>, popped: nat, exec: seq<XPc>, workerLog: seq<TaskId>, t: TaskId)
    requires InTurn(c, enqueued, popped, exec, workerLog)
    ensures InTurn(c, enqueued + [t], popped, exec, workerLog)
  {
    if c.workers == 1 && |exec| == 2 {
      assert popped <= |enqueued| && (enqueued + [t])[..popped] == enqueued[..popped];
      assert popped > 0 ==> (enqueued + [t])[..popped - 1] == enqueued[..popped - 1];
    }
  }

  lemma InTurnReceive(c: Config, enqueued: seq<TaskId>, popped: nat, queue: seq<TaskId>, exec: seq<XPc>,
                      workerLog: seq<TaskId>, e: Exec)
    requires InTurn(c, enqueued, popped, exec, workerLog) && popped <= |enqueued| && queue == enqueued[popped..]
             && queue != []
    requires e < c.workers && e < |exec| && exec[e].XIdle?
    ensures InTurn(c, enqueued, popped + 1, exec[e := XPerform(queue[0])], workerLog)
  {
  }

  lemma InTurnPerform(c: Config, enqueued: seq<TaskId>, popped: nat, exec: seq<XPc>, workerLog: seq<TaskId>, e: Exec)
    requires InTurn(c, enqueued, popped, exec, workerLog) && e < |exec| && exec[e].XPerform?
    ensures InTurn(c, enqueued, popped, exec[e := XBranch(exec[e].t)], if e < c.workers then workerLog + [exec[e].t]
                   else workerLog)
  {
  }

  lemma InTurnKeep(c: Config, enqueued: seq<TaskId>, popped: nat, exec: seq<XPc>, workerLog: seq<TaskId>, e: Exec,
                   p: XPc)
    requires InTurn(c, enqueued, popped, exec, workerLog) && e < |exec|
    requires e == c.workers || (!exec[e].XPerform? && !p.XPerform?)
    ensures InTurn(c, enqueued, popped, exec[e := p], workerLog)
  {
  }

  // ----- Tokens -----

  lemma TokensMove(counter: map<GroupId, Counter>, tokensSent: map<GroupId, nat>, waited: set<GroupId>, client: CPc,
                   client': CPc, group: map<GroupId, Group>)
    requires Tokens(counter, tokensSent, waited, client, group) && !client.CWait? && !client'.CWait?
             && !client'.CFreeCounter?
    requires client'.CFreeTask? ==> client'.g in waited && client'.g in group && client'.i <= |group[client'.g].tasks|
    ensures Tokens(counter, tokensSent, waited, client', group)
  {
  }

  lemma TokensGroup(counter: map<GroupId, Counter>, tokensSent: map<GroupId, nat>, waited: set<GroupId>,
                    group: map<GroupId, Group>, group': map<GroupId, Group>)
    requires Tokens(counter, tokensSent, waited, CIdle, group)
    ensures Tokens(counter, tokensSent, waited, CIdle, group')
  {
  }

  lemma TokensSubmit(counter: map<GroupId, Counter>, tokensSent: map<GroupId, nat>, waited: set<GroupId>, client: CPc,
                     group: map<GroupId, Group>, g: GroupId, n: nat)
    requires Tokens(counter, tokensSent, waited, client, group) && g !in waited
    ensures Tokens(counter[g := Counter(n, None, 0)], tokensSent[g := 0], waited, client, group)
  {
  }

  lemma TokensWait(counter: map<GroupId, Counter>, tokensSent: map<GroupId, nat>, waited: set<GroupId>,
                   group: map<GroupId, Group>, g: GroupId)
    requires Tokens(counter, tokensSent, waited, CIdle, group) && g !in waited
    ensures Tokens(counter, tokensSent, waited + {g}, CWait(g, g), group)
  {
  }

  lemma TokensTake(counter: map<GroupId, Counter>, tokensSent: map<GroupId, nat>, waited: set<GroupId>, client: CPc,
                   group: map<GroupId, Group>)
    requires Tokens(counter, tokensSent, waited, client, group)
    requires client.CWait? && client.c in counter && counter[client.c].tokens > 0
    ensures Tokens(counter[client.c := counter[client.c].(tokens := counter[client.c].tokens - 1)], tokensSent, waited,
                   CFreeCounter(client.g, client.c), group)
  {
  }

  lemma TokensSame(counter: map<GroupId, Counter>, tokensSent: map<GroupId, nat>, waited: set<GroupId>, client: CPc,
                   group: map<GroupId, Group>, g: GroupId, v: Counter)
    requires Tokens(counter, tokensSent, waited, client, group) && g in counter && v.tokens == counter[g].tokens
    ensures Tokens(counter[g := v], tokensSent, waited, client, group)
  {
  }

  lemma TokensSend(counter: map<GroupId, Counter>, tokensSent: map<GroupId, nat>, waited: set<GroupId>, client: CPc,
                   group: map<GroupId, Group>, g: GroupId)
    requires Tokens(counter, tokensSent, waited, client, group) && g in counter && g in tokensSent
    ensures Tokens(counter[g := counter[g].(tokens := counter[g].tokens + 1)], tokensSent[g := tokensSent[g] + 1],
                   waited, client, group)
  {
  }

  // ----- Freed -----

  predicate Freeing(client: CPc) { client.CWait? || client.CFreeCounter? || client.CFreeTask? }

  lemma FreedMove(task: map<TaskId, Task>, place: map<TaskId, Place>, phase: map<TaskId, Phase>,
                  counter: map<GroupId, Counter>, waited: set<GroupId>, client: CPc, client': CPc,
                  taskFrees: map<TaskId, nat>, counterFrees: map<GroupId, nat>)
    requires Freed(task, place, phase, counter, waited, client, taskFrees, counterFrees)
    requires (!Freeing(client) && !Freeing(client'))
             || (client.CWait? && client'.CFreeCounter? && client'.g == client.g)
    ensures Freed(task, place, phase, counter, waited, client', taskFrees, counterFrees)
  {
  }

  lemma FreedNewTask(task: map<TaskId, Task>, place: map<TaskId, Place>, phase: map<TaskId, Phase>,
                     counter: map<GroupId, Counter>, waited: set<GroupId>, client: CPc, taskFrees: map<TaskId, nat>,
                     counterFrees: map<GroupId, nat>, t: TaskId, v: Task, p: Place)
    requires Freed(task, place, phase, counter, waited, client, taskFrees, counterFrees) && t !in task
             && p.group !in waited
    ensures Freed(task[t := v], place[t := p], phase[t := Fresh], counter, waited, client, taskFrees[t := 0],
                  counterFrees)
  {
  }

  lemma FreedSubmit(task: map<TaskId, Task>, place: map<TaskId, Place>, phase: map<TaskId, Phase>,
                    counter: map<GroupId, Counter>, waited: set<GroupId>, client: CPc, taskFrees: map<TaskId, nat>,
                    counterFrees: map<GroupId, nat>, g: GroupId, v: Counter)
    requires Freed(task, place, phase, counter, waited, client, taskFrees, counterFrees) && g !in waited
    ensures Freed(task, place, phase, counter[g := v], waited, client, taskFrees, counterFrees[g := 0])
  {
  }

  lemma FreedUpdate(task: map<TaskId, Task>, place: map<TaskId, Place>, phase: map<TaskId, Phase>,
                    counter: map<GroupId, Counter>, waited: set<GroupId>, client: CPc, taskFrees: map<TaskId, nat>,
                    counterFrees: map<GroupId, nat>, g: GroupId, v: Counter)
    requires Freed(task, place, phase, counter, waited, client, taskFrees, counterFrees) && g in counter
    ensures Freed(task, place, phase, counter[g := v], waited, client, taskFrees, counterFrees)
  {
  }

  lemma FreedLink(task: map<TaskId, Task>, place: map<TaskId, Place>, phase: map<TaskId, Phase>,
                  counter: map<GroupId, Counter>, waited: set<GroupId>, client: CPc, taskFrees: map<TaskId, nat>,
                  counterFrees: map<GroupId, nat>, t: TaskId, v: Task)
    requires Freed(task, place, phase, counter, waited, client, taskFrees, counterFrees)
    requires t in task && v.waitable == task[t].waitable
    ensures Freed(task[t := v], place, phase, counter, waited, client, taskFrees, counterFrees)
  {
  }

  lemma FreedPhase(task: map<TaskId, Task>, place: map<TaskId, Place>, phase: map<TaskId, Phase>,
                   counter: map<GroupId, Counter>, waited: set<GroupId>, client: CPc, taskFrees: map<TaskId, nat>,
                   counterFrees: map<GroupId, nat>, t: TaskId, p: Phase)
    requires Freed(task, place, phase, counter, waited, client, taskFrees, counterFrees)
    requires t in phase && ((t in task && task[t].waitable) || phase[t].Finished? == p.Finished?)
    ensures Freed(task, place, phase[t := p], counter, waited, client, taskFrees, counterFrees)
  {
  }

  lemma FreedByWorker(task: map<TaskId, Task>, place: map<TaskId, Place>, phase: map<TaskId, Phase>,
                      counter: map<GroupId, Counter>, waited: set<GroupId>, client: CPc, taskFrees: map<TaskId, nat>,
                      counterFrees: map<GroupId, nat>, t: TaskId)
    requires Freed(task, place, phase, counter, waited, client, taskFrees, counterFrees)
    requires t in task && t in phase && t in place && !task[t].waitable && !phase[t].Finished?
    ensures taskFrees[t] == 0
    ensures Freed(task, place, phase[t := Finished], counter, waited, client, taskFrees[t := taskFrees[t] + 1],
                  counterFrees)
  {
  }

  lemma FreedWait(task: map<TaskId, Task>, place: map<TaskId, Place>, phase: map<TaskId, Phase>,
                  counter: map<GroupId, Counter>, waited: set<GroupId>, taskFrees: map<TaskId, nat>,
                  counterFrees: map<GroupId, nat>, g: GroupId)
    requires Freed(task, place, phase, counter, waited, CIdle, taskFrees, counterFrees) && g !in waited
    ensures Freed(task, place, phase, counter, waited + {g}, CWait(g, g), taskFrees, counterFrees)
  {
  }

  lemma FreedCounter(task: map<TaskId, Task>, place: map<TaskId, Place>, phase: map<TaskId, Phase>,
                     counter: map<GroupId, Counter>, waited: set<GroupId>, taskFrees: map<TaskId, nat>,
                     counterFrees: map<GroupId, nat>, g: GroupId)
    requires Freed(task, place, phase, counter, waited, CFreeCounter(g, g), taskFrees, counterFrees) && g in waited
             && g in counter
    ensures counterFrees[g] == 0
    ensures Freed(task, place, phase, counter, waited, CFreeTask(g, 0), taskFrees,
                  counterFrees[g := counterFrees[g] + 1])
  {
  }

  lemma FreedByWaiter(task: map<TaskId, Task>, place: map<TaskId, Place>, phase: map<TaskId, Phase>,
                      counter: map<GroupId, Counter>, waited: set<GroupId>, taskFrees: map<TaskId, nat>,
                      counterFrees: map<GroupId, nat>, g: GroupId, i: nat, t: TaskId)
    requires Freed(task, place, phase, counter, waited, CFreeTask(g, i), taskFrees, counterFrees) && g in waited
    requires t in task && t in phase && t in place && task[t].waitable && place[t] == Place(g, i)
    requires forall u :: u in place && place[u] == place[t] ==> u == t
    ensures taskFrees[t] == 0
    ensures Freed(task, place, phase, counter, waited, CFreeTask(g, i + 1), taskFrees[t := taskFrees[t] + 1],
                  counterFrees)
  {
  }

  lemma FreedDone(task: map<TaskId, Task>, place: map<TaskId, Place>, phase: map<TaskId, Phase>,
                  counter: map<GroupId, Counter>, waited: set<GroupId>, taskFrees: map<TaskId, nat>,
                  counterFrees: map<GroupId, nat>, g: GroupId, n: nat)
    requires Freed(task, place, phase, counter, waited, CFreeTask(g, n), taskFrees, counterFrees)
    requires forall t :: t in place && place[t].group == g ==> place[t].index < n
    ensures Freed(task, place, phase, counter, waited, CIdle, taskFrees, counterFrees)
  {
  }
}

/** What every step of the dispatcher keeps. Each part of the invariant names only the state it is about. */
module DispatchInvariant {
  import opened Prelude
  import opened DispatchModel

  /** Every task sits at one place of one group. */
  ghost predicate Placed(group: map<GroupId, Group>, place: map<TaskId, Place>, task: map<TaskId, Task>) {
    && task.Keys == place.Keys
    && (forall t :: t in place ==>
                      && place[t].group in group && place[t].index < |group[place[t].group].tasks|
                      && group[place[t].group].tasks[place[t].index] == t
                      && task[t].waitable == group[place[t].group].waitable)
    && (forall g, i :: g in group && 0 <= i < |group[g].tasks| ==>
                         group[g].tasks[i] in place && place[group[g].tasks[i]] == Place(g, i))
  }

  /** A counter exists for each waitable group once it is added; only such groups are waited on. */
  ghost predicate Counted(group: map<GroupId, Group>, submitted: set<GroupId>, waited: set<GroupId>,
                          counter: map<GroupId, Counter>)
  {
    && submitted <= group.Keys
    && (forall g :: g in counter <==> g in submitted && group[g].waitable)
    && (forall g :: g in waited ==> g in counter && group[g].tasks != [])
  }

  /** Each task is queued, held by one thread, or in neither place, as its phase says. */
  ghost predicate Located(phase: map<TaskId, Phase>, queue: seq<TaskId>, exec: seq<XPc>) {
    && NoDuplicates(queue)
    && (forall t :: t in queue ==> t in phase && phase[t].Queued?)
    && (forall t :: t in phase && phase[t].Queued? ==> t in queue)
    && (forall e :: 0 <= e < |exec| && exec[e].HasTask() ==> exec[e].t in phase && phase[exec[e].t] == Running(e))
    && (forall t :: t in phase && phase[t].Running? ==>
                      phase[t].e < |exec| && exec[phase[t].e].HasTask() && exec[phase[t].e].t == t)
  }

  /** Not yet handed to the queue or to a thread. */
  predicate Unsent(p: Place, submitted: set<GroupId>, client: CPc) {
    || p.group !in submitted
    || ((client.CLink? || client.CSend?) && client.g == p.group && client.i <= p.index)
    || (client.CRun? && client.g == p.group && client.i < p.index)
  }

  ghost predicate Sent(phase: map<TaskId, Phase>, place: map<TaskId, Place>, submitted: set<GroupId>, client: CPc) {
    && phase.Keys == place.Keys
    && (forall t :: t in phase ==> (phase[t].Fresh? <==> Unsent(place[t], submitted, client)))
    && (client.CLink? || client.CSend? || client.CRun? ==> client.g in submitted)
  }

  /** A task that may be run already points to its group's counter. */
  ghost predicate Pointed(task: map<TaskId, Task>, place: map<TaskId, Place>, phase: map<TaskId, Phase>, client: CPc) {
    && (forall t :: t in task && t in phase && t in place &&
                    (!phase[t].Fresh? || (client.CSend? && place[t] == Place(client.g, client.i))) ==>
                      task[t].privateData == if task[t].waitable then Some(place[t].group) else None)
  }

  /** A thread works on the counter of its task's group; the client, on that of the group it waits for. */
  ghost predicate OnCounter(exec: seq<XPc>, task: map<TaskId, Task>, place: map<TaskId, Place>,
                            counter: map<GroupId, Counter>)
  {
    forall e :: 0 <= e < |exec| ==>
      match exec[e]
      case XLock(t, c) => t in task && t in place && task[t].waitable && place[t].group == c && c in counter
      case XCount(t, c) => t in task && t in place && task[t].waitable && place[t].group == c && c in counter
      case XFree(t) => t in task && !task[t].waitable
      case XUnlock(c, _) => c in counter
      case XToken(c) => c in counter
      case _ => true
  }

  /** Each task's function has been called once, from when its phase says so. */
  ghost predicate Ran(phase: map<TaskId, Phase>, exec: seq<XPc>, log: seq<TaskId>) {
    && (forall t :: t in log ==> t in phase)
    && (forall t :: t in phase ==>
                      multiset(log)[t] ==
                      if phase[t].Fresh? || phase[t].Queued?
                        || (phase[t].Running? && phase[t].e < |exec| && exec[phase[t].e].XPerform?)
                      then 0 else 1)
  }

  function Unfinished(tasks: seq<TaskId>, phase: map<TaskId, Phase>): set<nat> {
    set i: nat | i < |tasks| && tasks[i] in phase && !phase[tasks[i]].Finished?
  }

  /** Each counter equals the number of its group's tasks that have not counted down yet. */
  ghost predicate Counting(group: map<GroupId, Group>, phase: map<TaskId, Phase>, counter: map<GroupId, Counter>) {
    forall g :: g in counter ==> g in group && counter[g].count == |Unfinished(group[g].tasks, phase)|
  }

  ghost predicate Locked(exec: seq<XPc>, counter: map<GroupId, Counter>) {
    && (forall e :: 0 <= e < |exec| && exec[e].HasLock() ==> exec[e].c in counter && counter[exec[e].c].lock == Some(e))
    && (forall g :: g in counter && counter[g].lock.Some? ==>
                      counter[g].lock.value < |exec| && exec[counter[g].lock.value].HasLock()
                        && exec[counter[g].lock.value].c == g)
  }

  /** Counted down to zero and about to send the token. */
  predicate Ending(p: XPc) { (p.XUnlock? && p.last) || p.XToken? }

  /** Exactly one token per counter, sent by the thread that counted to zero. */
  ghost predicate Signalled(exec: seq<XPc>, group: map<GroupId, Group>, counter: map<GroupId, Counter>,
                            tokensSent: map<GroupId, nat>)
  {
    && tokensSent.Keys == counter.Keys
    && (forall e :: 0 <= e < |exec| && exec[e].XUnlock? && exec[e].c in counter ==>
                      (exec[e].last <==> counter[exec[e].c].count == 0))
    && (forall e :: 0 <= e < |exec| && Ending(exec[e]) && exec[e].c in counter ==>
                      counter[exec[e].c].count == 0 && tokensSent[exec[e].c] == 0)
    && (forall e, e' ::
          0 <= e < |exec| && 0 <= e' < |exec| && Ending(exec[e]) && Ending(exec[e']) && exec[e].c == exec[e'].c ==>
            e == e')
    && (forall g :: g in counter ==> tokensSent[g] <= 1 && (tokensSent[g] == 1 ==> counter[g].count == 0))
    && (forall g ::
          g in counter && g in group && counter[g].count == 0 && group[g].tasks != [] && tokensSent[g] == 0 ==>
            exists e :: 0 <= e < |exec| && Ending(exec[e]) && exec[e].c == g)
  }

  /** The client has taken the group's token. */
  predicate Taken(g: GroupId, waited: set<GroupId>, client: CPc) {
    g in waited && !(client.CWait? && client.g == g)
  }

  ghost predicate Tokens(counter: map<GroupId, Counter>, tokensSent: map<GroupId, nat>, waited: set<GroupId>,
                         client: CPc, group: map<GroupId, Group>)
  {
    && (forall g :: g in counter && g in tokensSent ==>
                      counter[g].tokens + (if Taken(g, waited, client) then 1 else 0) == tokensSent[g])
    && (client.CWait? || client.CFreeCounter? ==> client.c == client.g && client.g in waited)
    && (client.CFreeTask? ==> client.g in waited && client.g in group && client.i <= |group[client.g].tasks|)
  }

  predicate CounterGone(g: GroupId, waited: set<GroupId>, client: CPc) {
    g in waited && !((client.CWait? || client.CFreeCounter?) && client.g == g)
  }

  predicate TaskGone(p: Place, waited: set<GroupId>, client: CPc) {
    CounterGone(p.group, waited, client) && !(client.CFreeTask? && client.g == p.group && client.i <= p.index)
  }

  /** Freed at most once, by whom and when the contract says. */
  ghost predicate Freed(task: map<TaskId, Task>, place: map<TaskId, Place>, phase: map<TaskId, Phase>,
                        counter: map<GroupId, Counter>, waited: set<GroupId>, client: CPc, taskFrees: map<TaskId, nat>,
                        counterFrees: map<GroupId, nat>)
  {
    && counterFrees.Keys == counter.Keys
    && taskFrees.Keys == task.Keys
    && (forall g :: g in counterFrees ==> counterFrees[g] == if CounterGone(g, waited, client) then 1 else 0)
    && (forall t :: t in taskFrees && t in place && t in phase && t in task ==>
                      taskFrees[t] == if (if task[t].waitable then TaskGone(place[t], waited, client)
                                          else phase[t].Finished?)
                                      then 1 else 0)
  }

  /** Workers pop in the order of the enqueues. */
  ghost predicate Ordered(c: Config, enqueued: seq<TaskId>, popped: nat, queue: seq<TaskId>,
                          phase: map<TaskId, Phase>) {
    && popped <= |enqueued| && queue == enqueued[popped..]
    && NoDuplicates(enqueued)
    && (forall j :: 0 <= j < |enqueued| ==> enqueued[j] in phase && !phase[enqueued[j]].Fresh?)
    && (forall j :: 0 <= j < popped ==>
                      phase[enqueued[j]].Finished? || (phase[enqueued[j]].Running? && phase[enqueued[j]].e < c.workers))
  }

  /** The tasks enqueued before number k that are still unfinished. */
  function Behind(enqueued: seq<TaskId>, phase: map<TaskId, Phase>, k: nat): set<nat> {
    set j: nat | j < k && j < |enqueued| && enqueued[j] in phase && !phase[enqueued[j]].Finished?
  }

  ghost predicate Reordered(c: Config, enqueued: seq<TaskId>, phase: map<TaskId, Phase>) {
    forall k :: 0 <= k < |enqueued| && enqueued[k] in phase && phase[enqueued[k]].Finished? ==>
      |Behind(enqueued, phase, k)| < c.workers
  }

  /** With one worker, tasks are called in the order they were enqueued. */
  ghost predicate InTurn(c: Config, enqueued: seq<TaskId>, popped: nat, exec: seq<XPc>, workerLog: seq<TaskId>) {
    c.workers == 1 && |exec| == 2 ==>
      if exec[0].XPerform? then
        0 < popped <= |enqueued| && workerLog == enqueued[..popped - 1] && exec[0].t == enqueued[popped - 1]
      else popped <= |enqueued| && workerLog == enqueued[..popped]
  }

  ghost predicate Inv(c: Config, s: State) {
    && |s.exec| == c.workers + 1
    && (s.client.CRun? || s.exec[c.workers].XIdle?)
    && (s.client.CSend? ==> AtTask(s, s.client.g, s.client.i))
    && Placed(s.group, s.place, s.task)
    && Counted(s.group, s.submitted, s.waited, s.counter)
    && Located(s.phase, s.queue, s.exec)
    && Sent(s.phase, s.place, s.submitted, s.client)
    && Pointed(s.task, s.place, s.phase, s.client)
    && OnCounter(s.exec, s.task, s.place, s.counter)
    && Ran(s.phase, s.exec, s.log)
    && Counting(s.group, s.phase, s.counter)
    && Locked(s.exec, s.counter)
    && Signalled(s.exec, s.group, s.counter, s.tokensSent)
    && Tokens(s.counter, s.tokensSent, s.waited, s.client, s.group)
    && Freed(s.task, s.place, s.phase, s.counter, s.waited, s.client, s.taskFrees, s.counterFrees)
    && Ordered(c, s.enqueued, s.popped, s.queue, s.phase)
    && Reordered(c, s.enqueued, s.phase)
    && InTurn(c, s.enqueued, s.popped, s.exec, s.workerLog)
  }
}

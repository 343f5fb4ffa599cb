/** The objects a step is said to access are all it accesses: its effect neither depends on any other task or event
    counter nor changes one. So NothingUsedAfterFree is about every access there is. */
module DispatchFootprint {
  import opened Prelude
  import opened DispatchModel
  import opened DispatchInvariant
  import opened DispatchProof

  /** Other contents for some heap objects. */
  datatype Objects = Objects(tasks: map<TaskId, Task>, counters: map<GroupId, Counter>)

  /** The state with these contents in place of its own. */
  function With(s: State, o: Objects): State { s.(task := s.task + o.tasks, counter := s.counter + o.counters) }

  /** The objects exist and the event is not said to access any of them. */
  ghost predicate Untouched(s: State, ev: Event, o: Objects) {
    && o.tasks.Keys <= s.task.Keys && o.tasks.Keys !! TasksTouched(s, ev)
    && o.counters.Keys <= s.counter.Keys && o.counters.Keys !! CountersTouched(s, ev)
  }

  /** The event can happen with the other contents too, has the same effect, and leaves them alone. */
  ghost predicate Ignores(c: Config, s: State, ev: Event, o: Objects)
    requires Enabled(c, s, ev)
  {
    Enabled(c, With(s, o), ev) && Apply(c, With(s, o), ev) == With(Apply(c, s, ev), o)
  }

  lemma Commutes<K, V>(m: map<K, V>, k: K, v: V, o: map<K, V>)
    requires k !in o
    ensures m[k := v] + o == (m + o)[k := v]
  {
  }

  // ----- a thread that runs tasks -----

  lemma ReceiveIgnores(c: Config, s: State, e: Exec, o: Objects)
    requires CanReceive(c, s, e) && Untouched(s, Run(e), o)
    ensures CanReceive(c, With(s, o), e) && ReceiveStep(With(s, o), e) == With(ReceiveStep(s, e), o)
  {
  }

  lemma PerformIgnores(c: Config, s: State, e: Exec, o: Objects)
    requires CanPerform(s, e) && Untouched(s, Run(e), o)
    ensures CanPerform(With(s, o), e) && PerformStep(c, With(s, o), e) == With(PerformStep(c, s, e), o)
  {
  }

  lemma BranchIgnores(s: State, e: Exec, o: Objects)
    requires CanBranch(s, e) && Untouched(s, Run(e), o)
    ensures CanBranch(With(s, o), e) && BranchStep(With(s, o), e) == With(BranchStep(s, e), o)
  {
    assert s.exec[e].t !in o.tasks;
    assert With(s, o).task[s.exec[e].t] == s.task[s.exec[e].t];
    hide Untouched;
  }

  lemma FreeIgnores(s: State, e: Exec, o: Objects)
    requires CanFree(s, e) && Untouched(s, Run(e), o)
    ensures CanFree(With(s, o), e) && FreeStep(With(s, o), e) == With(FreeStep(s, e), o)
  {
  }

  lemma LockIgnores(s: State, e: Exec, o: Objects)
    requires CanLock(s, e) && Untouched(s, Run(e), o)
    ensures CanLock(With(s, o), e) && LockStep(With(s, o), e) == With(LockStep(s, e), o)
  {
    assert s.exec[e].c !in o.counters && With(s, o).counter[s.exec[e].c] == s.counter[s.exec[e].c];
    hide Untouched;
    Commutes(s.counter, s.exec[e].c, LockStep(s, e).counter[s.exec[e].c], o.counters);
  }

  lemma CountIgnores(s: State, e: Exec, o: Objects)
    requires CanCount(s, e) && Untouched(s, Run(e), o)
    ensures CanCount(With(s, o), e) && CountStep(With(s, o), e) == With(CountStep(s, e), o)
  {
    assert s.exec[e].c !in o.counters && With(s, o).counter[s.exec[e].c] == s.counter[s.exec[e].c];
    hide Untouched;
    Commutes(s.counter, s.exec[e].c, CountStep(s, e).counter[s.exec[e].c], o.counters);
  }

  lemma UnlockIgnores(s: State, e: Exec, o: Objects)
    requires CanUnlock(s, e) && Untouched(s, Run(e), o)
    ensures CanUnlock(With(s, o), e) && UnlockStep(With(s, o), e) == With(UnlockStep(s, e), o)
  {
    assert s.exec[e].c !in o.counters && With(s, o).counter[s.exec[e].c] == s.counter[s.exec[e].c];
    hide Untouched;
    Commutes(s.counter, s.exec[e].c, UnlockStep(s, e).counter[s.exec[e].c], o.counters);
  }

  lemma TokenIgnores(s: State, e: Exec, o: Objects)
    requires CanToken(s, e) && Untouched(s, Run(e), o)
    ensures CanToken(With(s, o), e) && TokenStep(With(s, o), e) == With(TokenStep(s, e), o)
  {
    assert s.exec[e].c !in o.counters && With(s, o).counter[s.exec[e].c] == s.counter[s.exec[e].c];
    hide Untouched;
    var s1, s2 := TokenStep(With(s, o), e), TokenStep(s, e);
    assert s1.counter[s.exec[e].c] == s2.counter[s.exec[e].c];
    Commutes(s.counter, s.exec[e].c, s2.counter[s.exec[e].c], o.counters);
    assert s1.counter == s2.counter + o.counters;
    assert s1.tokensSent == s2.tokensSent;
  }

  lemma RunIgnores(c: Config, s: State, e: Exec, o: Objects)
    requires CanRun(c, s, e) && Untouched(s, Run(e), o)
    ensures CanRun(c, With(s, o), e) && RunStep(c, With(s, o), e) == With(RunStep(c, s, e), o)
  {
    assert With(s, o).exec == s.exec;
    hide With, Untouched, CanReceive, CanPerform, CanBranch, CanFree, CanLock, CanCount, CanUnlock, CanToken;
    hide ReceiveStep, PerformStep, BranchStep, FreeStep, LockStep, CountStep, UnlockStep, TokenStep;
    match s.exec[e]
    case XIdle => ReceiveIgnores(c, s, e, o);
    case XPerform(_) => PerformIgnores(c, s, e, o);
    case XBranch(_) => BranchIgnores(s, e, o);
    case XFree(_) => FreeIgnores(s, e, o);
    case XLock(_, _) => LockIgnores(s, e, o);
    case XCount(_, _) => CountIgnores(s, e, o);
    case XUnlock(_, _) => UnlockIgnores(s, e, o);
    case XToken(_) => TokenIgnores(s, e, o);
  }

  // ----- the client -----

  lemma NewGroupIgnores(c: Config, s: State, g: GroupId, waitable: bool, o: Objects)
    requires CanNewGroup(s, g)
    ensures Enabled(c, s, NewGroup(g, waitable)) && Ignores(c, s, NewGroup(g, waitable), o)
  {
    hide CanRun, RunStep;
  }

  lemma NewTaskIgnores(c: Config, s: State, g: GroupId, t: TaskId, o: Objects)
    requires CanNewTask(s, g, t) && Untouched(s, NewTask(g, t), o)
    ensures Enabled(c, s, NewTask(g, t)) && Ignores(c, s, NewTask(g, t), o)
  {
    hide CanRun, RunStep;
    Commutes(s.task, t, Task(s.group[g].waitable, None), o.tasks);
  }

  lemma SubmitIgnores(c: Config, s: State, g: GroupId, o: Objects)
    requires CanSubmit(s, g) && g !in s.counter && Untouched(s, Submit(g), o)
    ensures Enabled(c, s, Submit(g)) && Ignores(c, s, Submit(g), o)
  {
    hide CanRun, RunStep;
    Commutes(s.counter, g, Counter(|s.group[g].tasks|, None, 0), o.counters);
  }

  lemma LinkMore(s: State, o: Objects)
    requires CanLink(s) && s.client.i < |s.group[s.client.g].tasks| && Untouched(s, Link, o)
    ensures CanLink(With(s, o)) && LinkStep(With(s, o)) == With(LinkStep(s), o)
  {
    var t := s.group[s.client.g].tasks[s.client.i];
    assert t !in o.tasks && With(s, o).task[t] == s.task[t];
    hide Untouched;
    Commutes(s.task, t, LinkStep(s).task[t], o.tasks);
  }

  lemma LinkEnd(s: State, o: Objects)
    requires CanLink(s) && s.client.i >= |s.group[s.client.g].tasks|
    ensures CanLink(With(s, o)) && LinkStep(With(s, o)) == With(LinkStep(s), o)
  {
  }

  lemma LinkIgnores(c: Config, s: State, o: Objects)
    requires CanLink(s) && Untouched(s, Link, o)
    ensures Enabled(c, s, Link) && Ignores(c, s, Link, o)
  {
    if s.client.i < |s.group[s.client.g].tasks| {
      LinkMore(s, o);
    } else {
      LinkEnd(s, o);
    }
    hide CanLink, LinkStep, With, Untouched;
  }

  lemma AddIgnores(c: Config, s: State, ev: Event, o: Objects)
    requires Enabled(c, s, ev) && Untouched(s, ev, o) && (ev.Enqueue? || ev.PitchIn? || ev.Resume?)
    ensures Ignores(c, s, ev, o)
  {
    hide CanRun, RunStep;
  }

  lemma TakeTokenSame(s: State, o: Objects)
    requires CanTakeToken(s) && Untouched(s, TakeToken, o)
    ensures CanTakeToken(With(s, o)) && TakeTokenStep(With(s, o)) == With(TakeTokenStep(s), o)
  {
    assert s.client.c !in o.counters && With(s, o).counter[s.client.c] == s.counter[s.client.c];
    hide Untouched;
    Commutes(s.counter, s.client.c, TakeTokenStep(s).counter[s.client.c], o.counters);
  }

  lemma TakeTokenIgnores(c: Config, s: State, o: Objects)
    requires CanTakeToken(s) && Untouched(s, TakeToken, o)
    ensures Enabled(c, s, TakeToken) && Ignores(c, s, TakeToken, o)
  {
    TakeTokenSame(s, o);
    hide CanTakeToken, TakeTokenStep, With, Untouched;
  }

  lemma WaitIgnores(c: Config, s: State, g: GroupId, o: Objects)
    requires CanWait(s, g) && Untouched(s, Wait(g), o)
    ensures Enabled(c, s, Wait(g)) && Ignores(c, s, Wait(g), o)
  {
    var t := s.group[g].tasks[0];
    assert t !in o.tasks && With(s, o).task[t] == s.task[t];
    hide CanRun, RunStep, Untouched;
  }

  lemma FreesIgnore(c: Config, s: State, ev: Event, o: Objects)
    requires Enabled(c, s, ev) && Untouched(s, ev, o) && (ev.FreeCounter? || ev.FreeTask?)
    ensures Ignores(c, s, ev, o)
  {
    hide CanRun, RunStep;
  }

  /** The footprint is complete: whatever else the objects held that an event is not said to access, it would do the
      same and leave them as they are. */
  lemma OnlyTouched(c: Config, s: State, ev: Event, o: Objects)
    requires Inv(c, s) && Enabled(c, s, ev) && Untouched(s, ev, o)
    ensures Ignores(c, s, ev, o)
  {
    hide Placed, Counted, Located, Sent, Pointed, OnCounter, Ran, Counting, Locked, Signalled, Tokens, Freed, Ordered,
      Reordered, InTurn, CanRun, RunStep, Untouched;
    match ev
    case NewGroup(g, waitable) => NewGroupIgnores(c, s, g, waitable, o);
    case NewTask(g, t) => NewTaskIgnores(c, s, g, t, o);
    case Submit(g) =>
      UnsubmittedUncounted(s, g);
      SubmitIgnores(c, s, g, o);
    case Link => LinkIgnores(c, s, o);
    case Enqueue => AddIgnores(c, s, ev, o);
    case PitchIn => AddIgnores(c, s, ev, o);
    case Resume => AddIgnores(c, s, ev, o);
    case TakeToken => TakeTokenIgnores(c, s, o);
    case Run(e) => RunIgnores(c, s, e, o);
    case Wait(g) => WaitIgnores(c, s, g, o);
    case FreeCounter => FreesIgnore(c, s, ev, o);
    case FreeTask => FreesIgnore(c, s, ev, o);
  }
}

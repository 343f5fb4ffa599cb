/** The host dispatcher's calls from their start: what dispatch_queue_task_add, dispatch_queue_wait and
    dispatch_queue_delete have done by the time they return. */
module HostCalls {
  import opened Prelude
  import opened HostModel
  import opened HostInvariant
  import opened HostProof
  import opened HostTheorems
  import opened HostProgress

  // ----- dispatch_queue_wait -----

  /** The first n jobs are finished, or thread v is in a wait that will not return before they are. */
  ghost predicate Waited(s: State, v: nat, n: nat) {
    || (forall k: Job :: k < n ==> k in s.finished)
    || (v in s.waiters && !s.waiters[v].VIdle? && s.waiters[v].since >= n)
  }

  /** Finished jobs stay finished, and nothing but its own steps moves a thread in its wait. */
  ghost predicate KeepsWaits(s: State, s': State, ev: Event) {
    && s.finished <= s'.finished
    && s'.waiters.Keys == s.waiters.Keys
    && forall v :: v in s.waiters && ev != Await(v) && ev != Awaiting(v) ==> s'.waiters[v] == s.waiters[v]
  }

  /** A worker's step is none of the callers' business. */
  predicate SameCallers(s: State, s': State) {
    && s'.waiters == s.waiters && s'.adders == s.adders && s'.deleter == s.deleter && s'.pushed == s.pushed
    && s.finished <= s'.finished
  }

  lemma LoopSame(s: State, w: nat)
    requires CanWork(s, w) && !s.workers[w].HasJob() && !s.workers[w].WReset? && !s.workers[w].WPop?
    ensures SameCallers(s, LoopStep(s, w))
  {
  }

  lemma JobSame(s: State, w: nat)
    requires CanWork(s, w) && (s.workers[w].HasJob() || s.workers[w].WReset? || s.workers[w].WPop?)
    ensures SameCallers(s, JobStep(s, w))
  {
  }

  lemma WorkSame(s: State, w: nat)
    requires CanWork(s, w)
    ensures SameCallers(s, WorkStep(s, w))
  {
    hide SameCallers, LoopStep, JobStep;
    if s.workers[w].HasJob() || s.workers[w].WReset? || s.workers[w].WPop? {
      JobSame(s, w);
    } else {
      LoopSame(s, w);
    }
  }

  lemma AddingKeepsWaits(s: State, a: nat)
    requires CanAdding(s, a)
    ensures AddingStep(s, a).finished == s.finished && AddingStep(s, a).waiters == s.waiters
  {
  }

  lemma DeletingKeepsWaits(s: State)
    requires CanDeleting(s)
    ensures DeletingStep(s).finished == s.finished && DeletingStep(s).waiters == s.waiters
  {
  }

  lemma AwaitingKeepsWaits(s: State, v: nat)
    requires CanAwaiting(s, v)
    ensures KeepsWaits(s, AwaitingStep(s, v), Awaiting(v))
  {
  }

  lemma StepKeepsWaits(s: State, ev: Event)
    requires Enabled(s, ev)
    ensures KeepsWaits(s, Apply(s, ev), ev)
  {
    hide WorkStep, CanWork, AddingStep, CanAdding, AwaitingStep, CanAwaiting, DeletingStep, CanDeleting;
    match ev
    case Work(w) => WorkSame(s, w);
    case Adding(a) => AddingKeepsWaits(s, a);
    case Deleting => DeletingKeepsWaits(s);
    case Awaiting(v) => AwaitingKeepsWaits(s, v);
    case _ =>
  }

  lemma ReturningDone(s: State, v: nat)
    requires Jobs(s.workers, s.deque, s.pushed, s.popped, s.runner, s.finished)
    requires Awaits(s.waiters, s.pushed, s.popped, s.runner, s.finished, |s.workers|)
    requires v in s.waiters && s.waiters[v].VReturn?
    ensures forall k: Job :: k < s.waiters[v].since ==> k in s.finished
  {
    assert Knows(s.waiters[v], s.pushed, s.popped, s.runner, s.finished, |s.workers|);
    assert forall k: Job :: k < s.waiters[v].since ==> k in s.runner;
  }

  lemma AwaitingWaited(s: State, v: nat, n: nat)
    requires Inv(s) && CanAwaiting(s, v) && Waited(s, v, n)
    ensures Waited(AwaitingStep(s, v), v, n)
  {
    hide Locks, Jobs, Called, NotReady, Awaits, Served, Quits;
    AwaitingKeepsWaits(s, v);
    if s.waiters[v].VReturn? {
      ReturningDone(s, v);
    }
  }

  lemma StepWaited(s: State, ev: Event, v: nat, n: nat)
    requires Inv(s) && Enabled(s, ev) && Waited(s, v, n)
    ensures Waited(Apply(s, ev), v, n)
  {
    hide Inv;
    StepKeepsWaits(s, ev);
    if ev == Awaiting(v) {
      AwaitingWaited(s, v, n);
    } else if ev != Await(v) {
      hide Apply, Enabled;
    }
  }

  lemma {:induction false} RunWaited(run: seq<State>, i: nat, j: nat, v: nat, n: nat)
    requires IsRun(run) && i <= j < |run| && Waited(run[i], v, n)
    ensures Waited(run[j], v, n)
    decreases j
  {
    hide Inv, Init, Enabled, Apply, Waited;
    if i < j {
      RunWaited(run, i, j - 1, v, n);
      RunInv(run, j - 1);
      assert Next(run[j - 1], run[j - 1 + 1]);
      var ev :| Enabled(run[j - 1], ev) && run[j] == Apply(run[j - 1], ev);
      StepWaited(run[j - 1], ev, v, n);
    }
  }

  /** dispatch_queue_wait from call to return: once thread v is outside it again, every job pushed before the call has
      been
      performed once and finished, whatever is added meanwhile. */
  lemma WaitReturnsDone(run: seq<State>, i: nat, j: nat, v: nat, n: Job)
    requires IsRun(run) && i < j < |run| && Enabled(run[i], Await(v)) && run[i + 1] == Apply(run[i], Await(v))
    requires v in run[j].waiters && run[j].waiters[v].VIdle? && n < run[i].pushed
    ensures n in run[j].finished && multiset(run[j].log)[n] == 1
  {
    hide IsRun;
    assert Waited(run[i + 1], v, run[i].pushed);
    hide Enabled, Apply;
    RunWaited(run, i + 1, j, v, run[i].pushed);
    EachJobOnce(run, j, n);
  }

  // ----- dispatch_queue_task_add -----

  /** A run and the events it is made of. */
  ghost predicate Traces(run: seq<State>, events: seq<Event>) {
    && |run| == |events| + 1 && Init(run[0])
    && forall i :: 0 <= i < |events| ==> Enabled(run[i], events[i]) && run[i + 1] == Apply(run[i], events[i])
  }

  lemma TraceIsRun(run: seq<State>, events: seq<Event>)
    requires Traces(run, events)
    ensures IsRun(run)
  {
    hide Init, Enabled, Apply;
    forall i | 0 <= i < |run| - 1 ensures Next(run[i], run[i + 1]) {
      assert Enabled(run[i], events[i]);
    }
  }

  /** The number of calls that add a task. */
  function Adds(events: seq<Event>): nat {
    if events == [] then 0
    else Adds(events[..|events| - 1]) + if events[|events| - 1].Add? then 1 else 0
  }

  /** Threads that have called but not pushed yet. */
  function Unpushed(adders: map<nat, APc>): set<nat> {
    set a | a in adders && (adders[a].ALock? || adders[a].APush?)
  }

  /** Calls begun and tasks pushed or about to be, before and after a step. */
  ghost predicate Accounts(s: State, s': State, calls: nat) {
    s'.pushed + |Unpushed(s'.adders)| == s.pushed + |Unpushed(s.adders)| + calls
  }

  lemma AdderAccounts(adders: map<nat, APc>, a: nat, p: APc)
    requires a in adders
    ensures |Unpushed(adders[a := p])| ==
            |Unpushed(adders)| - (if adders[a].ALock? || adders[a].APush? then 1 else 0)
            + (if p.ALock? || p.APush? then 1 else 0)
  {
    var before, after := Unpushed(adders), Unpushed(adders[a := p]);
    assert before - {a} == after - {a};
    Without(before, a);
    Without(after, a);
  }

  lemma Without(xs: set<nat>, a: nat)
    ensures |xs| == |xs - {a}| + if a in xs then 1 else 0
  {
    if a in xs {
      assert xs == xs - {a} + {a};
    } else {
      assert xs == xs - {a};
    }
  }

  lemma AddingAccounts(s: State, a: nat)
    requires CanAdding(s, a)
    ensures Accounts(s, AddingStep(s, a), 0)
  {
    AdderAccounts(s.adders, a, AddingStep(s, a).adders[a]);
    hide Unpushed;
  }

  lemma AwaitingAddsNone(s: State, v: nat)
    requires CanAwaiting(s, v)
    ensures AwaitingStep(s, v).adders == s.adders && AwaitingStep(s, v).pushed == s.pushed
  {
  }

  lemma DeletingAddsNone(s: State)
    requires CanDeleting(s)
    ensures DeletingStep(s).adders == s.adders && DeletingStep(s).pushed == s.pushed
  {
  }

  lemma StepAccounts(s: State, ev: Event)
    requires Enabled(s, ev)
    ensures Accounts(s, Apply(s, ev), if ev.Add? then 1 else 0)
  {
    hide WorkStep, CanWork, AddingStep, CanAdding, AwaitingStep, CanAwaiting, DeletingStep, CanDeleting, Unpushed;
    match ev
    case Add(a) => AdderAccounts(s.adders, a, ALock);
    case Adding(a) => AddingAccounts(s, a);
    case NotifyOne(a, _) => AdderAccounts(s.adders, a, AIdle);
    case NotifyNone(a) => AdderAccounts(s.adders, a, AIdle);
    case Work(w) => WorkSame(s, w);
    case Awaiting(v) => AwaitingAddsNone(s, v);
    case Deleting => DeletingAddsNone(s);
    case _ =>
  }

  /** No add is lost: the calls so far are the tasks pushed and the threads still about to push theirs. */
  lemma {:induction false} AddsCounted(run: seq<State>, events: seq<Event>, k: nat)
    requires Traces(run, events) && k <= |events|
    ensures Adds(events[..k]) == run[k].pushed + |Unpushed(run[k].adders)|
  {
    if k == 0 {
      assert Unpushed(run[0].adders) == {};
    } else {
      hide Init, Enabled, Apply, Unpushed;
      AddsCounted(run, events, k - 1);
      assert events[..k][..k - 1] == events[..k - 1];
      assert Enabled(run[k - 1], events[k - 1]) && run[k - 1 + 1] == Apply(run[k - 1], events[k - 1]);
      StepAccounts(run[k - 1], events[k - 1]);
    }
  }

  /** Every task added is performed exactly once: when nothing can go on before quit, as many jobs were performed, each
      once, as there were calls that added a task, and no others. */
  lemma AddedArePerformed(run: seq<State>, events: seq<Event>, n: Job)
    requires Traces(run, events) && |run[|events|].workers| > 0
    requires !CanContinue(run[|events|]) && !run[|events|].quit
    ensures n < Adds(events) <==> n in run[|events|].finished
    ensures multiset(run[|events|].log)[n] == if n < Adds(events) then 1 else 0
  {
    var s := run[|events|];
    hide Traces, CanContinue, Unpushed, IsRun;
    TraceIsRun(run, events);
    StuckMeansDone(run, |events|);
    AddsCounted(run, events, |events|);
    assert events[..|events|] == events;
    NoneUnpushed(s.adders);
    EachJobOnce(run, |events|, n);
    FinishedPushed(run, |events|, n);
  }

  lemma NoneUnpushed(adders: map<nat, APc>)
    requires forall a :: a in adders ==> adders[a].AIdle?
    ensures Unpushed(adders) == {}
  {
  }

  lemma FinishedPushed(run: seq<State>, i: nat, n: Job)
    requires IsRun(run) && i < |run|
    ensures n in run[i].finished ==> n < run[i].pushed
    ensures n in run[i].log ==> n < run[i].pushed
    ensures n !in run[i].log ==> multiset(run[i].log)[n] == 0
  {
    RunInv(run, i);
  }

  // ----- dispatch_queue_delete -----

  lemma DeleteGoesOn(s: State, ev: Event)
    requires Enabled(s, ev) && !s.deleter.DIdle?
    ensures !Apply(s, ev).deleter.DIdle?
  {
    hide WorkStep, CanWork, AddingStep, CanAdding, AwaitingStep, CanAwaiting;
    match ev
    case Work(w) => WorkSame(s, w);
    case Adding(a) => AddingDeletesNone(s, a);
    case Awaiting(v) => AwaitingDeletesNone(s, v);
    case _ =>
  }

  lemma AddingDeletesNone(s: State, a: nat)
    requires CanAdding(s, a)
    ensures AddingStep(s, a).deleter == s.deleter
  {
  }

  lemma AwaitingDeletesNone(s: State, v: nat)
    requires CanAwaiting(s, v)
    ensures AwaitingStep(s, v).deleter == s.deleter
  {
  }

  lemma {:induction false} DeleteUnderWay(run: seq<State>, i: nat, j: nat)
    requires IsRun(run) && i <= j < |run| && !run[i].deleter.DIdle?
    ensures !run[j].deleter.DIdle?
    decreases j
  {
    hide Init, Enabled, Apply;
    if i < j {
      DeleteUnderWay(run, i, j - 1);
      assert Next(run[j - 1], run[j - 1 + 1]);
      var ev :| Enabled(run[j - 1], ev) && run[j] == Apply(run[j - 1], ev);
      DeleteGoesOn(run[j - 1], ev);
    }
  }

  /** dispatch_queue_delete from its call: it ends only with quit set and every worker exited, and it does end, for
      where
      nothing can go on it has. */
  lemma DeleteReturnsDone(run: seq<State>, i: nat, j: nat)
    requires IsRun(run) && i < j < |run| && Enabled(run[i], Delete) && run[i + 1] == Apply(run[i], Delete)
    ensures run[j].deleter.DDone? || (!run[j].deleter.DIdle? && CanContinue(run[j]))
    ensures run[j].deleter.DDone? ==> run[j].quit && forall w :: 0 <= w < |run[j].workers| ==> run[j].workers[w].WExit?
  {
    hide IsRun, CanContinue;
    assert !run[i + 1].deleter.DIdle?;
    hide Enabled, Apply;
    DeleteUnderWay(run, i + 1, j);
    DeleteCompletes(run, j);
    RunInv(run, j);
    hide Locks, Jobs, Called, NotReady, Awaits, Served;
  }
}

/** The bare-metal dispatch_queue_wait: it counts the workers whose status flag is busy, one after the other, then reads
    the size of the queue, and returns when both are zero. A worker sets its flag only after it has popped a task. */
module DispatchWait {
  import opened Prelude
  import opened DispatchModel
  import opened DispatchInvariant
  import opened DispatchProof
  import opened DispatchTheorems
  import opened DispatchProgress

  /** Where a worker is with respect to its flag. */
  datatype Stage =
    | Out       // in queue_receive; the flag says ready
    | Popped    // has a task and is about to set the flag, which still says ready
    | Inside    // in run_task, or about to clear the flag, which says busy

  /** Where the client is in dispatch_queue_wait; busy counts the busy flags seen. */
  datatype Scan =
    | Away
    | Flags(i: nat, busy: nat)    // about to read the flag of worker i, or done with the flags
    | Size(busy: nat)             // about to read the size of the queue
    | Returned

  /** The dispatcher with its status flags and its client's wait. */
  datatype Whole = Whole(d: State, stage: seq<Stage>, scan: Scan)

  datatype Step =
    | Dispatch(ev: Event)
    | SetBusy(e: Exec)
    | SetReady(e: Exec)
    | Call | ReadFlag | ReadSize | Leave

  ghost predicate Start(c: Config, w: Whole) {
    Init(c, w.d) && w.scan.Away? && w.stage == seq(c.workers, _ => Out)
  }

  /** While the client is in its wait, only the threads that run tasks go on. */
  predicate CanDispatch(c: Config, w: Whole, ev: Event) {
    && Enabled(c, w.d, ev)
    && (!ev.Run? ==> w.scan.Away?)
    && (ev.Run? && ev.e < c.workers && ev.e < |w.stage| && ev.e < |w.d.exec| ==>
          if w.d.exec[ev.e].XIdle? then w.stage[ev.e].Out? else w.stage[ev.e].Inside?)
  }

  function DispatchStep(c: Config, w: Whole, ev: Event): Whole
    requires CanDispatch(c, w, ev)
  {
    w.(d := Apply(c, w.d, ev),
    stage := if ev.Run? && ev.e < |w.stage| && ev.e < |w.d.exec| && w.d.exec[ev.e].XIdle?
    then w.stage[ev.e := Popped] else w.stage)
  }

  predicate Can(c: Config, w: Whole, step: Step) {
    match step
    case Dispatch(ev) => CanDispatch(c, w, ev)
    case SetBusy(e) => e < |w.stage| && w.stage[e].Popped?
    case SetReady(e) => e < |w.stage| && e < |w.d.exec| && w.stage[e].Inside? && w.d.exec[e].XIdle?
    case Call => w.scan.Away? && w.d.client.CIdle?
    case ReadFlag => w.scan.Flags?
    case ReadSize => w.scan.Size?
    case Leave => w.scan.Returned?
  }

  function Do(c: Config, w: Whole, step: Step): Whole
    requires Can(c, w, step)
  {
    match step
    case Dispatch(ev) => DispatchStep(c, w, ev)
    case SetBusy(e) => w.(stage := w.stage[e := Inside])
    case SetReady(e) => w.(stage := w.stage[e := Out])
    case Call => w.(scan := Flags(0, 0))
    case ReadFlag =>
      var i := w.scan.i;
      w.(scan := if i < |w.stage| then Flags(i + 1, w.scan.busy + if w.stage[i].Inside? then 1 else 0)
      else Size(w.scan.busy))
    case ReadSize => w.(scan := if w.scan.busy + |w.d.queue| == 0 then Returned else Flags(0, 0))
    case Leave => w.(scan := Away)
  }

  ghost predicate WholeNext(c: Config, w: Whole, w': Whole) {
    exists step :: Can(c, w, step) && w' == Do(c, w, step)
  }

  ghost predicate IsWholeRun(c: Config, run: seq<Whole>) {
    && |run| > 0
    && Start(c, run[0])
    && forall i :: 0 <= i < |run| - 1 ==> WholeNext(c, run[i], run[i + 1])
  }

  // ----- what every step keeps -----

  ghost predicate Staged(c: Config, exec: seq<XPc>, stage: seq<Stage>) {
    && |stage| == c.workers && |exec| == c.workers + 1
    && (forall e :: 0 <= e < c.workers && stage[e].Out? ==> exec[e].XIdle?)
    && (forall e :: 0 <= e < c.workers && stage[e].Popped? ==> exec[e].XPerform?)
  }

  ghost predicate WholeInv(c: Config, w: Whole) {
    Inv(c, w.d) && Staged(c, w.d.exec, w.stage) && (!w.scan.Away? ==> w.d.client.CIdle?)
  }

  lemma ClientKeepsWorkers(c: Config, s: State, ev: Event)
    requires Enabled(c, s, ev) && !ev.Run? && |s.exec| == c.workers + 1
    ensures SameWorkers(c, s, Apply(c, s, ev))
  {
    if ev.PitchIn? {
      SamePitchIn(c, s);
    } else {
      hide Enabled, Apply;
      OnlyWaitFrees(c, s, ev);
    }
  }

  ghost predicate SameWorkers(c: Config, s: State, s': State) {
    |s'.exec| == |s.exec| == c.workers + 1 && forall e :: 0 <= e < c.workers ==> s'.exec[e] == s.exec[e]
  }

  lemma SamePitchIn(c: Config, s: State)
    requires |s.exec| == c.workers + 1
    ensures CanPitchIn(c, s) ==> SameWorkers(c, s, PitchInStep(c, s))
  {
  }

  lemma DispatchStaged(c: Config, w: Whole, ev: Event)
    requires CanDispatch(c, w, ev) && Staged(c, w.d.exec, w.stage) && |w.d.exec| == c.workers + 1
    ensures var w' := DispatchStep(c, w, ev); Staged(c, w'.d.exec, w'.stage) && (ev.Run? ==> w'.d.client == w.d.client)
  {
    if ev.Run? {
      RunStepRuns(c, w.d, ev.e);
      hide CanRun, RunStep;
    } else {
      ClientKeepsWorkers(c, w.d, ev);
      hide Enabled, Apply;
    }
  }

  lemma WholeStep(c: Config, w: Whole, step: Step)
    requires WholeInv(c, w) && Can(c, w, step)
    ensures WholeInv(c, Do(c, w, step))
  {
    hide Inv;
    if step.Dispatch? {
      ExecCount(c, w.d);
      DispatchStaged(c, w, step.ev);
      StepInv(c, w.d, step.ev);
    }
  }

  lemma ExecCount(c: Config, s: State)
    requires Inv(c, s)
    ensures |s.exec| == c.workers + 1 && (s.client.CIdle? ==> s.exec[c.workers].XIdle?)
  {
  }

  lemma {:induction false} WholeRunInv(c: Config, run: seq<Whole>, i: nat)
    requires IsWholeRun(c, run) && i < |run|
    ensures WholeInv(c, run[i])
  {
    hide Inv, Init, Can, Do;
    if i == 0 {
      InitInv(c, run[0].d);
      ExecCount(c, run[0].d);
      StartIdle(c, run[0]);
    } else {
      WholeRunInv(c, run, i - 1);
      assert WholeNext(c, run[i - 1], run[i - 1 + 1]);
      var step :| Can(c, run[i - 1], step) && run[i] == Do(c, run[i - 1], step);
      WholeStep(c, run[i - 1], step);
    }
  }

  lemma StartIdle(c: Config, w: Whole)
    requires Start(c, w)
    ensures Staged(c, w.d.exec, w.stage)
  {
  }

  // ----- when it is a guarantee -----

  /** What a task may still lack when the wait returns: its call, or only its end. */
  datatype Lack = NotCalled | NotFinished

  /** Some task that was handed over lacks it. */
  ghost predicate Lacking(s: State, k: Lack) {
    exists t :: t in s.place && t in s.phase && s.place[t].group in s.submitted
                && (k.NotCalled? ==> multiset(s.log)[t] == 0) && !s.phase[t].Finished?
  }

  ghost predicate TooEarly(w: Whole, k: Lack) { w.scan.Returned? && Lacking(w.d, k) }

  /** Some schedule makes the wait under way return too early, within n steps. */
  ghost predicate EarlyWithin(c: Config, w: Whole, k: Lack, n: nat)
    decreases n
  {
    || TooEarly(w, k)
    || (n > 0 && exists step: Step :: !step.Leave? && Can(c, w, step) && EarlyWithin(c, Do(c, w, step), k, n - 1))
  }

  ghost predicate CanReturnEarly(c: Config, w: Whole, k: Lack) {
    exists n: nat :: EarlyWithin(c, w, k, n)
  }

  /** A task is queued, or a worker has popped one and not yet set its flag. */
  predicate Unseen(w: Whole) {
    w.d.queue != [] || exists e :: 0 <= e < |w.stage| && w.stage[e].Popped?
  }

  /** What the wait knows if nothing was unseen at its call: workers it saw ready are out for good. */
  ghost predicate Seen(w: Whole) {
    && !Unseen(w)
    && match w.scan
       case Away => false
       case Flags(i, busy) => busy == 0 ==> forall e :: 0 <= e < i && e < |w.stage| ==> w.stage[e].Out?
       case Size(busy) => busy == 0 ==> forall e :: 0 <= e < |w.stage| ==> w.stage[e].Out?
       case Returned => forall e :: 0 <= e < |w.stage| ==> w.stage[e].Out?
  }

  lemma SeenStep(c: Config, w: Whole, step: Step)
    requires WholeInv(c, w) && Seen(w) && Can(c, w, step) && !step.Leave?
    ensures Seen(Do(c, w, step))
  {
    hide Inv;
    if step.Dispatch? {
      RunStepRuns(c, w.d, step.ev.e);
      hide CanRun, RunStep;
    }
  }

  /** Nothing queued and nobody running: every task handed over is finished. */
  lemma IdleMeansDone(c: Config, s: State, t: TaskId)
    requires Inv(c, s) && s.client.CIdle? && s.queue == [] && (forall e :: 0 <= e < c.workers ==> s.exec[e].XIdle?)
    requires t in s.place && s.place[t].group in s.submitted
    ensures t in s.phase && s.phase[t].Finished? && multiset(s.log)[t] == 1
  {
    hide Placed, Counted, Located, Sent, Pointed, OnCounter, Ran, Counting, Locked, Signalled, Tokens, Freed, Ordered,
      Reordered, InTurn;
    KeysAgree(s);
    if !s.phase[t].Finished? {
      UnfinishedWhere(s, t);
    }
    RanOnce(s, t);
  }

  lemma SeenMeansDone(c: Config, w: Whole)
    requires WholeInv(c, w) && Seen(w) && w.scan.Returned?
    ensures forall t :: t in w.d.place && w.d.place[t].group in w.d.submitted ==>
                          t in w.d.phase && w.d.phase[t].Finished? && multiset(w.d.log)[t] == 1
  {
    hide Inv;
    ExecCount(c, w.d);
    forall t | t in w.d.place && w.d.place[t].group in w.d.submitted
      ensures t in w.d.phase && w.d.phase[t].Finished? && multiset(w.d.log)[t] == 1
    {
      IdleMeansDone(c, w.d, t);
    }
  }

  lemma {:induction false} SeenNeverEarly(c: Config, w: Whole, k: Lack, n: nat)
    requires WholeInv(c, w) && Seen(w)
    ensures !EarlyWithin(c, w, k, n)
    decreases n
  {
    hide WholeInv, Seen, Can, Do, Lacking;
    if TooEarly(w, k) {
      NotEarly(c, w, k);
    } else if n > 0 {
      forall step: Step | !step.Leave? && Can(c, w, step)
        ensures !EarlyWithin(c, Do(c, w, step), k, n - 1)
      {
        WholeStep(c, w, step);
        SeenStep(c, w, step);
        SeenNeverEarly(c, Do(c, w, step), k, n - 1);
      }
    }
  }

  lemma NotEarly(c: Config, w: Whole, k: Lack)
    requires WholeInv(c, w) && Seen(w)
    ensures !TooEarly(w, k)
  {
    hide WholeInv, Seen;
    if TooEarly(w, k) {
      SeenMeansDone(c, w);
    }
  }

  // ----- when it is not -----

  lemma Sooner(c: Config, w: Whole, k: Lack, step: Step, n: nat)
    requires !step.Leave? && Can(c, w, step) && EarlyWithin(c, Do(c, w, step), k, n)
    ensures EarlyWithin(c, w, k, n + 1)
  {
  }

  /** With no flag busy, the scan passes all workers. */
  lemma {:induction false} ScanPasses(c: Config, w: Whole, k: Lack, n: nat) returns (m: nat)
    requires w.scan.Flags? && w.scan.busy == 0 && forall e :: 0 <= e < |w.stage| ==> !w.stage[e].Inside?
    requires EarlyWithin(c, w.(scan := Size(0)), k, n)
    ensures EarlyWithin(c, w, k, m)
    decreases |w.stage| - w.scan.i
  {
    hide EarlyWithin;
    m := n;
    if w.scan.i < |w.stage| {
      m := ScanPasses(c, w.(scan := Flags(w.scan.i + 1, 0)), k, n);
    }
    Sooner(c, w, k, ReadFlag, m);
    m := m + 1;
  }

  /** At the size of an empty queue, with a worker that has popped a task: the wait returns. */
  lemma ReturnsEarly(c: Config, w: Whole, k: Lack, e: Exec)
    requires WholeInv(c, w) && w.scan == Size(0) && w.d.queue == [] && e < |w.stage| && w.stage[e].Popped?
    ensures EarlyWithin(c, w, k, 1)
  {
    hide Inv;
    PoppedLacks(c, w, k, e);
    hide Lacking;
    assert Can(c, w, ReadSize) && TooEarly(Do(c, w, ReadSize), k);
    assert EarlyWithin(c, Do(c, w, ReadSize), k, 0);
  }

  lemma PoppedLacks(c: Config, w: Whole, k: Lack, e: Exec)
    requires WholeInv(c, w) && w.d.client.CIdle? && e < |w.stage| && w.stage[e].Popped?
    ensures Lacking(w.d, k)
  {
    hide Placed, Counted, Located, Sent, Pointed, OnCounter, Counting, Locked, Signalled, Tokens, Freed, Ordered,
      Reordered, Ran, InTurn;
    RunningPoints(c, w.d, e);
    var t := w.d.exec[e].t;
    RunningSubmitted(w.d, t);
    NotRan(w.d, e);
  }

  lemma RunningSubmitted(s: State, t: TaskId)
    requires Sent(s.phase, s.place, s.submitted, s.client) && t in s.phase && s.phase[t].Running?
    ensures t in s.place && s.place[t].group in s.submitted
  {
  }

  lemma NotRan(s: State, e: Exec)
    requires Ran(s.phase, s.exec, s.log) && e < |s.exec| && s.exec[e].XPerform?
    requires s.exec[e].t in s.phase && s.phase[s.exec[e].t] == Running(e)
    ensures multiset(s.log)[s.exec[e].t] == 0
  {
  }

  function StageWork(p: Stage): nat {
    match p
    case Out => 0
    case Popped => 2
    case Inside => 1
  }

  function StagesWork(stage: seq<Stage>): nat {
    if stage == [] then 0 else StageWork(stage[0]) + StagesWork(stage[1..])
  }

  lemma {:induction false} StagesWorkUpdate(stage: seq<Stage>, e: Exec, p: Stage)
    requires e < |stage|
    ensures StagesWork(stage[e := p]) == StagesWork(stage) - StageWork(stage[e]) + StageWork(p)
  {
    if e == 0 {
      assert stage[e := p][1..] == stage[1..];
    } else {
      StagesWorkUpdate(stage[1..], e - 1, p);
      assert stage[e := p][1..] == stage[1..][e - 1 := p];
    }
  }

  /** A step of a worker that leaves queue and scan alone and uses up work. */
  ghost predicate Quiet(w: Whole, w': Whole) {
    && w'.scan == w.scan && w'.d.queue == w.d.queue && |w'.stage| == |w.stage|
    && 3 * Work(w'.d) + StagesWork(w'.stage) < 3 * Work(w.d) + StagesWork(w.stage)
  }

  lemma FlagStep(c: Config, w: Whole, step: Step)
    requires (step.SetBusy? || step.SetReady?) && Can(c, w, step)
    ensures Quiet(w, Do(c, w, step))
  {
    hide Work;
    StagesWorkUpdate(w.stage, step.e, if step.SetBusy? then Inside else Out);
  }

  lemma TaskStep(c: Config, w: Whole, h: Exec)
    requires CanDispatch(c, w, Run(h)) && h < |w.d.exec| && !w.d.exec[h].XIdle?
    ensures Quiet(w, DispatchStep(c, w, Run(h))) && DispatchStep(c, w, Run(h)).stage == w.stage
  {
    RunStepRuns(c, w.d, h);
    WorkDecreases(c, w.d, Run(h));
    hide Work, CanRun, RunStep;
  }

  /** While some worker is not out, some worker can go on; and if that is not worker p, which has popped a task, then
      it need not be p. */
  lemma SomeWorker(c: Config, w: Whole, e: Exec, p: Exec) returns (step: Step)
    requires WholeInv(c, w) && w.d.client.CIdle? && e < |w.stage| && !w.stage[e].Out?
    ensures !step.Leave? && Can(c, w, step) && Quiet(w, Do(c, w, step))
    ensures p < |w.stage| && e != p && w.stage[p].Popped? ==> Do(c, w, step).stage[p].Popped?
  {
    hide Inv;
    ExecCount(c, w.d);
    if w.stage[e].Popped? {
      step := SetBusy(e);
      FlagStep(c, w, step);
    } else if w.d.exec[e].XIdle? {
      step := SetReady(e);
      FlagStep(c, w, step);
    } else {
      var h := BusyCanRun(c, w.d, e);
      hide CanRun, RunStep;
      step := Dispatch(Run(h));
      TaskStep(c, w, h);
    }
  }

  /** Worker p has popped a task and is not scheduled again; the others finish, and the wait returns. */
  lemma {:induction false} StalledWorker(c: Config, w: Whole, k: Lack, p: Exec) returns (n: nat)
    requires WholeInv(c, w) && w.scan == Flags(0, 0) && w.d.queue == [] && p < |w.stage| && w.stage[p].Popped?
    ensures EarlyWithin(c, w, k, n)
    decreases 3 * Work(w.d) + StagesWork(w.stage)
  {
    hide Inv, Work, StagesWork, EarlyWithin;
    if e :| 0 <= e < |w.stage| && e != p && !w.stage[e].Out? {
      var step := SomeWorker(c, w, e, p);
      WholeStep(c, w, step);
      n := StalledWorker(c, Do(c, w, step), k, p);
      Sooner(c, w, k, step, n);
      n := n + 1;
    } else {
      ReturnsEarly(c, w.(scan := Size(0)), k, p);
      n := ScanPasses(c, w, k, 1);
    }
  }

  /** A worker takes a task from the queue. */
  lemma TakeOne(c: Config, w: Whole, e: Exec)
    requires WholeInv(c, w) && w.d.queue != [] && e < |w.stage| && w.stage[e].Out?
    ensures Can(c, w, Dispatch(Run(e)))
    ensures var w' := Do(c, w, Dispatch(Run(e)));
            && w'.scan == w.scan && w'.d.queue == w.d.queue[1..] && w'.stage == w.stage[e := Popped]
            && 3 * Work(w'.d) + StagesWork(w'.stage) < 3 * Work(w.d) + StagesWork(w.stage)
  {
    hide Inv;
    StagesWorkUpdate(w.stage, e, Popped);
    RunStepRuns(c, w.d, e);
    WorkDecreases(c, w.d, Run(e));
    hide Work;
  }

  /** The workers take and finish all tasks but the last; the scan passes them, and the last task is popped before
      the size is read. */
  lemma {:induction false} LastTask(c: Config, w: Whole, k: Lack) returns (n: nat)
    requires WholeInv(c, w) && w.scan == Flags(0, 0) && w.d.queue != [] && c.workers > 0
    ensures EarlyWithin(c, w, k, n)
    decreases 3 * Work(w.d) + StagesWork(w.stage)
  {
    hide Inv, Work, StagesWork, EarlyWithin;
    if e :| 0 <= e < |w.stage| && !w.stage[e].Out? {
      var step := SomeWorker(c, w, e, e);
      WholeStep(c, w, step);
      n := LastTask(c, Do(c, w, step), k);
      Sooner(c, w, k, step, n);
      n := n + 1;
    } else if |w.d.queue| > 1 {
      var step := Dispatch(Run(0));
      TakeOne(c, w, 0);
      WholeStep(c, w, step);
      n := LastTask(c, Do(c, w, step), k);
      Sooner(c, w, k, step, n);
      n := n + 1;
    } else {
      var w' := w.(scan := Size(0));
      TakeOne(c, w', 0);
      WholeStep(c, w', Dispatch(Run(0)));
      ReturnsEarly(c, Do(c, w', Dispatch(Run(0))), k, 0);
      Sooner(c, w', k, Dispatch(Run(0)), 1);
      n := ScanPasses(c, w, k, 2);
    }
  }

  lemma EarlyExactly(c: Config, w: Whole, k: Lack)
    requires WholeInv(c, w) && w.scan == Flags(0, 0) && c.workers > 0
    ensures CanReturnEarly(c, w, k) <==> Unseen(w)
  {
    hide WholeInv, EarlyWithin;
    if w.d.queue != [] {
      var n := LastTask(c, w, k);
    } else if e :| 0 <= e < |w.stage| && w.stage[e].Popped? {
      var n := StalledWorker(c, w, k, e);
    } else if n: nat :| EarlyWithin(c, w, k, n) {
      SeenNeverEarly(c, w, k, n);
    }
  }

  /** The bare-metal dispatch_queue_wait can return although a task handed over has not been called, and although one
      has not finished, if and only if a task is queued when it is called or a worker has then popped one and not yet
      set its flag. */
  lemma ReturnsEarlyExactly(c: Config, run: seq<Whole>, i: nat, k: Lack)
    requires IsWholeRun(c, run) && i < |run| && c.workers > 0 && Can(c, run[i], Call)
    ensures CanReturnEarly(c, Do(c, run[i], Call), k) <==> Unseen(run[i])
  {
    hide WholeInv, CanReturnEarly;
    WholeRunInv(c, run, i);
    WholeStep(c, run[i], Call);
    EarlyExactly(c, Do(c, run[i], Call), k);
  }

  // ----- when it returns -----

  /** Left to itself, the client is outside the wait within n of its own steps. */
  predicate ReturnsWithin(c: Config, w: Whole, n: nat)
    decreases n
  {
    || w.scan.Away?
    || (n > 0 && w.scan.Returned? && ReturnsWithin(c, Do(c, w, Leave), n - 1))
    || (n > 0 && w.scan.Flags? && ReturnsWithin(c, Do(c, w, ReadFlag), n - 1))
    || (n > 0 && w.scan.Size? && ReturnsWithin(c, Do(c, w, ReadSize), n - 1))
  }

  lemma {:induction false} ScanReturns(c: Config, w: Whole)
    requires w.scan.Flags? && w.scan.i <= |w.stage|
    ensures ReturnsWithin(c, w, |w.stage| - w.scan.i + 3) <==>
            && w.scan.busy == 0 && w.d.queue == []
            && forall e :: w.scan.i <= e < |w.stage| ==> !w.stage[e].Inside?
    decreases |w.stage| - w.scan.i
  {
    var w' := Do(c, w, ReadFlag);
    if w.scan.i < |w.stage| {
      ScanReturns(c, w');
    } else {
      var w'' := Do(c, w', ReadSize);
      assert ReturnsWithin(c, w', 2) <==> ReturnsWithin(c, w'', 1);
      assert w''.scan.Flags? ==> !ReturnsWithin(c, Do(c, w'', ReadFlag), 0);
    }
  }

  /** One pass over the flags and the queue, undisturbed, returns if and only if no flag is busy and nothing is queued.
      */
  lemma ReturnsExactly(c: Config, w: Whole)
    requires Can(c, w, Call)
    ensures ReturnsWithin(c, Do(c, w, Call), |w.stage| + 3) <==>
            w.d.queue == [] && forall e :: 0 <= e < |w.stage| ==> !w.stage[e].Inside?
  {
    ScanReturns(c, Do(c, w, Call));
  }

  // ----- a run on which it happens -----

  lemma Extended(c: Config, run: seq<Whole>, ev: Event) returns (run': seq<Whole>)
    requires IsWholeRun(c, run) && Can(c, run[|run| - 1], Dispatch(ev)) && !ev.Run?
    ensures IsWholeRun(c, run') && |run'| > 0
    ensures run'[|run'| - 1] == run[|run| - 1].(d := Apply(c, run[|run| - 1].d, ev))
  {
    var w' := run[|run| - 1].(d := Apply(c, run[|run| - 1].d, ev));
    DispatchNext(c, run[|run| - 1], ev);
    hide Start, Enabled, Apply, WholeNext;
    run' := run + [w'];
    forall i | 0 <= i < |run'| - 1 ensures WholeNext(c, run'[i], run'[i + 1]) {
      assert i < |run| - 1 ==> run'[i + 1] == run[i + 1];
    }
  }

  lemma DispatchNext(c: Config, w: Whole, ev: Event)
    requires Can(c, w, Dispatch(ev)) && !ev.Run?
    ensures WholeNext(c, w, w.(d := Apply(c, w.d, ev)))
  {
    hide Enabled, Apply;
    assert Do(c, w, Dispatch(ev)) == w.(d := Apply(c, w.d, ev));
  }

  /** The client's part of the state in the run below. */
  predicate At(w: Whole, client: CPc, queue: seq<TaskId>, group: map<GroupId, Group>, submitted: set<GroupId>) {
    && w.scan.Away? && w.d.client == client && w.d.queue == queue && w.d.group == group && w.d.submitted == submitted
    && w.d.waited == {}
    && (0 in group && group[0].tasks == [0] ==> 0 in w.d.task)
    && (0 !in group ==> w.d.task == map[])
  }

  lemma StartRun(c: Config) returns (run: seq<Whole>)
    ensures IsWholeRun(c, run) && |run| > 0 && At(run[|run| - 1], CIdle, [], map[], {})
  {
    var s := State(map[], map[], map[], [], seq(c.workers + 1, _ => XIdle), CIdle,
                   {}, {}, map[], map[], [], [], [], 0, map[], map[], map[]);
    run := [Whole(s, seq(c.workers, _ => Out), Away)];
  }

  /** A group of one task. */
  function One(waitable: bool): map<GroupId, Group> { map[0 := Group([0], waitable)] }

  lemma OneTaskBuilt(c: Config, waitable: bool) returns (run: seq<Whole>)
    ensures IsWholeRun(c, run) && |run| > 0 && At(run[|run| - 1], CIdle, [], One(waitable), {})
  {
    hide CanRun, RunStep, IsWholeRun;
    run := StartRun(c);
    run := Extended(c, run, NewGroup(0, waitable));
    run := Extended(c, run, NewTask(0, 0));
    assert run[|run| - 1].d.group[0].tasks == [0];
  }

  lemma OneTaskSubmitted(c: Config, waitable: bool) returns (run: seq<Whole>)
    ensures IsWholeRun(c, run) && |run| > 0 && At(run[|run| - 1], CSend(0, 0), [], One(waitable), {0})
  {
    hide CanRun, RunStep, IsWholeRun;
    run := OneTaskBuilt(c, waitable);
    run := Extended(c, run, Submit(0));
    run := Extended(c, run, Link);
  }

  lemma OneTaskQueued(c: Config, waitable: bool) returns (run: seq<Whole>)
    requires c.length > 0
    ensures IsWholeRun(c, run) && |run| > 0 && At(run[|run| - 1], CIdle, [0], One(waitable), {0})
  {
    hide CanRun, RunStep, IsWholeRun;
    run := OneTaskSubmitted(c, waitable);
    run := Extended(c, run, Enqueue);
    run := Extended(c, run, Link);
  }

  /** A waitable group can be built, added and waited on, whatever the number of workers and the length of the queue. */
  lemma WaitReachable(c: Config) returns (run: seq<Whole>)
    requires c.length > 0
    ensures IsWholeRun(c, run) && CanDispatch(c, run[|run| - 1], Wait(0)) && run[|run| - 1].d.queue == [0]
  {
    hide IsWholeRun, WholeInv, CanDispatch;
    run := OneTaskQueued(c, true);
    WholeRunInv(c, run, |run| - 1);
    MayWaitNow(c, run[|run| - 1]);
  }

  lemma MayWaitNow(c: Config, w: Whole)
    requires WholeInv(c, w) && At(w, CIdle, [0], One(true), {0})
    ensures CanDispatch(c, w, Wait(0))
  {
    hide Inv, CanRun, RunStep;
    FirstTaskPoints(c, w.d, 0);
  }

  /** Whatever the number of workers and the length of the queue, adding one task and calling dispatch_queue_wait can
      go wrong. */
  lemma EarlyReturnReachable(c: Config, waitable: bool) returns (run: seq<Whole>)
    requires c.workers > 0 && c.length > 0
    ensures IsWholeRun(c, run) && Can(c, run[|run| - 1], Call)
    ensures CanReturnEarly(c, Do(c, run[|run| - 1], Call), NotCalled)
  {
    hide IsWholeRun;
    run := OneTaskQueued(c, waitable);
    hide CanReturnEarly;
    ReturnsEarlyExactly(c, run, |run| - 1, NotCalled);
  }
}

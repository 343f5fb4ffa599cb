/** Each call of queue_send and queue_receive, from its start to its return: what it was given, the one ring update it
    makes, and what it returns. */
module QueueCalls {
  import opened Prelude
  import opened Ring
  import opened QueueModel
  import opened QueueInvariant
  import opened QueueTheorems

  // ----- what a step does to one thread -----

  /** The thread updates the ring in this step. */
  predicate Updates(s: State, s': State, t: Tid) {
    t in s.pc && t in s'.pc && !s.pc[t].Updated() && s'.pc[t].Updated()
  }

  /** The records of a ring update: the item is appended to its direction, and the thread knows its number. */
  ghost predicate Records(s: State, s': State, t: Tid, op: Op)
    requires t in s'.pc && s'.pc[t].Updated()
  {
    var p := s'.pc[t];
    match op
    case Send(item) => p.x == item && p.k == |s.sent| && s'.sent == s.sent + [item] && s'.received == s.received
    case Receive => p.k == |s.received| && s'.received == s.received + [p.x] && s'.sent == s.sent
  }

  /** How a call goes on: it keeps its operation, it ends only by returning, and what it returns is fixed by its ring
      update. */
  ghost predicate GoesOn(s: State, s': State, t: Tid)
    requires t in s.pc && t in s'.pc && !s.pc[t].Idle?
  {
    var p, p' := s.pc[t], s'.pc[t];
    if p'.Idle? then p.Return?
    else
      && p'.op == p.op
      && (p.Updated() ==> p'.Updated() && p'.x == p.x && p'.k == p.k)
      && (p'.Updated() && !p.Updated() ==> p.Access? && Records(s, s', t, p.op))
  }

  lemma StayGoesOn(s: State, s': State, t: Tid)
    requires t in s.pc && t in s'.pc && !s.pc[t].Idle? && s'.pc[t] == s.pc[t]
    ensures GoesOn(s, s', t)
  {
  }

  lemma BodyGoesOn(s: State, u: Tid, t: Tid)
    requires BodyReady(s, u) && t in s.pc && !s.pc[t].Idle?
    ensures t in BodyStep(s, u).pc && GoesOn(s, BodyStep(s, u), t)
  {
    hide Blocked;
    if u != t {
      StayGoesOn(s, BodyStep(s, u), t);
    }
  }

  lemma AccessGoesOn(s: State, u: Tid, t: Tid)
    requires AccessReady(s, u) && t in s.pc && !s.pc[t].Idle?
    ensures t in AccessStep(s, u).pc && GoesOn(s, AccessStep(s, u), t)
  {
    hide Changed;
    if u != t {
      StayGoesOn(s, AccessStep(s, u), t);
    }
  }

  lemma WaitGoesOn(s: State, u: Tid, t: Tid)
    requires WaitReady(s, u) && t in s.pc && !s.pc[t].Idle?
    ensures t in WaitStep(s, u).pc && GoesOn(s, WaitStep(s, u), t)
  {
    if u != t {
      StayGoesOn(s, WaitStep(s, u), t);
    }
  }

  lemma CastGoesOn(s: State, u: Tid, t: Tid)
    requires CastReady(s, u) && t in s.pc && !s.pc[t].Idle?
    ensures t in CastStep(s, u).pc && GoesOn(s, CastStep(s, u), t)
  {
    if u != t && !(s.pc[u].CastSend? && s.head == Some(t)) {
      StayGoesOn(s, CastStep(s, u), t);
    }
  }

  lemma StepGoesOn(s: State, e: Event, t: Tid)
    requires Enabled(s, e) && t in s.pc && !s.pc[t].Idle?
    ensures t in Apply(s, e).pc && GoesOn(s, Apply(s, e), t)
  {
    hide BodyStep, AccessStep, WaitStep, CastStep, GoesOn;
    match e
    case Start(u, _) => StayGoesOn(s, Apply(s, e), t);
    case Step(u) =>
      if s.pc[u].InBody() {
        BodyGoesOn(s, u, t);
      } else if s.pc[u].Access? {
        AccessGoesOn(s, u, t);
      } else if s.pc[u].InWait() {
        WaitGoesOn(s, u, t);
      } else {
        CastGoesOn(s, u, t);
      }
  }

  /** A step in which a thread moves on without updating the ring leaves the queue alone: only a ring update changes it,
      and that moves no other thread. */
  lemma OnlyUpdateChanges(s: State, e: Event, t: Tid)
    requires Enabled(s, e) && t in s.pc && t in Apply(s, e).pc
    requires Apply(s, e).pc[t] != s.pc[t] && !Updates(s, Apply(s, e), t)
    ensures SameQueue(s, Apply(s, e))
  {
    if e.Step? && s.pc[e.t].Access? {
      hide Changed, Moved;
    } else {
      hide Apply;
      OnlyAccessChanges(s, e);
    }
  }

  // ----- one call -----

  /** Thread t calls an operation in step i. */
  ghost predicate Calls(run: seq<State>, i: nat, t: Tid, op: Op) {
    i + 1 < |run| && Enabled(run[i], Start(t, op)) && run[i + 1] == Apply(run[i], Start(t, op))
  }

  /** Between step i and state j the thread is never outside its operation. */
  ghost predicate Inside(run: seq<State>, i: nat, j: nat, t: Tid) {
    j <= |run| && forall k :: i < k < j ==> t in run[k].pc && !run[k].pc[t].Idle?
  }

  /** In steps i to j thread t updates the ring in step m and in no other. */
  ghost predicate OneUpdate(run: seq<State>, i: nat, j: nat, t: Tid, m: nat) {
    i <= m < j < |run| && forall k :: i <= k < j ==> (Updates(run[k], run[k + 1], t) <==> k == m)
  }

  ghost predicate NoUpdate(run: seq<State>, i: nat, j: nat, t: Tid) {
    i <= j < |run| && forall k :: i <= k < j ==> !Updates(run[k], run[k + 1], t)
  }

  /** Where a call is: before its update, or past it with the result that the update fixed. */
  ghost predicate CallAt(run: seq<State>, i: nat, j: nat, t: Tid, op: Op, m: nat)
    requires i <= j < |run| && t in run[j].pc && !run[j].pc[t].Idle?
  {
    var p := run[j].pc[t];
    && p.op == op
    && if !p.Updated() then NoUpdate(run, i, j, t)
       else
         && OneUpdate(run, i, j, t, m)
         && t in run[m + 1].pc && run[m + 1].pc[t].Updated() && Records(run[m], run[m + 1], t, op)
         && run[m + 1].pc[t].x == p.x && run[m + 1].pc[t].k == p.k
  }

  lemma Grown(run: seq<State>, i: nat, j: nat, t: Tid, m: nat)
    requires i <= j && j + 1 < |run|
    ensures OneUpdate(run, i, j, t, m) && !Updates(run[j], run[j + 1], t) ==> OneUpdate(run, i, j + 1, t, m)
    ensures NoUpdate(run, i, j, t) && !Updates(run[j], run[j + 1], t) ==> NoUpdate(run, i, j + 1, t)
    ensures NoUpdate(run, i, j, t) && Updates(run[j], run[j + 1], t) ==> OneUpdate(run, i, j + 1, t, j)
  {
  }

  lemma RunGoesOn(run: seq<State>, j: nat, t: Tid)
    requires IsRun(run) && j + 1 < |run| && t in run[j].pc && !run[j].pc[t].Idle?
    ensures t in run[j + 1].pc && GoesOn(run[j], run[j + 1], t)
  {
    assert Next(run[j], run[j + 1]);
    var e :| Enabled(run[j], e) && run[j + 1] == Apply(run[j], e);
    hide Init, Enabled, Apply, GoesOn;
    StepGoesOn(run[j], e, t);
  }

  lemma CallGoesOn(run: seq<State>, i: nat, j: nat, t: Tid, op: Op, m: nat) returns (m': nat)
    requires i <= j && j + 1 < |run| && t in run[j].pc && !run[j].pc[t].Idle? && CallAt(run, i, j, t, op, m)
    requires t in run[j + 1].pc && !run[j + 1].pc[t].Idle? && GoesOn(run[j], run[j + 1], t)
    ensures CallAt(run, i, j + 1, t, op, m')
  {
    hide Records, OneUpdate, NoUpdate;
    Grown(run, i, j, t, m);
    m' := if Updates(run[j], run[j + 1], t) then j else m;
  }

  lemma CallBegins(run: seq<State>, i: nat, t: Tid, op: Op)
    requires Calls(run, i, t, op)
    ensures t in run[i + 1].pc && !run[i + 1].pc[t].Idle? && CallAt(run, i, i + 1, t, op, i)
  {
  }

  lemma {:induction false} CallSoFar(run: seq<State>, i: nat, j: nat, t: Tid, op: Op) returns (m: nat)
    requires IsRun(run) && Calls(run, i, t, op) && Inside(run, i, j + 1, t) && i < j < |run|
    ensures CallAt(run, i, j, t, op, m)
    decreases j
  {
    hide IsRun, CallAt, GoesOn, Apply, Enabled, Calls;
    m := i;
    if j == i + 1 {
      CallBegins(run, i, t, op);
    } else {
      m := CallSoFar(run, i, j - 1, t, op);
      RunGoesOn(run, j - 1, t);
      m := CallGoesOn(run, i, j - 1, t, op, m);
    }
  }

  /** No call loses, repeats or changes anything: a call that has ended did so by returning from the operation it was
      called with, having updated the ring in exactly one step m. There a send appended its own item, and a receive took
      the item it returns; in the record of all items sent, or received, it stands at a place that was not filled when
      the call began. In every other step in which the thread moved, the queue stayed as it was. */
  lemma EachCall(run: seq<State>, i: nat, j: nat, t: Tid, op: Op) returns (m: nat, x: Item, k: nat)
    requires IsRun(run) && Calls(run, i, t, op) && i < j < |run| && Inside(run, i, j, t)
    requires t in run[j].pc && run[j].pc[t].Idle?
    ensures t in run[j - 1].pc && run[j - 1].pc[t] == Return(op, x, k) && OneUpdate(run, i, j, t, m)
    ensures op.Send? ==> |run[i].sent| <= k == |run[m].sent| && run[m + 1].sent == run[m].sent + [op.item]
    ensures op.Send? ==> k < |run[j].sent| && run[j].sent[k] == x == op.item
    ensures op.Receive? ==> |run[i].received| <= k == |run[m].received| && run[m + 1].received == run[m].received + [x]
    ensures op.Receive? ==> k < |run[j].received| && run[j].received[k] == x
    ensures forall l :: i <= l < j && l != m && MovesIn(run, l, t) ==> SameQueue(run[l], run[l + 1])
  {
    hide IsRun, Enabled, Apply;
    CallBegins(run, i, t, op);
    m := CallSoFar(run, i, j - 1, t, op);
    RunGoesOn(run, j - 1, t);
    hide Calls, Inside;
    x, k := run[j - 1].pc[t].x, run[j - 1].pc[t].k;
    Grown(run, i, j - 1, t, m);
    hide GoesOn, NoUpdate, Updates;
    HistoriesGrow(run, i, m);
    HistoriesGrow(run, m + 1, j);
    Elsewhere(run, i, j, t, m);
  }

  /** In a step from l the thread moves on. */
  predicate MovesIn(run: seq<State>, l: nat, t: Tid) {
    l + 1 < |run| && t in run[l].pc && t in run[l + 1].pc && run[l].pc[t] != run[l + 1].pc[t]
  }

  lemma Elsewhere(run: seq<State>, i: nat, j: nat, t: Tid, m: nat)
    requires IsRun(run) && OneUpdate(run, i, j, t, m)
    ensures forall l :: i <= l < j && l != m && MovesIn(run, l, t) ==> SameQueue(run[l], run[l + 1])
  {
    forall l | i <= l < j && l != m && MovesIn(run, l, t) ensures SameQueue(run[l], run[l + 1]) {
      assert !Updates(run[l], run[l + 1], t);
      assert Next(run[l], run[l + 1]);
      var e :| Enabled(run[l], e) && run[l + 1] == Apply(run[l], e);
      hide Enabled, Apply;
      OnlyUpdateChanges(run[l], e, t);
    }
  }

  lemma HistoryGrows(s: State, e: Event)
    requires Enabled(s, e)
    ensures s.sent <= Apply(s, e).sent && s.received <= Apply(s, e).received
  {
    if !(e.Step? && s.pc[e.t].Access?) {
      hide Apply;
      OnlyAccessChanges(s, e);
    } else {
      hide Changed, Moved;
    }
  }

  lemma {:induction false} HistoriesGrow(run: seq<State>, i: nat, j: nat)
    requires IsRun(run) && i <= j < |run|
    ensures run[i].sent <= run[j].sent && run[i].received <= run[j].received
    decreases j
  {
    hide Init, Enabled, Apply;
    if i < j {
      HistoriesGrow(run, i, j - 1);
      assert Next(run[j - 1], run[j - 1 + 1]);
      var e :| Enabled(run[j - 1], e) && run[j] == Apply(run[j - 1], e);
      HistoryGrows(run[j - 1], e);
    }
  }
}

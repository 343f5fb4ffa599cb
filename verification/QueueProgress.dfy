/** No call of the queue goes on for ever: with no new call, every schedule ends, although a broadcast sends waiting
    threads round their loops again. With StuckExactly, it ends with every call returned or waiting for what the ring
    lacks. */
module QueueProgress {
  import opened Prelude
  import opened QueueModel
  import opened QueueInvariant
  import opened QueueTheorems

  /** The steps a thread can still take or cause, at most, with n threads and c of them in the waiter list. Before its
      ring update a call has set aside what waking every other thread will cost. */
  function Weight(p: Pc, n: nat, c: nat): nat {
    match p
    case Idle => 0
    case Return(_, _, _) => 1
    case Unlock(_, _, _) => 2
    case CastPut(_, _, _) => 3
    case CastTest(_, _, _) => 4 + 11 * c
    case CastSend(_, _, _) => 3 + 11 * c
    case CastNext(_, _, _) => if c > 0 then 11 * c - 5 else 0
    case CastGet(_, _, _) => 5 + 11 * c
    case Access(_) => 6 + 11 * n
    case WaitIn(_) => 6 + 11 * n
    case WaitUnlock(_) => 7 + 11 * n
    case WaitPut(_) => 8 + 11 * n
    case WaitPush(_) => 9 + 11 * n
    case WaitGet(_) => 10 + 11 * n
    case Check(_) => 11 + 11 * n
    case WaitGot(_) => 12 + 11 * n
    case Lock(_) => 12 + 11 * n
  }

  function Weights(pc: map<Tid, Pc>, n: nat, c: nat): map<Tid, nat> {
    map t | t in pc :: Weight(pc[t], n, c)
  }

  ghost function Work(s: State): nat {
    Total(Weights(s.pc, |s.pc|, |s.chain|))
  }

  lemma WeightsUpdate(pc: map<Tid, Pc>, n: nat, c: nat, t: Tid, p: Pc)
    requires t in pc
    ensures Total(Weights(pc[t := p], n, c)) == Total(Weights(pc, n, c)) - Weight(pc[t], n, c) + Weight(p, n, c)
  {
    hide Weight;
    assert Weights(pc[t := p], n, c) == Weights(pc, n, c)[t := Weight(p, n, c)];
    TotalUpdate(Weights(pc, n, c), t, Weight(p, n, c));
  }

  /** Only a broadcaster's weight depends on the list, and it holds the mutex. */
  lemma OthersSame(pc: map<Tid, Pc>, n: nat, c: nat, c': nat, t: Tid)
    requires t in pc && forall u :: u in pc && u != t ==> !pc[u].HoldsMutex()
    ensures Total(Weights(pc, n, c')) == Total(Weights(pc, n, c)) - Weight(pc[t], n, c) + Weight(pc[t], n, c')
  {
    assert Weights(pc, n, c') == Weights(pc, n, c)[t := Weight(pc[t], n, c')];
    TotalUpdate(Weights(pc, n, c), t, Weight(pc[t], n, c'));
  }

  lemma SameThreads(pc: map<Tid, Pc>, t: Tid, p: Pc)
    requires t in pc
    ensures |pc[t := p]| == |pc|
  {
    assert pc[t := p].Keys == pc.Keys;
  }

  lemma MoveWorks(s: State, s': State, t: Tid)
    requires OneMoves(s, s', t) && s'.chain == s.chain
    requires Weight(s'.pc[t], |s.pc|, |s.chain|) < Weight(s.pc[t], |s.pc|, |s.chain|)
    ensures Work(s') < Work(s)
  {
    hide Weight, Weights;
    SameThreads(s.pc, t, s'.pc[t]);
    WeightsUpdate(s.pc, |s.pc|, |s.chain|, t, s'.pc[t]);
  }

  /** The mutex holder moves and changes the list. */
  lemma ListWorks(s: State, s': State, t: Tid)
    requires OneMoves(s, s', t) && forall u :: u in s.pc && u != t ==> !s.pc[u].HoldsMutex()
    requires Weight(s'.pc[t], |s.pc|, |s'.chain|) < Weight(s.pc[t], |s.pc|, |s.chain|)
    ensures Work(s') < Work(s)
  {
    hide Weight, Weights;
    SameThreads(s.pc, t, s'.pc[t]);
    OthersSame(s.pc, |s.pc|, |s.chain|, |s'.chain|, t);
    WeightsUpdate(s.pc, |s.pc|, |s'.chain|, t, s'.pc[t]);
  }

  function Ids(chain: seq<Tid>): set<Tid> { set t | t in chain }

  lemma {:induction false} DistinctSize(chain: seq<Tid>)
    requires NoDuplicates(chain)
    ensures |Ids(chain)| == |chain|
  {
    if chain == [] {
      assert Ids(chain) == {};
    } else {
      DistinctSize(chain[1..]);
      FrontOnce(chain);
      assert Ids(chain) == Ids(chain[1..]) + {chain[0]};
    }
  }

  lemma ListBounded(s: State)
    requires Listed(s) && Members(s)
    ensures |s.chain| <= |s.pc|
  {
    DistinctSize(s.chain);
    assert Ids(s.chain) <= s.pc.Keys;
    SubsetBound(Ids(s.chain), s.pc.Keys);
    assert |s.pc.Keys| == |s.pc|;
  }

  lemma BodyWorks(s: State, t: Tid)
    requires BodyReady(s, t)
    ensures Work(BodyStep(s, t)) < Work(s)
  {
    hide Blocked, Work;
    MoveWorks(s, BodyStep(s, t), t);
  }

  lemma AccessWorks(s: State, t: Tid)
    requires AccessReady(s, t) && Listed(s) && Members(s)
    ensures Work(AccessStep(s, t)) < Work(s)
  {
    hide Changed, Moved, Work, Linked, MembersOf;
    ListBounded(s);
    MoveWorks(s, AccessStep(s, t), t);
  }

  lemma WaitWorks(s: State, t: Tid)
    requires WaitReady(s, t) && Locks(s)
    ensures Work(WaitStep(s, t)) < Work(s)
  {
    hide Work;
    if s.pc[t].WaitPush? {
      OnlyHolder(s, t);
      hide Locks;
      ListWorks(s, WaitStep(s, t), t);
    } else {
      hide Locks;
      MoveWorks(s, WaitStep(s, t), t);
    }
  }

  /** The thread woken goes round its loop once more, at the broadcaster's expense. */
  lemma WakeWeights(pc: map<Tid, Pc>, c: nat, t: Tid, p: Pc, w: Tid)
    requires t in pc && pc[t].CastSend? && p.CastNext? && w in pc && pc[w].WaitIn? && c > 0
    ensures var pc' := pc[w := WaitGot(pc[w].op)][t := p];
            |pc'| == |pc| && Total(Weights(pc', |pc|, c)) < Total(Weights(pc, |pc|, c))
  {
    var mid := pc[w := WaitGot(pc[w].op)];
    SameThreads(pc, w, mid[w]);
    SameThreads(mid, t, p);
    WeightsUpdate(pc, |pc|, c, w, mid[w]);
    WeightsUpdate(mid, |pc|, c, t, p);
    hide Weights;
  }

  lemma SendWorks(s: State, t: Tid)
    requires CastReady(s, t) && s.pc[t].CastSend? && s.chain != []
    ensures Work(CastStep(s, t)) < Work(s)
  {
    hide Weights;
    WakeWeights(s.pc, |s.chain|, t, CastStep(s, t).pc[t], s.head.value);
  }

  lemma NextWorks(s: State, t: Tid)
    requires CastReady(s, t) && Locks(s) && s.pc[t].CastNext? && s.chain != []
    ensures Work(CastStep(s, t)) < Work(s)
  {
    hide Work;
    OnlyHolder(s, t);
    hide Locks;
    ListWorks(s, CastStep(s, t), t);
  }

  lemma CastWorks(s: State, t: Tid)
    requires CastReady(s, t) && Inv(s)
    ensures Work(CastStep(s, t)) < Work(s)
  {
    hide Work, Locks, Listed, MembersOf, WaitsOf, Fifo, Tallied;
    ThreadFacts(s, t);
    if s.pc[t].CastSend? {
      SendWorks(s, t);
    } else if s.pc[t].CastNext? {
      NextWorks(s, t);
    } else {
      MoveWorks(s, CastStep(s, t), t);
    }
  }

  /** Every step of a call uses up work. */
  lemma WorkDecreases(s: State, t: Tid)
    requires Inv(s) && Enabled(s, Step(t))
    ensures Work(Apply(s, Step(t))) < Work(s)
  {
    hide Work, Locks, Listed, MembersOf, WaitsOf, Fifo, Tallied;
    if s.pc[t].InBody() {
      BodyWorks(s, t);
    } else if s.pc[t].Access? {
      AccessWorks(s, t);
    } else if s.pc[t].InWait() {
      WaitWorks(s, t);
    } else {
      CastWorks(s, t);
    }
  }

  ghost predicate Stepped(s: State, s': State) {
    exists t :: Enabled(s, Step(t)) && s' == Apply(s, Step(t))
  }

  ghost predicate StepsOnly(states: seq<State>) {
    forall i :: 0 <= i < |states| - 1 ==> Stepped(states[i], states[i + 1])
  }

  lemma SteppedWorks(s: State, s': State)
    requires Inv(s) && Stepped(s, s')
    ensures Inv(s') && Work(s') < Work(s)
  {
    hide Inv, Enabled, Apply, Work;
    var t :| Enabled(s, Step(t)) && s' == Apply(s, Step(t));
    StepInv(s, Step(t));
    WorkDecreases(s, t);
  }

  lemma {:induction false} ScheduleEnds(states: seq<State>)
    requires |states| > 0 && Inv(states[0]) && StepsOnly(states)
    ensures |states| - 1 <= Work(states[0])
    decreases |states|
  {
    hide Inv, Work, Stepped;
    if |states| > 1 {
      var rest := states[1..];
      forall i | 0 <= i < |rest| - 1
        ensures Stepped(rest[i], rest[i + 1])
      {
        assert Stepped(states[i + 1], states[i + 1 + 1]);
      }
      SteppedWorks(states[0], states[0 + 1]);
      ScheduleEnds(rest);
    }
  }

  /** From any state of a run, with no new call, at most Work(s) steps follow, whatever the schedule. */
  lemma RunsEnd(run: seq<State>, i: nat, states: seq<State>)
    requires IsRun(run) && i < |run| && |states| > 0 && states[0] == run[i] && StepsOnly(states)
    ensures |states| - 1 <= Work(run[i])
  {
    hide Inv, Work, Stepped;
    RunInv(run, i);
    ScheduleEnds(states);
  }
}

/** What every step of the queue protocol keeps, for any number of threads and any ring length. */
module QueueInvariant {
  import opened Prelude
  import opened Ring
  import opened QueueModel
  import AtomicLock
  import BoundedFifo

  /** Following the links from head visits exactly the threads of chain, in order. */
  ghost predicate Linked(head: Option<Tid>, next: map<Tid, Option<Tid>>, chain: seq<Tid>)
    decreases |chain|
  {
    if chain == [] then head.None?
    else head == Some(chain[0]) && chain[0] in next && Linked(next[chain[0]], next, chain[1..])
  }

  /** Each lock is held by exactly the thread whose program counter says so. */
  ghost predicate Locks(s: State) {
    && (forall t :: t in s.pc ==> (s.pc[t].HoldsMutex() <==> s.mutex == Some(t)))
    && (s.mutex.Some? ==> s.mutex.value in s.pc)
    && (forall t :: t in s.pc ==> (s.pc[t].HoldsSpin() <==> s.spin == Some(t)))
    && (s.spin.Some? ==> s.spin.value in s.pc)
  }

  /** The node at the front of the list has been signalled and is about to be unlinked. */
  ghost predicate Unlinking(s: State) {
    s.mutex.Some? && s.mutex.value in s.pc && s.pc[s.mutex.value].CastNext?
  }

  /** The links make up a list that visits each thread at most once. */
  ghost predicate Listed(s: State) {
    NoDuplicates(s.chain) && Linked(s.head, s.next, s.chain)
  }

  /** The list holds the parked threads, and otherwise only the one being unlinked. */
  ghost predicate MembersOf(pc: map<Tid, Pc>, chain: seq<Tid>, unlinking: bool) {
    && (forall t :: t in pc && pc[t].Parked() ==> t in chain)
    && (forall t :: t in chain ==> t in pc)
    && (forall t :: t in chain ==> pc[t].Parked() || (pc[t].WaitGot? && unlinking && t == chain[0]))
    && (unlinking ==> chain != [] && pc[chain[0]].WaitGot?)
    && (forall t :: t in pc && pc[t].CastSend? ==> chain != [])
    && (forall t :: t in pc && (pc[t].CastPut? || pc[t].Unlock?) ==> chain == [])
  }

  ghost predicate Members(s: State) { MembersOf(s.pc, s.chain, Unlinking(s)) }

  ghost predicate Waking(s: State) {
    s.mutex.Some? && s.mutex.value in s.pc && s.pc[s.mutex.value].Waking()
  }

  /** Unless a broadcast is under way, whoever is in the list still has reason to wait. */
  ghost predicate WaitsOf(ring: Ring, pc: map<Tid, Pc>, chain: seq<Tid>, waking: bool)
    requires forall t :: t in chain ==> t in pc && !pc[t].Idle?
  {
    && (!waking ==> forall t :: t in chain ==> Blocked(ring, pc[t].op))
    && (forall t, u :: t in chain && u in chain ==> pc[t].op.Send? == pc[u].op.Send?)
    && (forall t :: t in pc && (pc[t].WaitGet? || pc[t].WaitPush?) ==> Blocked(ring, pc[t].op))
    && (forall t :: t in pc && pc[t].Access? ==> !Blocked(ring, pc[t].op))
  }

  ghost predicate Waits(s: State)
    requires Members(s)
  {
    WaitsOf(s.ring, s.pc, s.chain, Waking(s))
  }

  ghost predicate Recorded(s: State, p: Pc)
    requires p.Updated()
  {
    match p.op
    case Send(x) => p.x == x && p.k < |s.sent| && s.sent[p.k] == x
    case Receive => p.k < |s.received| && s.received[p.k] == p.x
  }

  /** First in, first out: what was received, then what the ring holds, is what was sent. */
  ghost predicate Fifo(s: State) {
    && s.sent == s.received + Contents(s.ring)
    && (forall t :: t in s.pc && s.pc[t].Updated() ==> Recorded(s, s.pc[t]))
  }

  /** Each registration is answered by one wake-up, owed only to a parked thread, and goes with giving the mutex up
      once and regaining it once. */
  predicate Fits(p: Pc, y: Tally) {
    && y.registered == y.woken + (if p.Parked() then 1 else 0)
    && y.registered == y.dropped + (if p.Owes() then 1 else 0)
    && y.dropped == y.retaken + (if p.Away() then 1 else 0)
  }

  ghost predicate Tallied(s: State)
    requires WellFormed(s)
  {
    forall t :: t in s.pc ==> Fits(s.pc[t], s.tally[t])
  }

  ghost predicate Inv(s: State) {
    WellFormed(s) && Locks(s) && Listed(s) && Members(s) && Waits(s) && Fifo(s) && Tallied(s)
  }

  /** Changing the link of a thread outside the chain leaves the chain linked. */
  lemma LinkedFrame(head: Option<Tid>, next: map<Tid, Option<Tid>>, chain: seq<Tid>, t: Tid, v: Option<Tid>)
    requires Linked(head, next, chain) && t !in chain
    ensures Linked(head, next[t := v], chain)
    decreases |chain|
  {
    if chain != [] {
      LinkedFrame(next[chain[0]], next, chain[1..], t, v);
    }
  }

  // ----- what the invariant says about one thread -----

  lemma ThreadFacts(s: State, t: Tid)
    requires Locks(s) && Listed(s) && Members(s) && Waits(s) && WellFormed(s) && Tallied(s) && t in s.pc
    ensures Fits(s.pc[t], s.tally[t])
    ensures s.pc[t].HoldsMutex() <==> s.mutex == Some(t)
    ensures s.pc[t].HoldsSpin() <==> s.spin == Some(t)
    ensures s.mutex.Some? ==> s.mutex.value in s.pc
    ensures t in s.chain ==> s.pc[t].Parked() || (s.pc[t].WaitGot? && Unlinking(s))
    ensures s.pc[t].CastPut? || s.pc[t].Unlock? ==> s.chain == []
    ensures s.chain != [] ==> s.head == Some(s.chain[0]) && s.chain[0] in s.pc
    ensures s.chain == [] ==> s.head.None?
    ensures s.pc[t].CastSend? || s.pc[t].CastNext? ==> s.chain != []
    ensures s.pc[t].WaitGet? || s.pc[t].WaitPush? ==> Blocked(s.ring, s.pc[t].op)
    ensures s.pc[t].Access? ==> !Blocked(s.ring, s.pc[t].op)
  {
  }

  lemma InWaits(s: State, t: Tid)
    requires Members(s) && t in s.pc
    ensures forall u :: u in s.chain ==> u in s.pc && !s.pc[u].Idle?
    ensures !s.pc[t].InWait() ==> t !in s.chain
  {
  }

  lemma OnlyHolder(s: State, t: Tid)
    requires Locks(s) && t in s.pc && s.pc[t].HoldsMutex()
    ensures s.mutex == Some(t) && (Unlinking(s) <==> s.pc[t].CastNext?) && (Waking(s) <==> s.pc[t].Waking())
    ensures forall u :: u in s.pc && u != t ==> !s.pc[u].HoldsMutex()
  {
  }

  // ----- one thread moves on, touching neither the ring nor the list -----

  /** It takes, drops or leaves alone each lock as its program counter says. */
  ghost predicate LocksFollow(s: State, s': State, t: Tid)
    requires t in s.pc && t in s'.pc
  {
    && (if s.pc[t].HoldsMutex() == s'.pc[t].HoldsMutex() then s'.mutex == s.mutex
        else if s'.pc[t].HoldsMutex() then AtomicLock.Acquire(s.mutex, t, s'.mutex)
        else AtomicLock.Release(s.mutex, t, s'.mutex))
    && (if s.pc[t].HoldsSpin() == s'.pc[t].HoldsSpin() then s'.spin == s.spin
        else if s'.pc[t].HoldsSpin() then AtomicLock.Acquire(s.spin, t, s'.spin)
        else AtomicLock.Release(s.spin, t, s'.spin))
  }

  ghost predicate OneMoves(s: State, s': State, t: Tid) {
    t in s.pc && t in s'.pc && s'.pc == s.pc[t := s'.pc[t]]
  }

  lemma LocksMove(s: State, s': State, t: Tid)
    requires Locks(s) && OneMoves(s, s', t) && LocksFollow(s, s', t)
    ensures Locks(s')
  {
  }

  lemma MembersMove(s: State, s': State, t: Tid)
    requires Members(s) && OneMoves(s, s', t) && s'.chain == s.chain
    requires s.pc[t].Parked() == s'.pc[t].Parked() && (t in s.chain ==> s.pc[t].Parked())
    requires Unlinking(s) == Unlinking(s')
    requires s'.pc[t].CastSend? ==> s.chain != []
    requires s'.pc[t].CastPut? || s'.pc[t].Unlock? ==> s.chain == []
    ensures Members(s')
  {
  }

  lemma WaitsMove(s: State, s': State, t: Tid)
    requires Members(s) && Members(s') && Waits(s) && OneMoves(s, s', t) && s'.ring == s.ring && s'.chain == s.chain
    requires t in s.chain ==> s'.pc[t].op == s.pc[t].op
    requires !Waking(s') ==> !Waking(s) || s.chain == []
    requires s'.pc[t].WaitGet? || s'.pc[t].WaitPush? ==> Blocked(s.ring, s'.pc[t].op)
    requires s'.pc[t].Access? ==> !Blocked(s.ring, s'.pc[t].op)
    ensures Waits(s')
  {
    hide Blocked;
  }

  lemma FifoMove(s: State, s': State, t: Tid)
    requires Fifo(s) && OneMoves(s, s', t) && s'.ring == s.ring && s'.sent == s.sent && s'.received == s.received
    requires s'.pc[t].Updated() ==> s.pc[t].Updated() && s'.pc[t].op == s.pc[t].op
    requires s'.pc[t].Updated() ==> s'.pc[t].x == s.pc[t].x && s'.pc[t].k == s.pc[t].k
    ensures Fifo(s')
  {
    hide Contents;
  }

  lemma TallyMove(s: State, s': State, t: Tid)
    requires WellFormed(s) && Tallied(s) && OneMoves(s, s', t) && s'.next.Keys == s.next.Keys
    requires t in s'.tally && s'.tally == s.tally[t := s'.tally[t]] && Fits(s'.pc[t], s'.tally[t])
    ensures WellFormed(s') && Tallied(s')
  {
    hide Fits;
  }

  lemma MoveInv(s: State, s': State, t: Tid)
    requires Inv(s) && OneMoves(s, s', t)
    requires s' == s.(pc := s'.pc, mutex := s'.mutex, spin := s'.spin, tally := s'.tally)
    requires LocksFollow(s, s', t)
    requires t in s'.tally && s'.tally == s.tally[t := s'.tally[t]] && Fits(s'.pc[t], s'.tally[t])
    requires s.pc[t].Parked() == s'.pc[t].Parked() && (t in s.chain ==> s.pc[t].Parked())
    requires Unlinking(s) == Unlinking(s')
    requires s'.pc[t].CastSend? ==> s.chain != []
    requires s'.pc[t].CastPut? || s'.pc[t].Unlock? ==> s.chain == []
    requires t in s.chain ==> s'.pc[t].op == s.pc[t].op
    requires !Waking(s') ==> !Waking(s) || s.chain == []
    requires s'.pc[t].WaitGet? || s'.pc[t].WaitPush? ==> Blocked(s.ring, s'.pc[t].op)
    requires s'.pc[t].Access? ==> !Blocked(s.ring, s'.pc[t].op)
    requires s'.pc[t].Updated() ==> s.pc[t].Updated() && s'.pc[t].op == s.pc[t].op
    requires s'.pc[t].Updated() ==> s'.pc[t].x == s.pc[t].x && s'.pc[t].k == s.pc[t].k
    ensures Inv(s')
  {
    hide Locks, Listed, MembersOf, Fifo, Tallied, Blocked;
    LocksMove(s, s', t);
    MembersMove(s, s', t);
    WaitsMove(s, s', t);
    FifoMove(s, s', t);
    TallyMove(s, s', t);
    assert Listed(s') by { ListedSame(s, s'); }
  }

  lemma ListedSame(s: State, s': State)
    requires Listed(s) && s'.head == s.head && s'.next == s.next && s'.chain == s.chain
    ensures Listed(s')
  {
  }

  lemma StartInv(s: State, t: Tid, op: Op)
    requires Inv(s) && t in s.pc && s.pc[t].Idle?
    ensures Inv(Goto(s, t, Lock(op)))
  {
    hide Locks, Listed, MembersOf, Waits, Fifo, Tallied;
    ThreadFacts(s, t);
    MoveInv(s, Goto(s, t, Lock(op)), t);
  }

  lemma BodyInv(s: State, t: Tid)
    requires Inv(s) && BodyReady(s, t)
    ensures Inv(BodyStep(s, t))
  {
    hide Locks, Listed, MembersOf, Waits, Fifo, Tallied;
    ThreadFacts(s, t);
    MoveInv(s, BodyStep(s, t), t);
  }

  // ----- the ring update -----

  /** An operation whose wait predicate is false is one on a bounded first-in first-out queue. */
  lemma AccessIsFifo(r: Ring, op: Op)
    requires !Blocked(r, op)
    ensures op.Send? ==> BoundedFifo.Send(|r.slots|, Contents(r), Moved(r, op), Contents(Changed(r, op)))
    ensures op.Receive? ==> BoundedFifo.Receive(Contents(r), Moved(r, op), Contents(Changed(r, op)))
  {
    FlagsAgree(r);
  }

  lemma HistoryAccess(sent: seq<Item>, received: seq<Item>, r: Ring, op: Op)
    requires sent == received + Contents(r) && !Blocked(r, op)
    ensures op.Send? ==> sent + [Moved(r, op)] == received + Contents(Changed(r, op))
    ensures op.Receive? ==> sent == received + [Moved(r, op)] + Contents(Changed(r, op))
  {
    AccessIsFifo(r, op);
    var before, after := Contents(r), Contents(Changed(r, op));
    assert op.Send? ==> received + before + [Moved(r, op)] == received + after;
    assert op.Receive? ==> before == [Moved(r, op)] + after;
  }

  lemma FifoAccess(s: State, t: Tid)
    requires AccessReady(s, t) && Fifo(s) && !Blocked(s.ring, s.pc[t].op)
    ensures Fifo(AccessStep(s, t))
  {
    HistoryAccess(s.sent, s.received, s.ring, s.pc[t].op);
    hide Contents, Changed, Moved;
  }

  lemma WaitsAccess(s: State, t: Tid)
    requires Locks(s) && Members(s) && Waits(s) && AccessReady(s, t) && Members(AccessStep(s, t))
    ensures Waits(AccessStep(s, t))
  {
    OnlyHolder(s, t);
    hide Blocked, Changed, Moved;
  }

  lemma AccessInv(s: State, t: Tid)
    requires Inv(s) && AccessReady(s, t)
    ensures Inv(AccessStep(s, t))
  {
    hide Locks, Listed, MembersOf, Waits, Fifo, Tallied, Changed, Moved;
    var s' := AccessStep(s, t);
    ThreadFacts(s, t);
    LocksMove(s, s', t);
    ListedSame(s, s');
    MembersMove(s, s', t);
    WaitsAccess(s, t);
    FifoAccess(s, t);
    TallyMove(s, s', t);
  }

  // ----- linking a node -----

  lemma PushMembers(pc: map<Tid, Pc>, chain: seq<Tid>, t: Tid, p: Pc)
    requires MembersOf(pc, chain, false) && t in pc && pc[t].WaitPush? && p.WaitPut?
    requires forall u :: u in pc && u != t ==> !pc[u].HoldsMutex()
    ensures t !in chain && MembersOf(pc[t := p], [t] + chain, false)
  {
    assert forall u :: u in [t] + chain <==> u == t || u in chain;
  }

  lemma PushListed(s: State, t: Tid)
    requires Listed(s) && WaitReady(s, t) && s.pc[t].WaitPush? && t !in s.chain
    ensures Listed(WaitStep(s, t))
  {
    LinkedFrame(s.head, s.next, s.chain, t, s.head);
    assert WaitStep(s, t).chain[1..] == s.chain;
  }

  lemma PushWaits(s: State, t: Tid)
    requires Locks(s) && Members(s) && Waits(s) && WaitReady(s, t) && s.pc[t].WaitPush? && Members(WaitStep(s, t))
    ensures Waits(WaitStep(s, t))
  {
    OnlyHolder(s, t);
  }

  lemma PushInv(s: State, t: Tid)
    requires Inv(s) && WaitReady(s, t) && s.pc[t].WaitPush?
    ensures Inv(WaitStep(s, t))
  {
    hide Locks, Listed, MembersOf, Waits, Fifo, Tallied;
    var s' := WaitStep(s, t);
    ThreadFacts(s, t);
    OnlyHolder(s, t);
    LocksMove(s, s', t);
    PushMembers(s.pc, s.chain, t, WaitPut(s.pc[t].op));
    PushListed(s, t);
    PushWaits(s, t);
    FifoMove(s, s', t);
    TallyMove(s, s', t);
  }

  lemma WaitInv(s: State, t: Tid)
    requires Inv(s) && WaitReady(s, t)
    ensures Inv(WaitStep(s, t))
  {
    hide Locks, Listed, MembersOf, Waits, Fifo, Tallied;
    if s.pc[t].WaitPush? {
      PushInv(s, t);
    } else {
      ThreadFacts(s, t);
      MoveInv(s, WaitStep(s, t), t);
    }
  }

  // ----- signalling a node -----

  lemma SendMembers(pc: map<Tid, Pc>, chain: seq<Tid>, t: Tid, p: Pc, got: Pc)
    requires MembersOf(pc, chain, false) && t in pc && pc[t].CastSend? && p.CastNext? && got.WaitGot?
    requires forall u :: u in pc && u != t ==> !pc[u].HoldsMutex()
    requires NoDuplicates(chain)
    ensures chain != [] && chain[0] in pc && MembersOf(pc[chain[0] := got][t := p], chain, true)
  {
  }

  lemma SendWaits(ring: Ring, pc: map<Tid, Pc>, chain: seq<Tid>, t: Tid, p: Pc, w: Tid)
    requires forall u :: u in chain ==> u in pc && !pc[u].Idle?
    requires WaitsOf(ring, pc, chain, true) && t in pc && t !in chain && w in pc && pc[w].WaitIn? && p.CastNext?
    ensures forall u :: u in chain ==> !pc[w := WaitGot(pc[w].op)][t := p][u].Idle?
    ensures WaitsOf(ring, pc[w := WaitGot(pc[w].op)][t := p], chain, true)
  {
    hide Blocked;
  }

  lemma SendTally(s: State, t: Tid)
    requires CastReady(s, t) && Tallied(s) && s.pc[t].CastSend?
    ensures WellFormed(CastStep(s, t)) && Tallied(CastStep(s, t))
  {
  }

  lemma SendInv(s: State, t: Tid)
    requires Inv(s) && CastReady(s, t) && s.pc[t].CastSend?
    ensures Inv(CastStep(s, t))
  {
    hide Locks, MembersOf, WaitsOf, Fifo, Tallied, Linked, NoDuplicates;
    var s', w := CastStep(s, t), s.head.value;
    var got := WaitGot(s.pc[w].op);
    var mid := Goto(s, w, got);
    ThreadFacts(s, t);
    OnlyHolder(s, t);
    LocksMove(s, mid, w);
    LocksMove(mid, s', t);
    SendMembers(s.pc, s.chain, t, s'.pc[t], got);
    InWaits(s, t);
    SendWaits(s.ring, s.pc, s.chain, t, s'.pc[t], w);
    FifoMove(s, mid, w);
    FifoMove(mid, s', t);
    SendTally(s, t);
  }

  // ----- unlinking a node -----

  lemma NextMembers(pc: map<Tid, Pc>, chain: seq<Tid>, t: Tid, p: Pc)
    requires MembersOf(pc, chain, true) && t in pc && pc[t].CastNext? && p.CastTest?
    requires forall u :: u in pc && u != t ==> !pc[u].HoldsMutex()
    requires NoDuplicates(chain)
    ensures chain != [] && MembersOf(pc[t := p], chain[1..], false)
  {
    FrontOnce(chain);
  }

  lemma NextListed(s: State, t: Tid)
    requires Listed(s) && CastReady(s, t) && s.pc[t].CastNext?
    ensures Listed(CastStep(s, t))
  {
  }

  lemma NextWaits(s: State, t: Tid)
    requires Members(s) && Waits(s) && CastReady(s, t) && s.mutex == Some(t) && s.pc[t].CastNext?
             && Members(CastStep(s, t))
    ensures Waits(CastStep(s, t))
  {
    hide Blocked;
  }

  lemma NextInv(s: State, t: Tid)
    requires Inv(s) && CastReady(s, t) && s.pc[t].CastNext?
    ensures Inv(CastStep(s, t))
  {
    hide Locks, MembersOf, Waits, Fifo, Tallied, Linked, NoDuplicates;
    var s' := CastStep(s, t);
    ThreadFacts(s, t);
    OnlyHolder(s, t);
    LocksMove(s, s', t);
    NextListed(s, t);
    NextMembers(s.pc, s.chain, t, s'.pc[t]);
    NextWaits(s, t);
    FifoMove(s, s', t);
    TallyMove(s, s', t);
  }

  lemma CastInv(s: State, t: Tid)
    requires Inv(s) && CastReady(s, t)
    ensures Inv(CastStep(s, t))
  {
    hide Locks, Listed, MembersOf, Waits, Fifo, Tallied;
    if s.pc[t].CastSend? {
      SendInv(s, t);
    } else if s.pc[t].CastNext? {
      NextInv(s, t);
    } else {
      ThreadFacts(s, t);
      MoveInv(s, CastStep(s, t), t);
    }
  }

  // ----- all together -----

  lemma InitInv(s: State)
    requires Init(s)
    ensures Inv(s)
  {
  }

  lemma StepInv(s: State, e: Event)
    requires Inv(s) && Enabled(s, e)
    ensures Inv(Apply(s, e))
  {
    hide Inv;
    match e
    case Start(t, op) => StartInv(s, t, op);
    case Step(t) =>
      if s.pc[t].InBody() {
        BodyInv(s, t);
      } else if s.pc[t].Access? {
        AccessInv(s, t);
      } else if s.pc[t].InWait() {
        WaitInv(s, t);
      } else {
        CastInv(s, t);
      }
  }

  lemma {:induction false} RunInv(run: seq<State>, i: nat)
    requires IsRun(run) && i < |run|
    ensures Inv(run[i])
  {
    if i == 0 {
      InitInv(run[0]);
    } else {
      RunInv(run, i - 1);
      assert Next(run[i - 1], run[i - 1 + 1]);
      var e :| Enabled(run[i - 1], e) && run[i] == Apply(run[i - 1], e);
      StepInv(run[i - 1], e);
    }
  }
}

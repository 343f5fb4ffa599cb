/** Any number of threads inside queue_send and queue_receive: one program counter per thread and one step
    per shared access. The mutex and the spinlock are atomic locks; a byte on a channel is a rendezvous.
    The waiter nodes live in the frames of the waiting threads, so a node is named by its thread. */
module QueueModel {
  import opened Prelude
  import opened Ring
  import AtomicLock

  type Tid = nat

  datatype Op = Send(item: Item) | Receive

  datatype Pc =
    | Idle
    | Lock(op: Op)                        // about to take the mutex
    | Check(op: Op)                       // about to test the wait predicate
    | WaitGet(op: Op)                     // in wait: about to take the spinlock
    | WaitPush(op: Op)                    // in wait: about to link the node
    | WaitPut(op: Op)                     // in wait: about to drop the spinlock
    | WaitUnlock(op: Op)                  // in wait: about to drop the mutex
    | WaitIn(op: Op)                      // in wait: blocked on the channel
    | WaitGot(op: Op)                     // in wait: signalled, about to retake the mutex
    | Access(op: Op)                      // about to update the ring
    | CastGet(op: Op, x: Item, k: nat)    // in broadcast: about to take the spinlock
    | CastTest(op: Op, x: Item, k: nat)   // in broadcast: about to test the list head
    | CastSend(op: Op, x: Item, k: nat)   // in broadcast: about to signal the head node
    | CastNext(op: Op, x: Item, k: nat)   // in broadcast: about to follow the head node's link
    | CastPut(op: Op, x: Item, k: nat)    // in broadcast: about to drop the spinlock
    | Unlock(op: Op, x: Item, k: nat)     // about to drop the mutex
    | Return(op: Op, x: Item, k: nat)     // returning true: item x was number k of its direction
  {
    predicate InBody() { Lock? || Check? || Unlock? || Return? }

    predicate InWait() { WaitGet? || WaitPush? || WaitPut? || WaitUnlock? || WaitIn? || WaitGot? }

    predicate InCast() { CastGet? || CastTest? || CastSend? || CastNext? || CastPut? }

    predicate HoldsMutex() {
      Check? || WaitGet? || WaitPush? || WaitPut? || WaitUnlock? || Access?
      || CastGet? || CastTest? || CastSend? || CastNext? || CastPut? || Unlock?
    }

    predicate HoldsSpin() {
      WaitPush? || WaitPut? || CastTest? || CastSend? || CastNext? || CastPut?
    }

    /** Linked into the waiter list and not yet signalled. */
    predicate Parked() { WaitPut? || WaitUnlock? || WaitIn? }

    /** Registered, and about to give the mutex up. */
    predicate Owes() { WaitPut? || WaitUnlock? }

    /** Between giving the mutex up in a wait and regaining it. */
    predicate Away() { WaitIn? || WaitGot? }

    /** The frame that holds the waiter node exists. */
    predicate FrameLive() { InWait() }

    /** In a broadcast that has not yet emptied the list. */
    predicate Waking() { CastGet? || CastTest? || CastSend? || CastNext? }

    /** Past the ring update. */
    predicate Updated() { Waking() || CastPut? || Unlock? || Return? }
  }

  /** What a thread has done in its waits: nodes linked, signals got, and the mutex given up and regained. */
  datatype Tally = Tally(registered: nat, woken: nat, dropped: nat, retaken: nat)

  /** chain, sent, received and tally are histories; nothing branches on them. */
  datatype State = State(
    ring: Ring,
    mutex: AtomicLock.Holder,
    spin: AtomicLock.Holder,
    head: Option<Tid>,
    next: map<Tid, Option<Tid>>,
    pc: map<Tid, Pc>,
    chain: seq<Tid>,
    sent: seq<Item>,
    received: seq<Item>,
    tally: map<Tid, Tally>)

  datatype Event = Start(t: Tid, op: Op) | Step(t: Tid)

  /** The wait predicate of the two loops. */
  predicate Blocked(r: Ring, op: Op) {
    if op.Send? then Full(r) else Empty(r)
  }

  ghost predicate Init(s: State) {
    && s.ring == Create(s.ring.slots)
    && s.mutex.None? && s.spin.None? && s.head.None?
    && WellFormed(s)
    && (forall t :: t in s.pc ==> s.pc[t] == Idle && s.tally[t] == Tally(0, 0, 0, 0))
    && s.chain == [] && s.sent == [] && s.received == []
  }

  predicate WellFormed(s: State) {
    s.next.Keys == s.tally.Keys == s.pc.Keys
  }

  function Goto(s: State, t: Tid, p: Pc): State { s.(pc := s.pc[t := p]) }

  /** The bodies of queue_send and queue_receive, apart from the ring update. */
  predicate BodyReady(s: State, t: Tid) {
    WellFormed(s) && t in s.pc && s.pc[t].InBody() && (s.pc[t].Lock? ==> s.mutex.None?)
  }

  function BodyStep(s: State, t: Tid): State
    requires BodyReady(s, t)
  {
    match s.pc[t]
    case Lock(op) => Goto(s, t, Check(op)).(mutex := Some(t))
    case Check(op) => Goto(s, t, if Blocked(s.ring, op) then WaitGet(op) else Access(op))
    case Unlock(op, x, k) => Goto(s, t, Return(op, x, k)).(mutex := None)
    case Return(_, _, _) => Goto(s, t, Idle)
  }

  /** The item an operation moves, and the ring after it. */
  function Moved(r: Ring, op: Op): Item {
    if op.Send? then op.item else Front(r)
  }

  function Changed(r: Ring, op: Op): Ring {
    if op.Send? then Put(r, op.item) else Take(r)
  }

  /** The ring update, with the mutex held. */
  predicate AccessReady(s: State, t: Tid) {
    WellFormed(s) && t in s.pc && s.pc[t].Access?
  }

  function AccessStep(s: State, t: Tid): State
    requires AccessReady(s, t)
  {
    var op := s.pc[t].op;
    var x := Moved(s.ring, op);
    Goto(s, t, CastGet(op, x, if op.Send? then |s.sent| else |s.received|)).(
    ring := Changed(s.ring, op),
    sent := if op.Send? then s.sent + [x] else s.sent,
    received := if op.Send? then s.received else s.received + [x])
  }

  /** condition_variable_wait; no step of its own leads out of the channel input. */
  predicate WaitReady(s: State, t: Tid) {
    && WellFormed(s) && t in s.pc && s.pc[t].InWait()
    && (s.pc[t].WaitGet? ==> s.spin.None?)
    && !s.pc[t].WaitIn?
    && (s.pc[t].WaitGot? ==> s.mutex.None?)
  }

  function WaitStep(s: State, t: Tid): State
    requires WaitReady(s, t)
  {
    var mine := s.tally[t];
    match s.pc[t]
    case WaitGet(op) => Goto(s, t, WaitPush(op)).(spin := Some(t))
    case WaitPush(op) =>
      Goto(s, t, WaitPut(op)).(next := s.next[t := s.head], head := Some(t),
      chain := [t] + s.chain, tally := s.tally[t := mine.(registered := mine.registered + 1)])
    case WaitPut(op) => Goto(s, t, WaitUnlock(op)).(spin := None)
    case WaitUnlock(op) =>
      Goto(s, t, WaitIn(op)).(mutex := None, tally := s.tally[t := mine.(dropped := mine.dropped + 1)])
    case WaitGot(op) =>
      Goto(s, t, Check(op)).(mutex := Some(t), tally := s.tally[t := mine.(retaken := mine.retaken + 1)])
  }

  /** condition_variable_broadcast; the send is a rendezvous with the head waiter's channel input. */
  predicate CastReady(s: State, t: Tid) {
    && WellFormed(s) && t in s.pc && s.pc[t].InCast()
    && (s.pc[t].CastGet? ==> s.spin.None?)
    && (s.pc[t].CastSend? ==> s.head.Some? && s.head.value in s.pc && s.pc[s.head.value].WaitIn?)
    && (s.pc[t].CastNext? ==> s.head.Some? && s.head.value in s.next)
  }

  function CastStep(s: State, t: Tid): State
    requires CastReady(s, t)
  {
    match s.pc[t]
    case CastGet(op, x, k) => Goto(s, t, CastTest(op, x, k)).(spin := Some(t))
    case CastTest(op, x, k) => Goto(s, t, if s.head.Some? then CastSend(op, x, k) else CastPut(op, x, k))
    case CastSend(op, x, k) =>
      var w := s.head.value;
      Goto(Goto(s, w, WaitGot(s.pc[w].op)), t, CastNext(op, x, k)).(
      tally := s.tally[w := s.tally[w].(woken := s.tally[w].woken + 1)])
    case CastNext(op, x, k) =>
      Goto(s, t, CastTest(op, x, k)).(head := s.next[s.head.value],
      chain := if s.chain == [] then [] else s.chain[1..])
    case CastPut(op, x, k) => Goto(s, t, Unlock(op, x, k)).(spin := None)
  }

  predicate Enabled(s: State, e: Event) {
    match e
    case Start(t, _) => WellFormed(s) && t in s.pc && s.pc[t].Idle?
    case Step(t) => BodyReady(s, t) || AccessReady(s, t) || WaitReady(s, t) || CastReady(s, t)
  }

  function Apply(s: State, e: Event): State
    requires Enabled(s, e)
  {
    match e
    case Start(t, op) => Goto(s, t, Lock(op))
    case Step(t) =>
      if s.pc[t].InBody() then BodyStep(s, t)
      else if s.pc[t].Access? then AccessStep(s, t)
      else if s.pc[t].InWait() then WaitStep(s, t)
      else CastStep(s, t)
  }

  ghost predicate Next(s: State, s': State) {
    exists e :: Enabled(s, e) && s' == Apply(s, e)
  }

  /** A run: any interleaving of any number of threads, started on an empty ring. */
  ghost predicate IsRun(run: seq<State>) {
    && |run| > 0
    && Init(run[0])
    && forall i :: 0 <= i < |run| - 1 ==> Next(run[i], run[i + 1])
  }
}

/** The spinlock: load the word, test it, store own id + 1, delay, reload, compare; retry on failure.
    Any set of threads interleaves these accesses; each access carries the time at which it happens. */
module Spinlock {
  import opened Prelude
  import AtomicLock

  type Tid = nat

  datatype Pc =
    | Out                   // outside, or about to (re)try
    | Loaded(at: real)      // loaded a zero word, about to store the claim
    | Claimed(at: real)     // stored the claim, in the delay before the reload
    | Held                  // the reload compared equal: inside the critical section

  datatype State = State(word: nat, now: real, pc: map<Tid, Pc>)

  datatype Access = Load | Store | Reload | Release

  datatype Event = Event(t: Tid, at: real, access: Access)

  /** The value a thread claims the lock with. */
  function Claim(t: Tid): nat { t + 1 }

  predicate Enabled(s: State, e: Event) {
    && e.t in s.pc
    && s.now <= e.at
    && match e.access
       case Load => s.pc[e.t].Out?
       case Store => s.pc[e.t].Loaded?
       case Reload => s.pc[e.t].Claimed?
       case Release => s.pc[e.t].Held?
  }

  function Apply(s: State, e: Event): State
    requires Enabled(s, e)
  {
    match e.access
    case Load => State(s.word, e.at, s.pc[e.t := if s.word == 0 then Loaded(e.at) else Out])
    case Store => State(Claim(e.t), e.at, s.pc[e.t := Claimed(e.at)])
    case Reload => State(s.word, e.at, s.pc[e.t := if s.word == Claim(e.t) then Held else Out])
    case Release => State(0, e.at, s.pc[e.t := Out])
  }

  /** Every store comes within window of its load, every reload no sooner than delay after its store. */
  predicate InTime(window: real, delay: real, s: State, e: Event)
    requires Enabled(s, e)
  {
    && (e.access.Store? ==> e.at - s.pc[e.t].at <= window)
    && (e.access.Reload? ==> e.at - s.pc[e.t].at >= delay)
  }

  function Start(threads: set<Tid>): State {
    State(0, 0.0, map t | t in threads :: Out)
  }

  /** The state after a sequence of accesses; None when one of them is not the next one of its thread. */
  function Run(s: State, events: seq<Event>): Option<State>
    decreases |events|
  {
    if events == [] then Some(s)
    else if Enabled(s, events[0]) then Run(Apply(s, events[0]), events[1..])
    else None
  }

  predicate RunInTime(window: real, delay: real, s: State, events: seq<Event>)
    decreases |events|
  {
    events == [] ||
    (Enabled(s, events[0]) && InTime(window, delay, s, events[0])
     && RunInTime(window, delay, Apply(s, events[0]), events[1..]))
  }

  ghost predicate Exclusive(s: State) {
    forall t, u :: t in s.pc && u in s.pc && s.pc[t].Held? && s.pc[u].Held? ==> t == u
  }

  // ----- without any timing assumption -----

  /** A non-zero word names a thread that holds the lock or is between its claim and its reload. */
  ghost predicate NamesOwner(s: State) {
    s.word != 0 ==>
      exists t :: t in s.pc && s.word == Claim(t) && (s.pc[t].Claimed? || s.pc[t].Held?)
  }

  lemma NamesOwnerStep(s: State, e: Event)
    requires NamesOwner(s) && Enabled(s, e)
    ensures NamesOwner(Apply(s, e))
  {
    var s' := Apply(s, e);
    if s'.word != 0 {
      if e.access.Store? {
        assert s'.pc[e.t].Claimed?;
      } else {
        var t :| t in s.pc && s.word == Claim(t) && (s.pc[t].Claimed? || s.pc[t].Held?);
        assert s'.pc[t].Claimed? || s'.pc[t].Held?;
      }
    }
  }

  lemma {:induction false} RunNamesOwner(s: State, events: seq<Event>)
    requires NamesOwner(s) && Run(s, events).Some?
    ensures NamesOwner(Run(s, events).value)
    decreases |events|
  {
    if events != [] {
      NamesOwnerStep(s, events[0]);
      RunNamesOwner(Apply(s, events[0]), events[1..]);
    }
  }

  /** The lock never sticks: in every run, however it is timed, a taken word belongs to a thread whose own
      next access frees it or wins it. */
  lemma NeverSticks(threads: set<Tid>, events: seq<Event>)
    requires Run(Start(threads), events).Some?
    ensures var s := Run(Start(threads), events).value;
            s.word != 0 ==> exists t ::
                && t in s.pc && s.word == Claim(t)
                && (s.pc[t].Claimed? ==>
                      Enabled(s, Event(t, s.now, Reload)) && Apply(s, Event(t, s.now, Reload)).pc[t].Held?)
                && (!s.pc[t].Claimed? ==>
                      Enabled(s, Event(t, s.now, Release)) && Apply(s, Event(t, s.now, Release)).word == 0)
  {
    RunNamesOwner(Start(threads), events);
    var s := Run(Start(threads), events).value;
    if s.word != 0 {
      var t :| t in s.pc && s.word == Claim(t) && (s.pc[t].Claimed? || s.pc[t].Held?);
      assert s.pc[t].Claimed? ==> Enabled(s, Event(t, s.now, Reload));
    }
  }

  // ----- with the timing assumption -----

  /** Whoever loaded a zero word did so no later than the claim that now stands;
      once a claim has been won, whoever still has a store pending has missed its window. */
  ghost predicate Timed(window: real, s: State) {
    && (forall t :: t in s.pc && s.pc[t].Loaded? ==> s.pc[t].at <= s.now)
    && (forall t :: t in s.pc && s.pc[t].Claimed? ==> s.pc[t].at <= s.now)
    && (forall t, u :: t in s.pc && u in s.pc && s.pc[t].Claimed? && s.word == Claim(t) && s.pc[u].Loaded? ==>
                         s.pc[u].at <= s.pc[t].at)
    && (forall t :: t in s.pc && s.pc[t].Held? ==> s.word == Claim(t))
    && (forall t, u :: t in s.pc && u in s.pc && s.pc[t].Held? && s.pc[u].Loaded? ==> s.pc[u].at + window < s.now)
  }

  lemma TimedLoad(window: real, s: State, e: Event)
    requires Timed(window, s) && Enabled(s, e) && e.access.Load?
    ensures Timed(window, Apply(s, e))
  {
  }

  lemma TimedStore(window: real, s: State, e: Event)
    requires Timed(window, s) && Enabled(s, e) && e.access.Store? && e.at - s.pc[e.t].at <= window
    ensures Timed(window, Apply(s, e))
  {
  }

  lemma TimedReload(window: real, delay: real, s: State, e: Event)
    requires Timed(window, s) && Enabled(s, e) && e.access.Reload? && e.at - s.pc[e.t].at >= delay && window < delay
    ensures Timed(window, Apply(s, e))
  {
  }

  lemma TimedRelease(window: real, s: State, e: Event)
    requires Timed(window, s) && Enabled(s, e) && e.access.Release?
    ensures Timed(window, Apply(s, e))
  {
  }

  lemma TimedStep(window: real, delay: real, s: State, e: Event)
    requires window < delay
    requires Timed(window, s) && Enabled(s, e) && InTime(window, delay, s, e)
    ensures Timed(window, Apply(s, e))
  {
    match e.access
    case Load => TimedLoad(window, s, e);
    case Store => TimedStore(window, s, e);
    case Reload => TimedReload(window, delay, s, e);
    case Release => TimedRelease(window, s, e);
  }

  lemma {:induction false} RunTimed(window: real, delay: real, s: State, events: seq<Event>)
    requires window < delay && Timed(window, s) && RunInTime(window, delay, s, events)
    ensures Run(s, events).Some? && Timed(window, Run(s, events).value)
    decreases |events|
  {
    if events != [] {
      TimedStep(window, delay, s, events[0]);
      RunTimed(window, delay, Apply(s, events[0]), events[1..]);
    }
  }

  /** Mutual exclusion: if every load-to-store window is shorter than every store-to-reload delay,
      no run of any number of threads has two of them inside. */
  lemma MutualExclusion(window: real, delay: real, threads: set<Tid>, events: seq<Event>)
    requires window < delay && RunInTime(window, delay, Start(threads), events)
    ensures Run(Start(threads), events).Some? && Exclusive(Run(Start(threads), events).value)
  {
    RunTimed(window, delay, Start(threads), events);
  }

  // ----- the timing assumption is needed, exactly as stated -----

  /** Both threads load zero; the first claims, waits and wins; the second then claims, waits and wins too. */
  function Overlap(window: real, delay: real, t: Tid, u: Tid): seq<Event> {
    var d := if delay < 0.0 then 0.0 else delay;
    [Event(t, 0.0, Load), Event(u, 0.0, Load), Event(t, 0.0, Store), Event(t, d, Reload),
     Event(u, d, Store), Event(u, d + d, Reload)]
  }

  lemma OverlapBreaks(window: real, delay: real, threads: set<Tid>, t: Tid, u: Tid)
    requires 0.0 <= window && delay <= window && t in threads && u in threads && t != u
    ensures var events := Overlap(window, delay, t, u);
            && RunInTime(window, delay, Start(threads), events)
            && Run(Start(threads), events).Some?
            && !Exclusive(Run(Start(threads), events).value)
  {
    var d := if delay < 0.0 then 0.0 else delay;
    var s0 := Start(threads);
    var s1 := Apply(s0, Event(t, 0.0, Load));
    var s2 := Apply(s1, Event(u, 0.0, Load));
    var s3 := Apply(s2, Event(t, 0.0, Store));
    var s4 := Apply(s3, Event(t, d, Reload));
    var s5 := Apply(s4, Event(u, d, Store));
    var s6 := Apply(s5, Event(u, d + d, Reload));
    assert s6.pc[t].Held? && s6.pc[u].Held?;
    var es := Overlap(window, delay, t, u);
    Unfold(window, delay, s5, es[5], []);
    assert es[4..] == [es[4]] + es[5..] && es[5..] == [es[5]] + [];
    Unfold(window, delay, s4, es[4], es[5..]);
    assert es[3..] == [es[3]] + es[4..];
    Unfold(window, delay, s3, es[3], es[4..]);
    assert es[2..] == [es[2]] + es[3..];
    Unfold(window, delay, s2, es[2], es[3..]);
    assert es[1..] == [es[1]] + es[2..];
    Unfold(window, delay, s1, es[1], es[2..]);
    assert es == [es[0]] + es[1..];
    Unfold(window, delay, s0, es[0], es[1..]);
  }

  lemma Unfold(window: real, delay: real, s: State, e: Event, rest: seq<Event>)
    requires Enabled(s, e) && InTime(window, delay, s, e) && RunInTime(window, delay, Apply(s, e), rest)
    ensures RunInTime(window, delay, s, [e] + rest)
    ensures Run(s, [e] + rest) == Run(Apply(s, e), rest)
  {
    assert ([e] + rest)[1..] == rest;
  }

  ghost predicate AlwaysExclusive(window: real, delay: real, threads: set<Tid>) {
    forall events :: RunInTime(window, delay, Start(threads), events) && Run(Start(threads), events).Some? ==>
                       Exclusive(Run(Start(threads), events).value)
  }

  /** For two or more threads, mutual exclusion holds in every run if and only if window < delay. */
  lemma ExclusionExactly(window: real, delay: real, threads: set<Tid>, t: Tid, u: Tid)
    requires 0.0 <= window && t in threads && u in threads && t != u
    ensures AlwaysExclusive(window, delay, threads) <==> window < delay
  {
    if window < delay {
      forall events | RunInTime(window, delay, Start(threads), events)
        ensures Run(Start(threads), events).Some? ==> Exclusive(Run(Start(threads), events).value)
      {
        MutualExclusion(window, delay, threads, events);
      }
    } else {
      OverlapBreaks(window, delay, threads, t, u);
    }
  }

  // ----- what the other models assume of it -----

  /** The lock as its users see it. */
  ghost predicate Abstracts(s: State, holder: AtomicLock.Holder) {
    forall t :: t in s.pc ==> (s.pc[t].Held? <==> holder == Some(t))
  }

  /** Seen from outside, an in-time access is one of an atomic lock: a winning reload acquires it while it is free,
      a release gives it up, and nothing else is visible. */
  lemma RefinesAtomicLock(window: real, delay: real, s: State, e: Event, holder: AtomicLock.Holder)
    requires window < delay && Timed(window, s) && Enabled(s, e) && InTime(window, delay, s, e)
    requires Abstracts(s, holder) && (holder.Some? ==> holder.value in s.pc)
    ensures var s' := Apply(s, e);
            if e.access.Reload? && s'.pc[e.t].Held? then
              AtomicLock.Acquire(holder, e.t, Some(e.t)) && Abstracts(s', Some(e.t))
            else if e.access.Release? then
              AtomicLock.Release(holder, e.t, None) && Abstracts(s', None)
            else Abstracts(s', holder)
  {
    TimedStep(window, delay, s, e);
  }
}

/** The event counter: a count that is signalled down to zero, and a one-shot token for its waiter. */
module EventCounter {

  /** The count after one signal, and whether that signal sends the token. */
  function CountDown(count: nat): (nat, bool) {
    if count > 0 then (count - 1, count == 1) else (0, false)
  }

  /** The count after a number of signals, and the tokens they sent. */
  function Signals(count: nat, signals: nat): (nat, nat) {
    if signals == 0 then (count, 0)
    else
      var (c, tokens) := Signals(count, signals - 1);
      var (c', last) := CountDown(c);
      (c', if last then tokens + 1 else tokens)
  }

  /** However many signals come, one token is sent, by the signal that makes it as many as the count; none if the
      count was zero from the start. */
  lemma {:induction false} OneToken(count: nat, signals: nat)
    ensures Signals(count, signals) == (if signals < count then count - signals else 0,
                                        if 0 < count <= signals then 1 else 0)
  {
    if signals > 0 {
      OneToken(count, signals - 1);
    }
  }

  class Counter {
    var count: nat
    var tokens: nat         // sent and not yet taken
    ghost var initial: nat
    ghost var signals: nat

    ghost predicate Valid()
      reads this
    {
      (count, tokens) == Signals(initial, signals)
    }

    constructor (count: nat)
      ensures Valid() && this.count == count && tokens == 0 && initial == count && signals == 0
    {
      this.count, tokens := count, 0;
      initial, signals := count, 0;
    }

    /** event_counter_signal, not interleaved with another. */
    method Signal()
      requires Valid()
      modifies this
      ensures Valid() && initial == old(initial) && signals == old(signals) + 1
      ensures count == CountDown(old(count)).0
      ensures tokens == old(tokens) + if CountDown(old(count)).1 then 1 else 0
    {
      var signal := false;
      if count > 0 {
        count := count - 1;
        if count == 0 {
          signal := true;
        }
      }
      if signal {
        tokens := tokens + 1;
      }
      signals := signals + 1;
    }
  }
}

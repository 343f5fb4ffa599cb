/** The ring buffer of queue_metal.c as a value: slots, two indices and the full flag,
    with the index arithmetic of a 32-bit size_t. */
module Ring {

  /** Number of values of size_t on the 32-bit target. */
  const SIZE_T_RANGE: nat := 0x1_0000_0000

  type Item = nat

  function WrapAdd(a: nat, b: nat): nat { (a + b) % SIZE_T_RANGE }

  function WrapSub(a: nat, b: nat): nat { (a - b) % SIZE_T_RANGE }

  datatype RawRing = RawRing(slots: seq<Item>, head: nat, tail: nat, full: bool) {
    predicate Valid() {
      && 0 < |slots| < SIZE_T_RANGE
      && head < |slots|
      && tail < |slots|
      && (full ==> head == tail)
    }
  }

  type Ring = r: RawRing | r.Valid() witness RawRing([0], 0, 0, false)

  /** The queued items, oldest first. */
  function Contents(r: Ring): seq<Item> {
    if !r.full && r.tail <= r.head
    then r.slots[r.tail..r.head]
    else r.slots[r.tail..] + r.slots[..r.head]
  }

  function Create(slots: seq<Item>): (r: Ring)
    requires 0 < |slots| < SIZE_T_RANGE
    ensures Contents(r) == [] && |r.slots| == |slots|
  {
    RawRing(slots, 0, 0, false)
  }

  predicate Full(r: Ring) { r.full }

  predicate Empty(r: Ring) { !r.full && r.head == r.tail }

  /** queue_size: the subtraction goes through a sum that may wrap. */
  function Size(r: Ring): nat {
    if r.full then |r.slots|
    else if r.head >= r.tail then WrapSub(r.head, r.tail)
    else WrapSub(WrapAdd(|r.slots|, r.head), r.tail)
  }

  /** The next index round a ring of n slots. */
  function Advance(i: nat, n: nat): nat { if i + 1 == n then 0 else i + 1 }

  lemma SmallMod(a: nat, n: nat)
    requires a < n
    ensures a % n == a
  {
  }

  lemma SelfMod(n: nat)
    requires n > 0
    ensures n % n == 0
  {
  }

  /** The index arithmetic of the source, (i + 1) % n in size_t, goes round the ring and never wraps past size_t. */
  lemma IncrementAdvances(i: nat, n: nat)
    requires i < n < SIZE_T_RANGE
    ensures WrapAdd(i, 1) % n == Advance(i, n)
  {
    SmallMod(i + 1, SIZE_T_RANGE);
    if i + 1 < n {
      SmallMod(i + 1, n);
    } else {
      SelfMod(n);
    }
  }

  /** The update of queue_send, including its overwrite branch, which drops the oldest item of a full ring. */
  function Put(r: Ring, x: Item): (r': Ring)
    ensures |r'.slots| == |r.slots|
    ensures Contents(r') == if Full(r) then Contents(r)[1..] + [x] else Contents(r) + [x]
  {
    var slots := r.slots[r.head := x];
    var tail := if r.full then Advance(r.tail, |r.slots|) else r.tail;
    var head := Advance(r.head, |r.slots|);
    RawRing(slots, head, tail, head == tail)
  }

  /** The item queue_receive reads. */
  function Front(r: Ring): Item { r.slots[r.tail] }

  /** The update of queue_receive. */
  function Take(r: Ring): (r': Ring)
    ensures |r'.slots| == |r.slots|
    ensures !Empty(r) ==> Contents(r) == [Front(r)] + Contents(r')
  {
    RawRing(r.slots, r.head, Advance(r.tail, |r.slots|), false)
  }

  /** A sum that wraps past size_t and is then brought back by a subtraction is still exact. */
  lemma WrapCancels(a: nat, b: nat, c: nat)
    requires c <= a + b < c + SIZE_T_RANGE && c < SIZE_T_RANGE
    ensures WrapSub(WrapAdd(a, b), c) == a + b - c
  {
    var q := (a + b) / SIZE_T_RANGE;
    var wrapped := WrapAdd(a, b);
    assert a + b == q * SIZE_T_RANGE + wrapped;
    assert q == 0 || q == 1;
  }

  /** The flags and the size agree with the sequence, for every size_t length. */
  lemma FlagsAgree(r: Ring)
    ensures Full(r) <==> |Contents(r)| == |r.slots|
    ensures Empty(r) <==> Contents(r) == []
    ensures Size(r) == |Contents(r)| <= |r.slots|
  {
    if !r.full && r.head < r.tail {
      WrapCancels(|r.slots|, r.head, r.tail);
    }
  }
}

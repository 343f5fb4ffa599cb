/** queue_t without its locks: the ring buffer updated in place, against the values of module Ring. */
module RingBuffer {
  import opened Ring

  class Queue {
    const length: nat
    var ringBuffer: array<Item>
    var head: nat
    var tail: nat
    var full: bool

    ghost function Raw(): RawRing
      reads this, ringBuffer
    {
      RawRing(ringBuffer[..], head, tail, full)
    }

    ghost predicate Valid()
      reads this, ringBuffer
    {
      Raw().Valid() && ringBuffer.Length == length
    }

    ghost function Value(): Ring
      requires Valid()
      reads this, ringBuffer
    {
      Raw()
    }

    /** queue_create. */
    constructor (length: nat)
      requires 0 < length < SIZE_T_RANGE
      ensures Valid() && fresh(ringBuffer) && this.length == length
      ensures Contents(Value()) == []
    {
      this.length := length;
      ringBuffer := new Item[length];
      head, tail, full := 0, 0, false;
    }

    /** queue_full. */
    method IsFull() returns (r: bool)
      requires Valid()
      ensures r <==> |Contents(Value())| == length
    {
      FlagsAgree(Value());
      r := full;
    }

    /** queue_empty. */
    method IsEmpty() returns (r: bool)
      requires Valid()
      ensures r <==> Contents(Value()) == []
    {
      FlagsAgree(Value());
      r := !full && head == tail;
    }

    /** queue_size, with the mutex held. */
    method GetSize() returns (size: nat)
      requires Valid()
      ensures size == |Contents(Value())| <= length
    {
      FlagsAgree(Value());
      size := length;
      if !full {
        if head >= tail {
          size := WrapSub(head, tail);
        } else {
          size := WrapSub(WrapAdd(length, head), tail);
        }
      }
    }

    /** The update of queue_send. */
    method Append(item: Item)
      requires Valid()
      modifies this, ringBuffer
      ensures Valid() && ringBuffer == old(ringBuffer)
      ensures Value() == Put(old(Value()), item)
      ensures |old(Contents(Value()))| < length ==> Contents(Value()) == old(Contents(Value())) + [item]
    {
      FlagsAgree(Value());
      IncrementAdvances(head, length);
      IncrementAdvances(tail, length);
      ringBuffer[head] := item;
      if full {
        tail := WrapAdd(tail, 1) % length;
      }
      head := WrapAdd(head, 1) % length;
      full := head == tail;
    }

    /** The update of queue_receive. */
    method Remove() returns (item: Item)
      requires Valid()
      modifies this
      ensures Valid() && ringBuffer == old(ringBuffer)
      ensures Value() == Take(old(Value())) && item == Front(old(Value()))
      ensures old(Contents(Value())) != [] ==> old(Contents(Value())) == [item] + Contents(Value())
    {
      FlagsAgree(Value());
      IncrementAdvances(tail, length);
      item := ringBuffer[tail];
      full := false;
      tail := WrapAdd(tail, 1) % length;
    }
  }
}

/** The waiter list of the condition variable, in place: nodes linked through next, newest first. */
module WaiterList {

  datatype Event = Signal | Terminate

  /** A message on a channel: to which channel end, and what. */
  datatype Message = Message(cend: nat, event: Event)

  class Node {
    var cend: nat
    var next: Node?

    constructor (cend: nat)
      ensures this.cend == cend && next == null
    {
      this.cend := cend;
      next := null;
    }
  }

  /** Following the links from head visits exactly the nodes of chain, in order. */
  ghost predicate Linked(head: Node?, chain: seq<Node>)
    reads chain
    decreases |chain|
  {
    if chain == [] then head == null
    else head == chain[0] && Linked(chain[0].next, chain[1..])
  }

  class ConditionVariable {
    var waiters: Node?
    var sent: seq<Message>      // everything sent to waiters so far
    ghost var chain: seq<Node>

    ghost predicate Valid()
      reads this, chain
    {
      Linked(waiters, chain) && forall i, j :: 0 <= i < j < |chain| ==> chain[i] != chain[j]
    }

    constructor ()
      ensures Valid() && chain == [] && sent == []
    {
      waiters, sent, chain := null, [], [];
    }

    /** The registration in condition_variable_wait: the node goes to the front. */
    method Register(node: Node, dest: nat)
      requires Valid() && node !in chain
      modifies this, node
      ensures Valid() && chain == [node] + old(chain) && sent == old(sent)
      ensures node.cend == dest
    {
      node.cend := dest;
      node.next := waiters;
      waiters := node;
      chain := [node] + chain;
      assert chain[1..] == old(chain);
    }

    /** condition_variable_signal: wake the newest waiter, if any. */
    method SignalOne()
      requires Valid()
      modifies this
      ensures Valid()
      ensures old(chain) == [] ==> chain == [] && sent == old(sent)
      ensures old(chain) != [] ==> chain == old(chain)[1..] && sent == old(sent) + [Message(old(chain)[0].cend, Signal)]
    {
      if waiters != null {
        sent := sent + [Message(waiters.cend, Signal)];
        waiters := waiters.next;
        chain := chain[1..];
      }
    }

    /** The loop of condition_variable_broadcast and condition_variable_terminate: every node in the list gets
        exactly one message, newest first, and the list is left empty. */
    method SendAll(event: Event)
      requires Valid()
      modifies this
      ensures Valid() && chain == [] && waiters == null
      ensures |sent| == |old(sent)| + |old(chain)| && old(sent) <= sent
      ensures forall i :: 0 <= i < |old(chain)| ==> sent[|old(sent)| + i] == Message(old(chain)[i].cend, event)
    {
      ghost var k := 0;
      while waiters != null
        invariant 0 <= k <= |old(chain)|
        invariant Valid() && chain == old(chain)[k..]
        invariant |sent| == |old(sent)| + k && old(sent) <= sent
        invariant forall i :: 0 <= i < k ==> sent[|old(sent)| + i] == Message(old(chain)[i].cend, event)
        decreases |chain|
      {
        assert waiters == old(chain)[k];
        sent := sent + [Message(waiters.cend, event)];
        waiters := waiters.next;
        chain := chain[1..];
        k := k + 1;
      }
    }
  }
}

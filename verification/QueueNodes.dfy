/** The singly linked list of both queues: items sit in all nodes but the last, a dummy that receives the next item. */
module QueueNodes {

  class Node<T(0)> {
    var va: T
    var next: Node?<T>

    constructor ()
      ensures next == null
    {
      next := null;
    }
  }

  ghost predicate LinkAt<T(0)>(nodes: seq<Node<T>>, i: nat)
    requires i < |nodes| - 1
    reads nodes
  {
    nodes[i].next == nodes[i + 1]
  }

  /** `nodes` are linked in this order, and end there. */
  ghost predicate Chain<T(0)>(nodes: seq<Node<T>>)
    reads nodes
  {
    && nodes != [] && nodes[|nodes| - 1].next == null
    && forall i {:trigger LinkAt(nodes, i)} :: 0 <= i < |nodes| - 1 ==> LinkAt(nodes, i)
  }

  ghost function Items<T(0)>(nodes: seq<Node<T>>): seq<T>
    requires nodes != []
    reads nodes
  {
    seq(|nodes| - 1, i requires 0 <= i < |nodes| - 1 reads nodes => nodes[i].va)
  }

  /** A chain has items exactly when its first node is not its last one. */
  lemma ChainEnds<T(0)>(nodes: seq<Node<T>>)
    requires Chain(nodes)
    ensures nodes[0] == nodes[|nodes| - 1] <==> Items(nodes) == []
  {
    assert |nodes| > 1 ==> LinkAt(nodes, 0);
  }

  lemma ChainTail<T(0)>(nodes: seq<Node<T>>)
    requires Chain(nodes) && Items(nodes) != []
    ensures Chain(nodes[1..]) && Items(nodes[1..]) == Items(nodes)[1..] && nodes[0].next == nodes[1]
  {
    assert LinkAt(nodes, 0);
    forall i | 0 <= i < |nodes[1..]| - 1 ensures LinkAt(nodes[1..], i) {
      assert LinkAt(nodes, i + 1);
    }
  }

  /** The item goes into the dummy node, and a new dummy follows it. */
  method Append<T(0)>(tail: Node<T>, v: T, ghost nodes: seq<Node<T>>) returns (node: Node<T>)
    requires Chain(nodes) && tail == nodes[|nodes| - 1]
    modifies tail
    ensures fresh(node) && Chain(nodes + [node]) && Items(nodes + [node]) == old(Items(nodes)) + [v]
  {
    node := new Node<T>();
    forall i | 0 <= i < |nodes| - 1 ensures nodes[i] != tail {
      assert LinkAt(nodes, i);
    }
    tail.va := v;
    tail.next := node;
    ghost var r := nodes + [node];
    forall i | 0 <= i < |r| - 1 ensures LinkAt(r, i) {
      assert i < |nodes| - 1 ==> old(LinkAt(nodes, i));
    }
  }
}

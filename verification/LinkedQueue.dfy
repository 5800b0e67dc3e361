/** The doubly linked queue of prelab/producer_consumer.c. */
module LinkedQueue {
  import opened Sequences

  class Node {
    var next: Node?
    var prev: Node?
    const c: char

    constructor (c: char)
      ensures this.c == c && next == null
    {
      this.c := c;
      next := null;
    }
  }

  function Chars(nodes: seq<Node>): seq<char> {
    seq(|nodes|, i requires 0 <= i < |nodes| => nodes[i].c)
  }

  lemma CharsSnoc(nodes: seq<Node>, node: Node)
    ensures Chars(nodes + [node]) == Chars(nodes) + [node.c]
  {
  }

  lemma CharsTail(nodes: seq<Node>)
    requires nodes != []
    ensures Chars(nodes[1..]) == Chars(nodes)[1..]
  {
  }

  /** `next` and `prev` of every node lead to its neighbours. */
  ghost predicate Linked(nodes: seq<Node>)
    reads nodes
  {
    forall i {:trigger nodes[i]} :: 0 <= i < |nodes| ==>
      && nodes[i].next == (if i + 1 < |nodes| then nodes[i + 1] else null)
      && nodes[i].prev == (if i > 0 then nodes[i - 1] else null)
  }

  class Queue {
    var front: Node?
    var back: Node?
    // The nodes from front to back.
    ghost var nodes: seq<Node>

    ghost predicate Valid()
      reads this, nodes
    {
      && (front == if nodes == [] then null else nodes[0])
      && (back == if nodes == [] then null else nodes[|nodes| - 1])
      && Distinct(nodes) && Linked(nodes)
    }

    constructor ()
      ensures Valid() && nodes == []
    {
      front, back := null, null;
      nodes := [];
    }

    /** Lines 124-136. */
    method Append(node: Node)
      requires Valid() && node !in nodes && node.next == null
      modifies this, nodes, node
      ensures Valid() && nodes == old(nodes) + [node]
      ensures Chars(nodes) == old(Chars(nodes)) + [node.c]
    {
      if back == null {
        assert front == null;
        node.prev := null;
        front := node;
        back := node;
      } else {
        assert front != null;
        node.prev := back;
        back.next := node;
        back := node;
      }
      CharsSnoc(nodes, node);
      nodes := nodes + [node];
    }

    /** Lines 184-191. */
    method RemoveFront() returns (node: Node)
      requires Valid() && front != null
      modifies this, nodes
      ensures Valid() && old(nodes) != [] && node == old(nodes)[0]
      ensures node !in nodes && forall x :: x in nodes ==> x in old(nodes)
      ensures node.c == old(Chars(nodes))[0] && Chars(nodes) == old(Chars(nodes))[1..]
    {
      node := front;
      if front.next == null {
        back := null;
      } else {
        front.next.prev := null;
      }
      front := front.next;
      CharsTail(nodes);
      nodes := nodes[1..];
    }
  }
}

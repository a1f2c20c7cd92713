/** The FIFO of bus transactions as a doubly linked list: transactions enter at the head and leave at the tail. */
module BusQueue {
  import opened Types

  class QueueNode {
    const item: Transaction
    var prev: QueueNode?
    var next: QueueNode?

    constructor (item: Transaction)
      ensures this.item == item && prev == null && next == null
    {
      this.item, prev, next := item, null, null;
    }
  }

  class TransactionQueue {
    var head: QueueNode?
    var tail: QueueNode?
    ghost var nodes: seq<QueueNode>  // from the tail to the head
    ghost var Repr: set<object>

    /** `prev` leads from a node to the next younger one and `next` back again; both end in null. */
    ghost predicate Valid()
      reads this, Repr
    {
      && this in Repr && (forall i :: 0 <= i < |nodes| ==> nodes[i] in Repr)
      && (head == null <==> nodes == []) && (tail == null <==> nodes == [])
      && (nodes != [] ==>
            && tail == nodes[0] && nodes[0].next == null
            && head == nodes[|nodes| - 1] && nodes[|nodes| - 1].prev == null)
      && (forall i, j :: 0 <= i < j < |nodes| && j == i + 1 ==> nodes[i].prev == nodes[j] && nodes[j].next == nodes[i])
      && (forall i, j :: 0 <= i < j < |nodes| ==> nodes[i] != nodes[j])
    }

    ghost function Contents(): (s: seq<Transaction>)
      reads this
    {
      seq(|nodes|, i requires 0 <= i < |nodes| reads this => nodes[i].item)
    }

    constructor ()
      ensures Valid() && Contents() == [] && fresh(Repr)
    {
      head, tail, nodes, Repr := null, null, [], {this};
    }

    method IsEmpty() returns (empty: bool)
      requires Valid()
      ensures empty <==> Contents() == []
    {
      empty := head == null;
    }

    method Enqueue(t: Transaction)
      requires Valid()
      modifies Repr
      ensures Valid() && fresh(Repr - old(Repr)) && Contents() == old(Contents()) + [t]
    {
      var item := new QueueNode(t);
      if head == null {
        tail := item;
      } else {
        head.prev := item;
        item.next := head;
      }
      head := item;
      nodes, Repr := nodes + [item], Repr + {item};
    }

    /** The oldest transaction leaves; nothing happens if there is none. */
    method Dequeue() returns (t: Option<Transaction>)
      requires Valid()
      modifies Repr
      ensures Valid() && Repr == old(Repr)
      ensures old(Contents()) == [] ==> t == None && Contents() == []
      ensures old(Contents()) != [] ==> t == Some(old(Contents())[0]) && Contents() == old(Contents())[1..]
    {
      if tail == null {
        return None;
      }
      assert |nodes| > 1 ==> nodes[0].prev == nodes[1];
      var item := tail;
      tail := item.prev;
      if tail == null {
        head := null;
      } else {
        tail.next := null;
      }
      item.prev := null;
      nodes := nodes[1..];
      t := Some(item.item);
    }
  }
}

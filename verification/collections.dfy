/** utilities/collections.py: a doubly linked list whose head/tail fields and
    node prev/next pointers are rewired in place. */
module Collections {
  import opened Common

  function Reverse<U>(s: seq<U>): (r: seq<U>)
    ensures |r| == |s| && forall i :: 0 <= i < |s| ==> r[i] == s[|s| - 1 - i]
  {
    if s == [] then [] else Reverse(s[1..]) + [s[0]]
  }

  class Node<T> {
    const value: T
    var next: Node?<T>
    var prev: Node?<T>

    /** `Node(value)`: an unlinked node. */
    constructor (value: T)
      ensures this.value == value && next == null && prev == null
    {
      this.value := value;
      next := null;
      prev := null;
    }
  }

  /** The values of a run of nodes, front to back. */
  function ValuesOf<T>(ns: seq<Node<T>>): (vs: seq<T>)
    ensures |vs| == |ns| && forall i :: 0 <= i < |ns| ==> vs[i] == ns[i].value
  {
    seq(|ns|, k requires 0 <= k < |ns| => ns[k].value)
  }

  lemma ValuesOfSlice<T>(ns: seq<Node<T>>, i: nat, j: nat)
    requires i <= j <= |ns|
    ensures ValuesOf(ns[i..j]) == ValuesOf(ns)[i..j]
  {
  }

  lemma ValuesOfConcat<T>(a: seq<Node<T>>, b: seq<Node<T>>)
    ensures ValuesOf(a + b) == ValuesOf(a) + ValuesOf(b)
  {
  }

  /** The values after inserting a node at `i` are the old values with its value at `i`. */
  lemma ValuesOfInsert<T>(ns: seq<Node<T>>, i: nat, node: Node<T>)
    requires i <= |ns|
    ensures ValuesOf(ns[..i] + [node] + ns[i..]) == ValuesOf(ns)[..i] + [node.value] + ValuesOf(ns)[i..]
  {
  }

  /** The values after removing the node at `i` are the old values without the one at `i`. */
  lemma ValuesOfRemove<T>(ns: seq<Node<T>>, i: nat)
    requires i < |ns|
    ensures ValuesOf(ns[..i] + ns[i + 1..]) == ValuesOf(ns)[..i] + ValuesOf(ns)[i + 1..]
  {
  }

  /** No element occurs twice. */
  predicate Distinct<U(==)>(s: seq<U>)
  {
    forall i, j :: 0 <= i < j < |s| ==> s[i] != s[j]
  }

  function Elements<U>(s: seq<U>): set<U>
  {
    set y | y in s
  }

  /** Inserting a new element keeps a sequence duplicate-free and adds it to the
      element set. */
  lemma InsertKeepsDistinct<U>(s: seq<U>, i: nat, x: U)
    requires i <= |s| && Distinct(s) && x !in s
    ensures Distinct(s[..i] + [x] + s[i..])
    ensures Elements(s[..i] + [x] + s[i..]) == Elements(s) + {x}
  {
    var t := s[..i] + [x] + s[i..];
    assert forall j :: 0 <= j < |t| && j != i ==> t[j] == s[if j < i then j else j - 1];
    assert forall y :: y in s ==> y in t by {
      forall y | y in s ensures y in t {
        var k :| 0 <= k < |s| && s[k] == y;
        assert t[if k < i then k else k + 1] == y;
      }
    }
  }

  /** Removing the element at `i` keeps a sequence duplicate-free and drops
      exactly that element from the element set. */
  lemma RemoveKeepsDistinct<U>(s: seq<U>, i: nat)
    requires i < |s| && Distinct(s)
    ensures Distinct(s[..i] + s[i + 1..])
    ensures Elements(s[..i] + s[i + 1..]) == Elements(s) - {s[i]}
  {
    var t := s[..i] + s[i + 1..];
    assert forall j :: 0 <= j < |t| ==> t[j] == s[if j < i then j else j + 1];
    forall y | y in s && y != s[i] ensures y in t {
      var k :| 0 <= k < |s| && s[k] == y;
      assert t[if k < i then k else k - 1] == y;
    }
  }

  /** Each node's next is its successor in `ns` and its prev its predecessor. */
  ghost predicate Linked<T>(ns: seq<Node<T>>)
    reads set n | n in ns
  {
    (forall i {:trigger ns[i].next} :: 0 <= i < |ns| - 1 ==> ns[i].next == ns[i + 1]) &&
    (forall i {:trigger ns[i].prev} :: 0 < i < |ns| ==> ns[i].prev == ns[i - 1])
  }

  /** Lines 114 and 116-117 of insert_node on the nodes alone: `node` goes in
      front of the first node of the chain. */
  method SpliceFront<T>(node: Node<T>, before: Node<T>, ghost ns: seq<Node<T>>)
    requires ns != [] && ns[0] == before && before.prev == null
    requires Distinct(ns) && node !in ns && Linked(ns)
    modifies before, node
    ensures Linked(ns[..0] + [node] + ns[0..]) && node.prev == null
    ensures ns[|ns| - 1].next == old(ns[|ns| - 1].next)
  {
    before.prev := node;
    node.prev := null;
    node.next := before;
    ghost var ns' := ns[..0] + [node] + ns[0..];
    forall j | 0 < j < |ns'| - 1
      ensures ns'[j].next == ns'[j + 1]
    {
      assert ns'[j] == ns[j - 1] && ns'[j + 1] == ns[j];
      assert old(ns[j - 1].next) == ns[j];
    }
    forall j | 1 < j < |ns'|
      ensures ns'[j].prev == ns'[j - 1]
    {
      assert ns'[j] == ns[j - 1] && ns'[j - 1] == ns[j - 2];
      assert old(ns[j - 1].prev) == ns[j - 2];
    }
  }

  /** Lines 119-122 of insert_node on the nodes alone: `node` goes between
      `before` and its predecessor. */
  method SpliceBetween<T>(node: Node<T>, before: Node<T>, ghost ns: seq<Node<T>>, ghost i: nat)
    requires 0 < i < |ns| && ns[i] == before
    requires Distinct(ns) && node !in ns && Linked(ns)
    modifies ns[i - 1], before, node
    ensures Linked(ns[..i] + [node] + ns[i..])
    ensures ns[0].prev == old(ns[0].prev) && ns[|ns| - 1].next == old(ns[|ns| - 1].next)
  {
    var prevNode := before.prev;
    prevNode.next := node;
    node.prev := prevNode;
    before.prev := node;
    node.next := before;
    ghost var ns' := ns[..i] + [node] + ns[i..];
    forall j | 0 <= j < |ns'| - 1
      ensures ns'[j].next == ns'[j + 1]
    {
      if j + 1 < i {
        assert ns'[j] == ns[j] && ns'[j + 1] == ns[j + 1];
        assert old(ns[j].next) == ns[j + 1];
      } else if j > i {
        assert ns'[j] == ns[j - 1] && ns'[j + 1] == ns[j];
        assert old(ns[j - 1].next) == ns[j];
      }
    }
    forall j | 0 < j < |ns'|
      ensures ns'[j].prev == ns'[j - 1]
    {
      if j < i {
        assert ns'[j] == ns[j] && ns'[j - 1] == ns[j - 1];
        assert old(ns[j].prev) == ns[j - 1];
      } else if j > i + 1 {
        assert ns'[j] == ns[j - 1] && ns'[j - 1] == ns[j - 2];
        assert old(ns[j - 1].prev) == ns[j - 2];
      }
    }
  }

  /** Lines 88 and 100-101 of remove_node on the nodes alone: the first node of
      a chain of two or more leaves it. */
  method UnspliceFirst<T>(node: Node<T>, ghost ns: seq<Node<T>>)
    requires 1 < |ns| && ns[0] == node && node.prev == null
    requires Distinct(ns) && Linked(ns)
    modifies ns[1], node
    ensures Linked(ns[..0] + ns[1..]) && ns[1].prev == null
    ensures ns[|ns| - 1].next == old(ns[|ns| - 1].next)
    ensures node.prev == null && node.next == null
  {
    var nextNode := node.next;
    nextNode.prev := null;
    node.prev := null;
    node.next := null;
    ghost var ns' := ns[..0] + ns[1..];
    forall j | 0 <= j < |ns'| - 1
      ensures ns'[j].next == ns'[j + 1]
    {
      assert ns'[j] == ns[j + 1] && ns'[j + 1] == ns[j + 2];
      assert old(ns[j + 1].next) == ns[j + 2];
    }
    forall j | 0 < j < |ns'|
      ensures ns'[j].prev == ns'[j - 1]
    {
      assert ns'[j] == ns[j + 1] && ns'[j - 1] == ns[j];
      assert old(ns[j + 1].prev) == ns[j];
    }
  }

  /** Lines 94 and 100-101 of remove_node on the nodes alone: the last node of
      a chain of two or more leaves it. */
  method UnspliceLast<T>(node: Node<T>, ghost ns: seq<Node<T>>)
    requires 1 < |ns| && ns[|ns| - 1] == node && node.next == null
    requires Distinct(ns) && Linked(ns)
    modifies ns[|ns| - 2], node
    ensures Linked(ns[..|ns| - 1] + ns[|ns|..]) && ns[|ns| - 2].next == null
    ensures ns[0].prev == old(ns[0].prev)
    ensures node.prev == null && node.next == null
  {
    var prevNode := node.prev;
    prevNode.next := null;
    node.prev := null;
    node.next := null;
    ghost var ns' := ns[..|ns| - 1] + ns[|ns|..];
    forall j | 0 <= j < |ns'| - 1
      ensures ns'[j].next == ns'[j + 1]
    {
      assert ns'[j] == ns[j] && ns'[j + 1] == ns[j + 1];
      assert old(ns[j].next) == ns[j + 1];
    }
    forall j | 0 < j < |ns'|
      ensures ns'[j].prev == ns'[j - 1]
    {
      assert ns'[j] == ns[j] && ns'[j - 1] == ns[j - 1];
      assert old(ns[j].prev) == ns[j - 1];
    }
  }

  /** Lines 97-101 of remove_node on the nodes alone: an inner node leaves the
      chain and its neighbours are linked to each other. */
  method UnspliceInner<T>(node: Node<T>, ghost ns: seq<Node<T>>, ghost i: nat)
    requires 0 < i < |ns| - 1 && ns[i] == node
    requires Distinct(ns) && Linked(ns)
    modifies ns[i - 1], ns[i + 1], node
    ensures Linked(ns[..i] + ns[i + 1..])
    ensures ns[0].prev == old(ns[0].prev) && ns[|ns| - 1].next == old(ns[|ns| - 1].next)
    ensures node.prev == null && node.next == null
  {
    var prevNode := node.prev;
    var nextNode := node.next;
    prevNode.next := nextNode;
    nextNode.prev := prevNode;
    node.prev := null;
    node.next := null;
    ghost var ns' := ns[..i] + ns[i + 1..];
    forall j | 0 <= j < |ns'| - 1
      ensures ns'[j].next == ns'[j + 1]
    {
      if j + 1 < i {
        assert ns'[j] == ns[j] && ns'[j + 1] == ns[j + 1];
        assert old(ns[j].next) == ns[j + 1];
      } else if j >= i {
        assert ns'[j] == ns[j + 1] && ns'[j + 1] == ns[j + 2];
        assert old(ns[j + 1].next) == ns[j + 2];
      }
    }
    forall j | 0 < j < |ns'|
      ensures ns'[j].prev == ns'[j - 1]
    {
      if j < i {
        assert ns'[j] == ns[j] && ns'[j - 1] == ns[j - 1];
        assert old(ns[j].prev) == ns[j - 1];
      } else if j > i {
        assert ns'[j] == ns[j + 1] && ns'[j - 1] == ns[j];
        assert old(ns[j + 1].prev) == ns[j];
      }
    }
  }

  class LinkedList<T(==)> {
    var head: Node?<T>
    var tail: Node?<T>
    ghost var nodes: seq<Node<T>>
    ghost var Repr: set<Node<T>>

    /** The nodes, front to back, are distinct; head and tail are the ends, with
        no prev before the head and no next after the tail; every other link goes
        to the neighbour in both directions. */
    ghost predicate Valid()
      reads this, Repr
    {
      Repr == Elements(nodes) &&
      Distinct(nodes) &&
      (if nodes == [] then head == null && tail == null
       else head == nodes[0] && tail == nodes[|nodes| - 1] && head.prev == null && tail.next == null) &&
      Linked(nodes)
    }

    /** The stored values, front to back. */
    ghost function Values(): seq<T>
      reads this
    {
      ValuesOf(nodes)
    }

    /** `LinkedList(copy)`: empty, or the values of `copy` added one by one. */
    constructor (copy: Option<seq<T>>)
      ensures Valid() && fresh(Repr)
      ensures Values() == if copy.Some? then copy.value else []
    {
      head, tail := null, null;
      nodes, Repr := [], {};
      new;
      if copy.Some? {
        var k := 0;
        while k < |copy.value|
          invariant 0 <= k <= |copy.value|
          invariant Valid() && fresh(Repr) && Values() == copy.value[..k]
        {
          AddData(copy.value[k]);
          assert copy.value[..k + 1] == copy.value[..k] + [copy.value[k]];
          k := k + 1;
        }
        assert copy.value[..k] == copy.value;
      }
    }

    /** add_node: appends an unlinked node. */
    method AddNode(node: Node<T>)
      requires Valid() && node !in Repr && node.next == null && node.prev == null
      modifies this, Repr, node
      ensures Valid() && nodes == old(nodes) + [node] && Repr == old(Repr) + {node}
      ensures Values() == old(Values()) + [node.value]
      ensures old(nodes) == [] ==> head == node && tail == node
      ensures old(nodes) != [] ==> head == old(head) && tail == node
    {
      if head == null {
        head := node;
        tail := node;
      } else {
        tail.next := node;
        node.prev := tail;
        tail := node;
      }
      nodes := nodes + [node];
      Repr := Repr + {node};
    }

    /** add_data: appends a new node holding `data`. */
    method AddData(data: T)
      requires Valid()
      modifies this, Repr
      ensures Valid() && fresh(Repr - old(Repr)) && Values() == old(Values()) + [data]
    {
      var node := new Node(data);
      AddNode(node);
    }

    /** find: the first node holding `data`, or null. */
    method Find(data: T) returns (n: Node?<T>)
      requires Valid()
      ensures n == null <==> data !in Values()
      ensures n != null ==> n in Repr && FirstIndex(nodes, n) == FirstIndex(Values(), data)
    {
      n := head;
      ghost var i := 0;
      while n != null
        invariant 0 <= i <= |nodes|
        invariant n == if i < |nodes| then nodes[i] else null
        invariant data !in Values()[..i]
        decreases |nodes| - i
      {
        if n.value == data {
          assert Values()[..i + 1] == Values()[..i] + [data];
          assert FirstIndex(Values(), data) == i;
          DistinctIndex(i);
          return;
        }
        LinkAt(i);
        assert Values()[..i + 1] == Values()[..i] + [n.value];
        n := n.next;
        i := i + 1;
      }
      assert Values()[..i] == Values();
    }

    /** The links of the node at position `k`. */
    lemma LinkAt(k: nat)
      requires Valid() && k < |nodes|
      ensures nodes[k].next == if k + 1 < |nodes| then nodes[k + 1] else null
      ensures nodes[k].prev == if k > 0 then nodes[k - 1] else null
    {
    }

    lemma DistinctIndex(k: nat)
      requires Valid() && k < |nodes|
      ensures FirstIndex(nodes, nodes[k]) == k
    {
    }

    /** Only the head lacks a prev and only the tail lacks a next. */
    lemma Ends()
      requires Valid()
      ensures forall n :: n in Repr ==> (n.prev == null <==> n == head) && (n.next == null <==> n == tail)
    {
      forall n | n in Repr
        ensures (n.prev == null <==> n == head) && (n.next == null <==> n == tail)
      {
        var k := FirstIndex(nodes, n);
        LinkAt(k);
      }
    }

    /** remove_node, with the single-node case completed: removing the only node
        empties the list. A node outside the list with no prev, or with no next,
        is refused with RuntimeError. */
    method RemoveNode(node: Node<T>) returns (r: Outcome)
      requires Valid() && (node in Repr || node.prev == null || node.next == null)
      modifies this, Repr, node
      ensures node !in old(Repr) ==>
        (unchanged(this, node) && unchanged(Repr) &&
         r == Fail(RuntimeError(if node.prev == null
                                then "Node contained no previous node and was not the head of the list."
                                else "Node contained no next node and was not the tail of the list.")))
      ensures node in old(Repr) ==>
        var i := FirstIndex(old(nodes), node);
        r == Pass && Valid() && Repr == old(Repr) - {node} &&
        nodes == old(nodes)[..i] + old(nodes)[i + 1..] &&
        Values() == old(Values())[..i] + old(Values())[i + 1..] &&
        node.prev == null && node.next == null
    {
      Ends();
      var prevNode := node.prev;
      var nextNode := node.next;
      if prevNode == null && head != node {
        return Fail(RuntimeError("Node contained no previous node and was not the head of the list."));
      } else if prevNode != null && nextNode == null && tail != node {
        return Fail(RuntimeError("Node contained no next node and was not the tail of the list."));
      }
      ghost var i := FirstIndex(nodes, node);
      Unlink(node, i);
      r := Pass;
    }

    /** The branches of remove_node for a node of the list. */
    method Unlink(node: Node<T>, ghost i: nat)
      requires Valid() && i < |nodes| && nodes[i] == node
      modifies this, Repr
      ensures RemovedAt(i, old(nodes), old(Repr), old(Values()), node)
    {
      var prevNode := node.prev;
      var nextNode := node.next;
      if prevNode == null && nextNode != null {
        UnlinkHead(node, i);
      } else if prevNode == null {
        UnlinkOnly(node, i);
      } else if nextNode == null {
        UnlinkTail(node, i);
      } else {
        UnlinkInner(node, i);
      }
    }

    /** The node at `i` leaves the list: the others keep their order and links. */
    ghost predicate RemovedAt(i: nat, oldNodes: seq<Node<T>>, oldRepr: set<Node<T>>, oldValues: seq<T>, node: Node<T>)
      reads this, Repr, node
      requires i < |oldNodes| && i < |oldValues|
    {
      Valid() && Repr == oldRepr - {node} &&
      nodes == oldNodes[..i] + oldNodes[i + 1..] &&
      Values() == oldValues[..i] + oldValues[i + 1..] &&
      node.prev == null && node.next == null
    }

    /** First branch of remove_node when the head is the only node: head and
        tail both become null. */
    method UnlinkOnly(node: Node<T>, ghost i: nat)
      requires Valid() && i < |nodes| && nodes[i] == node && node.prev == null && node.next == null
      modifies this, Repr
      ensures RemovedAt(i, old(nodes), old(Repr), old(Values()), node) && nodes == []
      ensures head == null && tail == null
    {
      LinkAt(i);
      assert nodes == [node];
      head := null;
      tail := null;
      nodes := [];
      Repr := {};
    }

    /** First branch of remove_node: the head leaves and its successor becomes
        the head. */
    method UnlinkHead(node: Node<T>, ghost i: nat)
      requires Valid() && i < |nodes| && nodes[i] == node && node.prev == null && node.next != null
      modifies this, Repr
      ensures RemovedAt(i, old(nodes), old(Repr), old(Values()), node)
    {
      ghost var ns0 := nodes;
      LinkAt(i);
      RemoveKeepsDistinct(ns0, i);
      ValuesOfRemove(ns0, i);
      assert ns0[1] in Repr;
      var nextNode := node.next;
      head := nextNode;
      UnspliceFirst(node, ns0);
      nodes := ns0[..i] + ns0[i + 1..];
      Repr := Repr - {node};
    }

    /** Second branch of remove_node: the tail leaves and its predecessor
        becomes the tail. */
    method UnlinkTail(node: Node<T>, ghost i: nat)
      requires Valid() && i < |nodes| && nodes[i] == node && node.prev != null && node.next == null
      modifies this, Repr
      ensures RemovedAt(i, old(nodes), old(Repr), old(Values()), node)
    {
      ghost var ns0 := nodes;
      LinkAt(i);
      RemoveKeepsDistinct(ns0, i);
      ValuesOfRemove(ns0, i);
      assert ns0[i - 1] in Repr;
      var prevNode := node.prev;
      tail := prevNode;
      UnspliceLast(node, ns0);
      nodes := ns0[..i] + ns0[i + 1..];
      Repr := Repr - {node};
    }

    /** Third branch of remove_node: the neighbours are linked to each other. */
    method UnlinkInner(node: Node<T>, ghost i: nat)
      requires Valid() && i < |nodes| && nodes[i] == node && node.prev != null && node.next != null
      modifies this, Repr
      ensures RemovedAt(i, old(nodes), old(Repr), old(Values()), node)
    {
      ghost var ns0 := nodes;
      LinkAt(i);
      RemoveKeepsDistinct(ns0, i);
      ValuesOfRemove(ns0, i);
      assert ns0[i - 1] in Repr && ns0[i + 1] in Repr;
      UnspliceInner(node, ns0, i);
      nodes := ns0[..i] + ns0[i + 1..];
      Repr := Repr - {node};
    }

    /** remove_node as written: removing the only node assigns the head and then
        dereferences the missing next node, raising AttributeError with the head
        gone and the tail still set. */
    method RemoveNodeAsWritten(node: Node<T>) returns (r: Outcome)
      requires Valid() && (node in Repr || node.prev == null || node.next == null)
      modifies this, Repr, node
      ensures old(nodes) == [node] ==> r == Fail(AttributeError) && head == null && tail == node && !Valid()
      ensures old(nodes) != [node] && node in old(Repr) ==>
        (r == Pass && Valid() &&
         nodes == old(nodes)[..FirstIndex(old(nodes), node)] + old(nodes)[FirstIndex(old(nodes), node) + 1..])
      ensures node !in old(Repr) ==> r.Fail? && r.error.RuntimeError? && unchanged(this)
    {
      Ends();
      if node.prev == null && node.next == null && head == node {
        assert nodes[0] == nodes[|nodes| - 1];
        assert nodes == [node];
        head := null;
        return Fail(AttributeError);
      }
      r := RemoveNode(node);
    }

    /** insert_node: links `node` immediately before `before`; before the head it
        becomes the new head. A `before` outside the list with no prev is refused. */
    method InsertNode(node: Node<T>, before: Node<T>) returns (r: Outcome)
      requires Valid() && node !in Repr && (before in Repr || before.prev == null)
      modifies this, Repr, node
      ensures before !in old(Repr) ==>
        (unchanged(this, node) && unchanged(Repr) &&
         r == Fail(RuntimeError("Before contained no previous node and was not the head of the list.")))
      ensures before in old(Repr) ==>
        var i := FirstIndex(old(nodes), before);
        r == Pass && Valid() && Repr == old(Repr) + {node} &&
        nodes == old(nodes)[..i] + [node] + old(nodes)[i..] &&
        Values() == old(Values())[..i] + [node.value] + old(Values())[i..] &&
        (i == 0 ==> head == node)
    {
      Ends();
      var prevNode := before.prev;
      if prevNode == null && head != before {
        return Fail(RuntimeError("Before contained no previous node and was not the head of the list."));
      }
      ghost var i := FirstIndex(nodes, before);
      DistinctIndex(i);
      if prevNode == null {
        LinkBeforeHead(node, before, i);
      } else {
        LinkBetween(node, before, i);
      }
      r := Pass;
    }

    /** `node` now sits at position `i`, before the nodes that followed it. */
    ghost predicate InsertedAt(i: nat, oldNodes: seq<Node<T>>, oldRepr: set<Node<T>>, oldValues: seq<T>, node: Node<T>)
      reads this, Repr
      requires i <= |oldNodes| && i <= |oldValues|
    {
      Valid() && Repr == oldRepr + {node} &&
      nodes == oldNodes[..i] + [node] + oldNodes[i..] &&
      Values() == oldValues[..i] + [node.value] + oldValues[i..]
    }

    /** First branch of insert_node: `node` becomes the head, before the old head. */
    method LinkBeforeHead(node: Node<T>, before: Node<T>, ghost i: nat)
      requires Valid() && node !in Repr && i < |nodes| && nodes[i] == before && before.prev == null
      modifies this, Repr, node
      ensures InsertedAt(i, old(nodes), old(Repr), old(Values()), node) && head == node
    {
      ghost var ns0 := nodes;
      LinkAt(i);
      InsertKeepsDistinct(ns0, i, node);
      ValuesOfInsert(ns0, i, node);
      SpliceFront(node, before, ns0);
      head := node;
      nodes := ns0[..i] + [node] + ns0[i..];
      Repr := Repr + {node};
    }

    /** Second branch of insert_node: `node` is linked between `before` and its
        predecessor. */
    method LinkBetween(node: Node<T>, before: Node<T>, ghost i: nat)
      requires Valid() && node !in Repr && i < |nodes| && nodes[i] == before && before.prev != null
      modifies this, Repr, node
      ensures InsertedAt(i, old(nodes), old(Repr), old(Values()), node) && head == old(head)
    {
      ghost var ns0 := nodes;
      LinkAt(i);
      InsertKeepsDistinct(ns0, i, node);
      ValuesOfInsert(ns0, i, node);
      assert ns0[i - 1] in Repr;
      ghost var ns1 := ns0[..i] + [node] + ns0[i..];
      assert ns1[0] == ns0[0] && ns1[|ns1| - 1] == ns0[|ns0| - 1];
      SpliceBetween(node, before, ns0, i);
      nodes := ns1;
      Repr := Repr + {node};
      assert head == nodes[0] && tail == nodes[|nodes| - 1];
      assert head.prev == null;
      assert tail.next == null;
      assert Linked(nodes);
      assert Repr == Elements(nodes);
      assert Distinct(nodes);
      assert Valid();
      assert Values() == old(Values())[..i] + [node.value] + old(Values())[i..];
    }

    /** remove_data: removes the first node holding `data`; RuntimeError if none does. */
    method RemoveData(data: T) returns (r: Outcome)
      requires Valid()
      modifies this, Repr
      ensures Valid() && Repr <= old(Repr)
      ensures data !in old(Values()) ==>
        (r == Fail(RuntimeError("Attempt to remove nonexistent data from the collection: ")) && Values() == old(Values()))
      ensures data in old(Values()) ==>
        (var i := FirstIndex(old(Values()), data);
         r == Pass && Values() == old(Values())[..i] + old(Values())[i + 1..])
    {
      var node := Find(data);
      if node == null {
        return Fail(RuntimeError("Attempt to remove nonexistent data from the collection: "));
      }
      assert FirstIndex(nodes, node) == FirstIndex(Values(), data);
      r := RemoveNode(node);
    }

    /** insert_data: inserts a new node holding `data` before the first node
        holding `before`; RuntimeError if none does. */
    method InsertData(data: T, before: T) returns (r: Outcome)
      requires Valid()
      modifies this, Repr
      ensures Valid()
      ensures fresh(Repr - old(Repr))
      ensures before !in old(Values()) ==>
        (r == Fail(RuntimeError("Attempt to insert before nonexistent data from the collection: ")) && Values() == old(Values()))
      ensures before in old(Values()) ==>
        (var i := FirstIndex(old(Values()), before);
         r == Pass && Values() == old(Values())[..i] + [data] + old(Values())[i..])
    {
      var node := Find(before);
      if node == null {
        r := Fail(RuntimeError("Attempt to insert before nonexistent data from the collection: "));
      } else {
        r := InsertCreated(data, node, FirstIndex(nodes, node));
      }
    }

    /** The found branch of insert_data: a new node holding `data` goes before
        the node at position `i`. */
    method InsertCreated(data: T, node: Node<T>, ghost i: nat) returns (r: Outcome)
      requires Valid() && i < |nodes| && nodes[i] == node
      modifies this, Repr
      ensures r == Pass && Valid() && fresh(Repr - old(Repr))
      ensures Values() == old(Values())[..i] + [data] + old(Values())[i..]
    {
      DistinctIndex(i);
      var created := new Node(data);
      r := InsertNode(created, node);
    }

    /** Walks next pointers from the head: the values front to back. */
    method Forward() returns (vs: seq<T>)
      requires Valid()
      ensures vs == Values()
    {
      vs := [];
      var n := head;
      ghost var i := 0;
      while n != null
        invariant 0 <= i <= |nodes|
        invariant n == if i < |nodes| then nodes[i] else null
        invariant vs == Values()[..i]
        decreases |nodes| - i
      {
        LinkAt(i);
        assert Values()[..i + 1] == Values()[..i] + [n.value];
        vs := vs + [n.value];
        n := n.next;
        i := i + 1;
      }
      assert Values()[..i] == Values();
    }

    /** Walks prev pointers from the tail: the values in reverse order. */
    method Backward() returns (vs: seq<T>)
      requires Valid()
      ensures vs == Reverse(Values())
    {
      vs := [];
      var n := tail;
      ghost var i := |nodes|;
      while n != null
        invariant 0 <= i <= |nodes|
        invariant n == if i > 0 then nodes[i - 1] else null
        invariant |vs| == |nodes| - i
        invariant forall k :: 0 <= k < |vs| ==> vs[k] == Values()[|nodes| - 1 - k]
        decreases i
      {
        LinkAt(i - 1);
        vs := vs + [n.value];
        n := n.prev;
        i := i - 1;
      }
      assert vs == Reverse(Values());
    }
  }

  /** add_data, remove_data and insert_data through every branch of
      remove_node and insert_node, and a removal of a missing value. */
  method DataMethodsExample() returns (forward: seq<real>, backward: seq<real>, missing: Outcome)
    ensures forward == [1.0, 2.0, 3.0] && backward == [3.0, 2.0, 1.0]
    ensures missing == Fail(RuntimeError("Attempt to remove nonexistent data from the collection: "))
  {
    var list := new LinkedList<real>(Some([1.0, 2.0, 3.0, 4.0]));
    RemoveInnerThenTail(list);
    missing := RemoveHeadThenMissing(list);
    InsertFrontThenBetween(list);
    forward, backward := Traversals(list);
  }

  /** Both traversals of 1, 2, 3. */
  method Traversals(list: LinkedList<real>) returns (forward: seq<real>, backward: seq<real>)
    requires Holds(list, [1.0, 2.0, 3.0])
    ensures forward == [1.0, 2.0, 3.0] && backward == [3.0, 2.0, 1.0]
  {
    forward := list.Forward();
    backward := list.Backward();
    assert Reverse([1.0, 2.0, 3.0]) == [3.0, 2.0, 1.0];
  }

  /** A consistent list holding `vs`, front to back. */
  ghost predicate Holds(list: LinkedList<real>, vs: seq<real>)
    reads list, list.Repr
  {
    list.Valid() && list.Values() == vs
  }

  /** 1, 2, 3, 4 loses its inner node 2 and then its tail. */
  method RemoveInnerThenTail(list: LinkedList<real>)
    requires Holds(list, [1.0, 2.0, 3.0, 4.0])
    modifies list, list.Repr
    ensures Holds(list, [1.0, 3.0]) && list.Repr <= old(list.Repr)
  {
    assert FirstIndex(list.Values(), 2.0) == 1;
    var r := list.RemoveData(2.0);
    assert Holds(list, [1.0, 3.0, 4.0]);
    assert FirstIndex(list.Values(), 4.0) == 2;
    r := list.RemoveData(4.0);
  }

  /** 1, 3 loses its head; removing 9 then fails and changes nothing. */
  method RemoveHeadThenMissing(list: LinkedList<real>) returns (missing: Outcome)
    requires Holds(list, [1.0, 3.0])
    modifies list, list.Repr
    ensures Holds(list, [3.0]) && list.Repr <= old(list.Repr)
    ensures missing == Fail(RuntimeError("Attempt to remove nonexistent data from the collection: "))
  {
    assert FirstIndex(list.Values(), 1.0) == 0;
    var r := list.RemoveData(1.0);
    assert Holds(list, [3.0]);
    missing := list.RemoveData(9.0);
  }

  /** 3 gains 1 before its head and then 2 between 1 and 3. */
  method InsertFrontThenBetween(list: LinkedList<real>)
    requires Holds(list, [3.0])
    modifies list, list.Repr
    ensures Holds(list, [1.0, 2.0, 3.0])
  {
    assert FirstIndex(list.Values(), 3.0) == 0;
    var r := list.InsertData(1.0, 3.0);
    assert Holds(list, [1.0, 3.0]);
    assert FirstIndex(list.Values(), 3.0) == 1;
    r := list.InsertData(2.0, 3.0);
  }

  /** Removing the only node with remove_node as written fails and leaves the
      list inconsistent; the completed remove_node empties it. */
  method SingleNodeRemovalExample() returns (asWritten: Outcome, corrected: Outcome, emptied: bool)
    ensures asWritten == Fail(AttributeError) && corrected == Pass && emptied
  {
    var a := new LinkedList<int>(Some([7]));
    assert a.head in a.Repr;
    asWritten := a.RemoveNodeAsWritten(a.head);
    var b := new LinkedList<int>(Some([7]));
    assert b.head in b.Repr;
    corrected := b.RemoveNode(b.head);
    emptied := b.head == null && b.tail == null;
  }
}

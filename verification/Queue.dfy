/** The unbounded FIFO queue: a singly linked list with a head and a tail pointer, refining a
    sequence. */
module LinkedQueue {
  import opened Wrappers

  class Node<T> {
    const value: T
    var next: Node?<T>

    constructor (value: T)
      ensures this.value == value && next == null
    {
      this.value := value;
      next := null;
    }
  }

  class Queue<T> {
    var head: Node?<T>
    var tail: Node?<T>
    // The nodes in the order in which `next` links them, starting from `head`.
    ghost var chain: seq<Node<T>>

    ghost predicate Valid()
      reads this, chain
    {
      && (head == if chain == [] then null else chain[0])
      && (tail == if chain == [] then null else chain[|chain| - 1])
      && (forall i, j :: 0 <= i < j < |chain| ==> chain[i] != chain[j])
      && (forall i :: 0 <= i < |chain| ==>
            chain[i].next == NextAfter(i))
    }

    // What the node at position i links to.
    ghost function NextAfter(i: nat): Node?<T>
      reads this
    {
      if i + 1 < |chain| then chain[i + 1] else null
    }

    // The values reached by following `next` from the head.
    ghost function Contents(): (s: seq<T>)
      reads this, chain
      ensures |s| == |chain|
    {
      seq(|chain|, i requires 0 <= i < |chain| reads this, chain => chain[i].value)
    }

    constructor ()
      ensures Valid() && Contents() == [] && chain == []
      ensures head == null && tail == null
    {
      head, tail := null, null;
      chain := [];
    }

    method Push(t: T)
      requires Valid()
      modifies this, chain
      ensures Valid() && Contents() == Step(old(Contents()), Put(t)).0
      ensures head != null && tail != null
      ensures |chain| == |old(chain)| + 1 && old(chain) == chain[..|old(chain)|]
      ensures fresh(chain[|chain| - 1])
    {
      var newNode := new Node(t);
      if tail == null {
        head := newNode;
        tail := newNode;
      } else {
        tail.next := newNode;
        tail := newNode;
      }
      chain := chain + [newNode];
    }

    // None stands for the zero value paired with false.
    method Pop() returns (r: Option<T>)
      requires Valid()
      modifies this
      ensures Valid() && (Contents(), r) == Step(old(Contents()), Take)
      ensures r == None <==> old(head) == null
      ensures head == null <==> tail == null
      ensures old(head) != null ==> chain == old(chain)[1..]
    {
      if head == null {
        return None;
      }
      var v := head.value;
      assert chain[0].next == NextAfter(0);
      head := head.next;
      if head == null {
        tail := null;
      }
      chain := chain[1..];
      forall i | 0 <= i < |chain| ensures chain[i].next == NextAfter(i) {
        assert old(chain)[i + 1].next == old(NextAfter(i + 1));
      }
      assert Contents() == old(Contents())[1..];
      r := Some(v);
    }
  }

  datatype Op<T> = Put(value: T) | Take

  // One call on the abstract queue: what is left, and what a Take gives.
  function Step<T>(s: seq<T>, op: Op<T>): (seq<T>, Option<T>) {
    match op
    case Put(v) => (s + [v], None)
    case Take => if s == [] then (s, None) else (s[1..], Some(s[0]))
  }

  function Replay<T>(ops: seq<Op<T>>): seq<T> {
    if ops == [] then [] else Step(Replay(ops[..|ops| - 1]), ops[|ops| - 1]).0
  }

  function Pushed<T>(ops: seq<Op<T>>): seq<T> {
    if ops == [] then []
    else
      var op := ops[|ops| - 1];
      Pushed(ops[..|ops| - 1]) + if op.Put? then [op.value] else []
  }

  // What the calls of Take gave, the refused ones left out.
  function Popped<T>(ops: seq<Op<T>>): seq<T> {
    if ops == [] then []
    else
      var r := Step(Replay(ops[..|ops| - 1]), ops[|ops| - 1]).1;
      Popped(ops[..|ops| - 1]) + if r.Some? then [r.value] else []
  }

  /** First in, first out, whatever the order of the calls: the values popped so far and then the
      values still queued are the values pushed, in order; nothing is lost, repeated or moved. */
  lemma {:induction false} FirstInFirstOut<T>(ops: seq<Op<T>>)
    ensures Popped(ops) + Replay(ops) == Pushed(ops)
  {
    if ops != [] {
      var before := ops[..|ops| - 1];
      FirstInFirstOut(before);
      var left := Replay(before);
      if ops[|ops| - 1].Take? && left != [] {
        assert left == [left[0]] + left[1..];
      }
    }
  }

  /** A pop is refused exactly when every value pushed has been popped already. */
  lemma RefusedWhenDrained<T>(ops: seq<Op<T>>)
    ensures Step(Replay(ops), Take).1 == None <==> Popped(ops) == Pushed(ops)
  {
    FirstInFirstOut(ops);
    assert Replay(ops) != [] ==> |Popped(ops)| < |Pushed(ops)|;
  }
}

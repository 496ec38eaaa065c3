/** The checker's doubly linked list of call and return entries, edited in place. */
module EntryList {
  import opened Common

  /** One line of a history: a call with its input, or a return with its output. */
  datatype Event<+I, +O> = Call(id: nat, input: I) | Return(id: nat, output: O)

  /** A call node has a match, its return; a return node and the head of the list
      have none, and the head holds no event. */
  class Node<I, O> {
    const event: Option<Event<I, O>>
    const mate: Node?<I, O>
    var next: Node?<I, O>
    var prev: Node?<I, O>

    constructor (event: Option<Event<I, O>>, mate: Node?<I, O>)
      ensures this.event == event && this.mate == mate && next == null && prev == null
    {
      this.event, this.mate := event, mate;
      next, prev := null, null;
    }
  }

  ghost predicate NoRepeat<I, O>(c: seq<Node<I, O>>) {
    forall i, j :: 0 <= i < j < |c| ==> c[i] != c[j]
  }

  /** The nodes of c are linked in this order, forwards and backwards, and end the list. */
  ghost predicate Chain<I, O>(c: seq<Node<I, O>>)
    reads c
  {
    && NoRepeat(c)
    && (forall i {:trigger c[i].next} :: 0 <= i < |c| ==> c[i].next == (if i + 1 < |c| then c[i + 1] else null))
    && (forall i {:trigger c[i].prev} :: 0 < i < |c| ==> c[i].prev == c[i - 1])
  }

  ghost function RemoveAt<T>(s: seq<T>, i: nat): (r: seq<T>)
    requires i < |s|
    ensures |r| == |s| - 1
    ensures forall k :: 0 <= k < |r| ==> r[k] == if k < i then s[k] else s[k + 1]
  {
    s[..i] + s[i + 1..]
  }

  /** s without the elements at p and, after it, q. */
  ghost function RemoveTwo<T>(s: seq<T>, p: nat, q: nat): (r: seq<T>)
    requires p < q < |s|
    ensures |r| == |s| - 2
    ensures forall k :: 0 <= k < |r| ==> r[k] == s[if k < p then k else if k < q - 1 then k + 1 else k + 2]
  {
    RemoveAt(RemoveAt(s, p), q - 1)
  }

  /** Put n in front of mark, the k-th node of the list; without a mark n stays alone. */
  method InsertBefore<I, O>(n: Node<I, O>, mark: Node?<I, O>, ghost c: seq<Node<I, O>>, ghost k: nat)
    requires Chain(c) && n !in c && n.next == null && n.prev == null
    requires k <= |c| && mark == (if k < |c| then c[k] else null)
    requires k == 0 && mark != null ==> mark.prev == null
    modifies n, c
    ensures mark != null ==> Chain(c[..k] + [n] + c[k..])
    ensures mark == null ==> n.next == null
    ensures k == 0 ==> n.prev == null
  {
    if mark != null {
      assert k > 0 ==> c[k].prev == c[k - 1];
      var beforeMark := mark.prev;
      mark.prev := n;
      n.next := mark;
      if beforeMark != null {
        n.prev := beforeMark;
        beforeMark.next := n;
      }
      ghost var d := c[..k] + [n] + c[k..];
      forall i | 0 <= i < |d|
        ensures d[i].next == (if i + 1 < |d| then d[i + 1] else null)
        ensures 0 < i ==> d[i].prev == d[i - 1]
      {
        if i < k {
          assert d[i] == c[i] && old(c[i].next) == c[i + 1];
        } else if i > k {
          assert d[i] == c[i - 1] && old(c[i - 1].next) == (if i < |c| then c[i] else null);
        }
      }
    }
  }

  method Length<I, O>(root: Node?<I, O>, ghost c: seq<Node<I, O>>) returns (l: nat)
    requires Chain(c)
    requires if c == [] then root == null else root == c[0]
    ensures l == |c|
  {
    l := 0;
    var n := root;
    while n != null
      invariant 0 <= l <= |c|
      invariant n == if l < |c| then c[l] else null
      decreases |c| - l
    {
      assert c[l].next == if l + 1 < |c| then c[l + 1] else null;
      n := n.next;
      l := l + 1;
    }
  }

  method Unlink<I, O>(x: Node<I, O>, ghost c: seq<Node<I, O>>, ghost p: nat)
    requires Chain(c) && 1 <= p < |c| && c[p] == x
    modifies c[p - 1], if p + 1 < |c| then {c[p + 1]} else {}
    ensures Chain(RemoveAt(c, p))
    ensures x.prev == old(x.prev) && x.next == old(x.next)
  {
    assert c[p].prev == c[p - 1];
    assert c[p].next == if p + 1 < |c| then c[p + 1] else null;
    x.prev.next := x.next;
    if x.next != null {
      x.next.prev := x.prev;
    }
  }

  method Relink<I, O>(x: Node<I, O>, ghost c: seq<Node<I, O>>, ghost p: nat)
    requires 1 <= p < |c| && c[p] == x && NoRepeat(c) && Chain(RemoveAt(c, p))
    requires x.prev == c[p - 1] && x.next == (if p + 1 < |c| then c[p + 1] else null)
    modifies c
    ensures Chain(c)
    ensures x.prev == old(x.prev) && x.next == old(x.next)
  {
    ghost var r := RemoveAt(c, p);
    assert r[p - 1] == c[p - 1];
    assert p + 1 < |c| ==> r[p] == c[p + 1];
    x.prev.next := x;
    if x.next != null {
      x.next.prev := x;
    }
    forall i | 0 <= i < |c|
      ensures c[i].next == (if i + 1 < |c| then c[i + 1] else null)
      ensures 0 < i ==> c[i].prev == c[i - 1]
    {
      if i < p {
        assert c[i] == r[i] && old(r[i].next) == (if i + 1 < |r| then r[i + 1] else null);
      } else if i > p {
        assert c[i] == r[i - 1] && old(r[i - 1].next) == (if i < |r| then r[i] else null);
      }
    }
  }

  /** What a lifted call and its return still remember of the list they were in. */
  ghost predicate Parked<I, O>(c: seq<Node<I, O>>, p: nat, q: nat)
    requires 1 <= p < q < |c|
    reads c[p], c[q]
  {
    && c[p].prev == c[p - 1] && c[p].next == c[p + 1]
    && c[q].prev == (if q == p + 1 then c[p - 1] else c[q - 1])
    && c[q].next == (if q + 1 < |c| then c[q + 1] else null)
  }

  lemma Linked<I, O>(c: seq<Node<I, O>>, p: nat)
    requires Chain(c) && 1 <= p < |c|
    ensures NoRepeat(c) && c[p].prev == c[p - 1] && c[p].next == if p + 1 < |c| then c[p + 1] else null
  {
  }

  lemma Outside<I, O>(c: seq<Node<I, O>>, p: nat)
    requires NoRepeat(c) && p < |c|
    ensures c[p] !in RemoveAt(c, p) && NoRepeat(RemoveAt(c, p))
    ensures forall n :: n in RemoveAt(c, p) ==> n in c
  {
  }

  method Lift<I, O>(entry: Node<I, O>, ghost c: seq<Node<I, O>>, ghost p: nat, ghost q: nat)
    requires Chain(c) && 1 <= p < q < |c| && c[p] == entry && entry.mate == c[q]
    modifies c
    ensures Chain(RemoveTwo(c, p, q)) && Parked(c, p, q)
  {
    hide Chain, NoRepeat, RemoveAt, RemoveTwo;
    ghost var a := RemoveAt(c, p);
    Linked(c, p);
    Outside(c, p);
    Around(c, p, q);
    Unlink(entry, c, p);
    Linked(a, q - 1);
    Unlink(entry.mate, a, q - 1);
  }

  /** The neighbours of c[q] once c[p] is gone. */
  lemma Around<I, O>(c: seq<Node<I, O>>, p: nat, q: nat)
    requires 1 <= p < q < |c| && NoRepeat(c)
    ensures var a := RemoveAt(c, p);
            && a[q - 1] == c[q] && a[q - 2] == (if q == p + 1 then c[p - 1] else c[q - 1])
            && (q + 1 < |c| ==> a[q] == c[q + 1])
            && a[q - 2] in c && a[q - 2] != c[p] && (q < |a| ==> a[q] in c && a[q] != c[p])
            && RemoveTwo(c, p, q) == RemoveAt(a, q - 1)
  {
  }

  /** Unlift exactly undoes Lift, as long as the list is back to what Lift left. */
  method Unlift<I, O>(entry: Node<I, O>, ghost c: seq<Node<I, O>>, ghost p: nat, ghost q: nat)
    requires 1 <= p < q < |c| && c[p] == entry && entry.mate == c[q] && NoRepeat(c)
    requires Chain(RemoveTwo(c, p, q)) && Parked(c, p, q)
    modifies c
    ensures Chain(c)
  {
    hide Chain;
    ghost var a := RemoveAt(c, p);
    assert a[q - 1] == c[q];
    Outside(c, p);
    Relink(entry.mate, a, q - 1);
    Relink(entry, c, p);
  }
}

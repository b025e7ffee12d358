/** leecode/reorderlist.cpp: a singly linked list rearranged in place to visit its first node,
    its last, its second, its last but one, and so on. */
module ReorderList {

  class ListNode {
    var val: int
    var next: ListNode?

    constructor (x: int)
      ensures val == x && next == null
    {
      val, next := x, null;
    }
  }

  // ---------- The order asked for ----------

  /** First, last, then the same of what is left between. */
  function Woven<T>(s: seq<T>): seq<T> {
    if |s| <= 1 then s else [s[0], s[|s| - 1]] + Woven(s[1..|s| - 1])
  }

  lemma WovenUnfolds<T>(s: seq<T>)
    ensures Woven(s) == if |s| <= 1 then s else [s[0], s[|s| - 1]] + Woven(s[1..|s| - 1])
  {
  }

  lemma {:induction false} WovenLength<T>(s: seq<T>)
    ensures |Woven(s)| == |s|
    decreases |s|
  {
    if |s| > 1 { WovenLength(s[1..|s| - 1]); }
  }

  /** Position 2k holds element k from the front, position 2k + 1 element k from the back. */
  lemma {:induction false} WovenPair<T>(s: seq<T>, k: nat)
    ensures |Woven(s)| == |s|
    ensures 2 * k < |s| ==> Woven(s)[2 * k] == s[k]
    ensures 2 * k + 1 < |s| ==> Woven(s)[2 * k + 1] == s[|s| - 1 - k]
    decreases |s|
  {
    hide Woven;
    WovenUnfolds(s);
    WovenLength(s);
    if |s| > 1 && k > 0 {
      var inner := s[1..|s| - 1];
      WovenPair(inner, k - 1);
      assert 2 * k < |s| ==> Woven(s)[2 * k] == Woven(inner)[2 * (k - 1)];
      assert 2 * k + 1 < |s| ==> Woven(s)[2 * k + 1] == Woven(inner)[2 * (k - 1) + 1];
    }
  }

  lemma WovenAt<T>(s: seq<T>, i: nat)
    requires i < |s|
    ensures |Woven(s)| == |s|
    ensures Woven(s)[i] == if i % 2 == 0 then s[i / 2] else s[|s| - 1 - i / 2]
  {
    hide Woven;
    WovenPair(s, i / 2);
  }

  lemma Ends<T>(s: seq<T>, woven: seq<T>)
    requires |s| > 1 && multiset(woven) == multiset(s[1..|s| - 1])
    ensures multiset([s[0], s[|s| - 1]] + woven) == multiset(s)
  {
    var a, inner, b := s[0], s[1..|s| - 1], s[|s| - 1];
    assert s == [a] + inner + [b];
    assert multiset([a, b] + woven) == multiset{a, b} + multiset(woven);
    assert multiset([a] + inner + [b]) == multiset{a} + multiset(inner) + multiset{b};
  }

  /** Nothing is lost and nothing repeated. */
  lemma {:induction false} WovenPermutes<T>(s: seq<T>)
    ensures multiset(Woven(s)) == multiset(s)
    decreases |s|
  {
    hide Woven;
    WovenUnfolds(s);
    if |s| > 1 {
      WovenPermutes(s[1..|s| - 1]);
      Ends(s, Woven(s[1..|s| - 1]));
    }
  }

  // ---------- Lists on the heap ----------

  ghost predicate Distinct(nodes: seq<ListNode>) {
    forall i, j :: 0 <= i < j < |nodes| ==> nodes[i] != nodes[j]
  }

  ghost function At(nodes: seq<ListNode>, i: int): ListNode? {
    if 0 <= i < |nodes| then nodes[i] else null
  }

  /** The links as they stand: node i points to the i-th entry. */
  ghost function Links(nodes: seq<ListNode>): seq<ListNode?>
    reads nodes
  {
    seq(|nodes|, i requires 0 <= i < |nodes| reads nodes => nodes[i].next)
  }

  /** Following `next` from head visits exactly these nodes and stops. */
  ghost predicate IsList(head: ListNode?, nodes: seq<ListNode>)
    reads nodes
  {
    head == At(nodes, 0) && Chained(Links(nodes), nodes)
  }

  ghost predicate Chained(links: seq<ListNode?>, nodes: seq<ListNode>) {
    |links| == |nodes| && forall i :: 0 <= i < |nodes| ==> links[i] == At(nodes, i + 1)
  }

  /** Cut after node k, and the links of nodes k + 1 to j - 1 turned round. */
  ghost predicate Reversing(links: seq<ListNode?>, nodes: seq<ListNode>, k: nat, j: nat) {
    && |links| == |nodes| && k < j <= |nodes|
    && (forall i :: 0 <= i < k ==> links[i] == nodes[i + 1])
    && links[k] == null
    && (forall i :: k < i < j ==> links[i] == if i == k + 1 then null else nodes[i - 1])
    && (forall i :: j <= i < |nodes| ==> links[i] == At(nodes, i + 1))
  }

  /** The state after t pairs have been woven. */
  ghost predicate Weaving(links: seq<ListNode?>, nodes: seq<ListNode>, k: nat, t: nat) {
    var n := |nodes|;
    && |links| == n && k < n && t <= n - 1 - k <= k
    && (forall i :: 0 <= i < t ==> links[i] == nodes[n - 1 - i])
    && (forall i :: n - t <= i < n ==> links[i] == nodes[n - i])
    && (forall i :: t <= i < k ==> links[i] == nodes[i + 1])
    && links[k] == null
    && (forall i :: k < i < n - t ==> links[i] == if i == k + 1 then null else nodes[i - 1])
  }

  lemma ReversingStep(links: seq<ListNode?>, nodes: seq<ListNode>, k: nat, j: nat)
    requires Reversing(links, nodes, k, j) && j < |nodes|
    ensures |links| == |nodes| && links[j] == At(nodes, j + 1)
    ensures Reversing(links[j := if j == k + 1 then null else nodes[j - 1]], nodes, k, j + 1)
  {
  }

  lemma WeavingStep(links: seq<ListNode?>, nodes: seq<ListNode>, k: nat, t: nat)
    requires Weaving(links, nodes, k, t) && t < |nodes| - 1 - k
    ensures var n := |nodes|;
            && t < k && t + 1 < n && links[t] == nodes[t + 1]
            && links[n - 1 - t] == (if t + 1 < n - 1 - k then nodes[n - 2 - t] else null)
            && Weaving(links[t := nodes[n - 1 - t]][n - 1 - t := nodes[t + 1]], nodes, k, t + 1)
  {
  }

  /** Writing one link of a list of distinct nodes changes that link only. */
  method SetNext(node: ListNode, next: ListNode?, ghost nodes: seq<ListNode>, ghost j: nat)
    requires Distinct(nodes) && j < |nodes| && node == nodes[j]
    modifies node`next
    ensures Links(nodes) == old(Links(nodes))[j := next]
  {
    node.next := next;
  }

  /** The fast pointer moves two nodes a step, the slow one a single node, which ends up in the middle. */
  method FindMiddle(head: ListNode, ghost nodes: seq<ListNode>) returns (onestep: ListNode, ghost k: nat)
    requires IsList(head, nodes) && |nodes| >= 2
    ensures k < |nodes| && onestep == nodes[k] && |nodes| - 1 <= 2 * k <= |nodes|
  {
    onestep, k := head, 0;
    var twostep: ListNode? := head;
    while twostep != null && twostep.next != null
      invariant 2 * k <= |nodes| && k < |nodes| && onestep == nodes[k]
      invariant twostep == At(nodes, 2 * k)
      decreases |nodes| - k
    {
      assert Links(nodes)[2 * k] == At(nodes, 2 * k + 1);
      assert Links(nodes)[2 * k + 1] == At(nodes, 2 * k + 2);
      twostep := twostep.next.next;
      assert Links(nodes)[k] == nodes[k + 1];
      onestep := onestep.next;
      k := k + 1;
    }
    assert 2 * k < |nodes| ==> Links(nodes)[2 * k] == At(nodes, 2 * k + 1);
  }

  /** Reverses the links of nodes[k + 1..], which has been cut off at node k. */
  method ReverseTail(second: ListNode, ghost nodes: seq<ListNode>, ghost k: nat) returns (last: ListNode)
    requires Distinct(nodes) && k + 1 < |nodes| && second == nodes[k + 1]
    requires Reversing(Links(nodes), nodes, k, k + 1)
    modifies nodes`next
    ensures Reversing(Links(nodes), nodes, k, |nodes|) && last == nodes[|nodes| - 1]
  {
    hide Reversing, Distinct;
    var prev: ListNode?, cur: ListNode? := null, second;
    ghost var j := k + 1;
    while cur != null
      invariant k < j <= |nodes| && Reversing(Links(nodes), nodes, k, j) && cur == At(nodes, j)
      invariant prev == if j == k + 1 then null else nodes[j - 1]
      decreases |nodes| - j
    {
      ReversingStep(Links(nodes), nodes, k, j);
      var next := cur.next;
      SetNext(cur, prev, nodes, j);
      prev := cur;
      cur := next;
      j := j + 1;
    }
    last := prev;
  }

  /** Takes from the two lists in turn. */
  method Weave(first: ListNode, second: ListNode, ghost nodes: seq<ListNode>, ghost k: nat)
    requires Distinct(nodes) && k + 1 < |nodes| && |nodes| - 1 <= 2 * k <= |nodes|
    requires Weaving(Links(nodes), nodes, k, 0) && first == nodes[0] && second == nodes[|nodes| - 1]
    modifies nodes`next
    ensures Weaving(Links(nodes), nodes, k, |nodes| - 1 - k)
  {
    hide Weaving, Distinct;
    ghost var n, t := |nodes|, 0;
    var cur1: ListNode?, cur2: ListNode? := first, second;
    while cur1 != null && cur2 != null
      invariant t <= n - 1 - k && Weaving(Links(nodes), nodes, k, t)
      invariant cur1 == At(nodes, t)
      invariant cur2 == if t < n - 1 - k then nodes[n - 1 - t] else null
      decreases n - t
    {
      WeavingStep(Links(nodes), nodes, k, t);
      var tmp1 := cur1.next;
      var tmp2 := cur2.next;
      SetNext(cur1, cur2, nodes, t);
      SetNext(cur2, tmp1, nodes, n - 1 - t);
      cur1 := tmp1;
      cur2 := tmp2;
      t := t + 1;
    }
    assert t == n - 1 - k;
  }

  /** The i-th node of the woven order points to the next one. */
  lemma WovenLinks(links: seq<ListNode?>, nodes: seq<ListNode>, k: nat, i: nat)
    requires k + 1 < |nodes| && |nodes| - 1 <= 2 * k <= |nodes|
    requires Weaving(links, nodes, k, |nodes| - 1 - k) && i < |nodes|
    ensures |Woven(nodes)| == |nodes|
    ensures var p := if i % 2 == 0 then i / 2 else |nodes| - 1 - i / 2;
            0 <= p < |nodes| && Woven(nodes)[i] == nodes[p] && links[p] == At(Woven(nodes), i + 1)
  {
    hide Woven;
    WovenAt(nodes, i);
    if i + 1 < |nodes| { WovenAt(nodes, i + 1); }
  }

  lemma WovenIsList(nodes: seq<ListNode>, k: nat)
    requires k + 1 < |nodes| && |nodes| - 1 <= 2 * k <= |nodes|
    requires Weaving(Links(nodes), nodes, k, |nodes| - 1 - k)
    ensures Chained(Links(Woven(nodes)), Woven(nodes)) && At(Woven(nodes), 0) == nodes[0]
  {
    hide Woven, Weaving;
    WovenLength(nodes);
    WovenAt(nodes, 0);
    forall i | 0 <= i < |nodes| ensures Woven(nodes)[i].next == At(Woven(nodes), i + 1) {
      WovenLinks(Links(nodes), nodes, k, i);
    }
  }

  /** On every acyclic list: terminates, and leaves the same nodes linked in the woven order. */
  method Reorder(head: ListNode?, ghost nodes: seq<ListNode>)
    requires Distinct(nodes) && IsList(head, nodes)
    modifies nodes`next
    ensures IsList(head, Woven(nodes))
    ensures multiset(Woven(nodes)) == multiset(nodes)
  {
    WovenPermutes(nodes);
    assert nodes != [] ==> Links(nodes)[0] == At(nodes, 1);
    if head == null || head.next == null { return; }
    var onestep, k := FindMiddle(head, nodes);
    assert Links(nodes)[k] == At(nodes, k + 1);
    CutIsReversing(Links(nodes), nodes, k);
    var second := onestep.next;
    SetNext(onestep, null, nodes, k);
    if second == null {
      TwoNodes(nodes);
      assert Chained(Links(nodes), nodes);
      return;
    }
    var last := ReverseTail(second, nodes, k);
    ReversedIsWeaving(Links(nodes), nodes, k);
    Weave(head, last, nodes, k);
    WovenIsList(nodes, k);
  }

  lemma CutIsReversing(links: seq<ListNode?>, nodes: seq<ListNode>, k: nat)
    requires Chained(links, nodes) && k < |nodes|
    ensures Reversing(links[k := null], nodes, k, k + 1)
  {
  }

  lemma ReversedIsWeaving(links: seq<ListNode?>, nodes: seq<ListNode>, k: nat)
    requires Reversing(links, nodes, k, |nodes|) && |nodes| - 1 <= 2 * k
    ensures Weaving(links, nodes, k, 0)
  {
  }

  lemma TwoNodes(nodes: seq<ListNode>)
    requires |nodes| == 2
    ensures Woven(nodes) == nodes
  {
    assert nodes[1..1] == [];
  }
}

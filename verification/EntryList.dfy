/**
 * The doubly linked list of call and return entries that the search takes apart and puts together again
 * (src/porcupine/checker.go:62-177).
 *
 * `nodes` lists the nodes of a list by place: place 0 is the head, place p the p-th entry. `out` lists the
 * places taken out, in the order in which that happened. A node that is out keeps the links it had.
 */
module EntryList {
  import opened Linearizability
  import opened Search

  datatype Value<I, O> = Input(input: I) | Output(output: O) | Nothing

  /** kind and value of an entry go together: a call holds an input, a return an output. */
  datatype Entry<I, O> = Entry(value: Value<I, O>, id: nat, time: int)

  /** `mate` is the return of a call, and null for a return. */
  class Node<I, O> {
    const value: Value<I, O>
    const mate: Node?<I, O>
    const id: int
    var next: Node?<I, O>
    var prev: Node?<I, O>

    constructor (value: Value<I, O>, mate: Node?<I, O>, id: int)
      ensures this.value == value && this.mate == mate && this.id == id && next == null && prev == null
    {
      this.value, this.mate, this.id, next, prev := value, mate, id, null, null;
    }
  }

  // ---------- neighbours among the places left ----------

  /** The next place after p that is not gone; past the last one if there is none. */
  ghost function NextIn(gone: set<nat>, p: nat, size: nat): (q: nat)
    requires p < size
    ensures p < q <= size && (q < size ==> q !in gone)
    ensures forall r: nat :: p < r < q ==> r in gone
    decreases size - p
  {
    if p + 1 < size && p + 1 in gone then NextIn(gone, p + 1, size) else p + 1
  }

  /** The last place before p that is not gone. */
  ghost function PrevIn(gone: set<nat>, p: nat): (q: nat)
    requires 0 < p && 0 !in gone
    ensures q < p && q !in gone
    ensures forall r: nat :: q < r < p ==> r in gone
  {
    if p - 1 in gone then PrevIn(gone, p - 1) else p - 1
  }

  lemma NextWithout(gone: set<nat>, x: nat, p: nat, size: nat)
    requires p < size && x < size && x !in gone && x != p
    ensures NextIn(gone + {x}, p, size) == if NextIn(gone, p, size) == x then NextIn(gone, x, size) else NextIn(gone, p, size)
  {
  }

  lemma PrevWithout(gone: set<nat>, x: nat, p: nat)
    requires 0 < p && 0 < x && x !in gone && x != p && 0 !in gone
    ensures PrevIn(gone + {x}, p) == if PrevIn(gone, p) == x then PrevIn(gone, x) else PrevIn(gone, p)
  {
  }

  /** Next and previous are inverse among the places left. */
  lemma NextOfPrev(gone: set<nat>, x: nat, p: nat, size: nat)
    requires p < size && 0 < x < size && x !in gone && p !in gone && 0 !in gone
    ensures NextIn(gone, p, size) == x <==> p == PrevIn(gone, x)
  {
  }

  // ---------- the list ----------

  ghost predicate OutOk(out: seq<nat>, size: nat) {
    && Distinct(out)
    && forall k :: 0 <= k < |out| ==> 0 < out[k] < size
  }

  /** The places that were out when p was taken out, or that are out now if p is not. */
  ghost function GoneAt(out: seq<nat>, p: nat): set<nat> {
    if p in out then GoneAt(out[..|out| - 1], p) else Ids(out)
  }

  ghost function NodeAt<I, O>(nodes: seq<Node<I, O>>, p: nat): Node?<I, O> {
    if p < |nodes| then nodes[p] else null
  }

  ghost predicate LinksAre<I, O>(nodes: seq<Node<I, O>>, p: nat, gone: set<nat>)
    requires p < |nodes| && 0 !in gone
    reads nodes[p]
  {
    && nodes[p].next == NodeAt(nodes, NextIn(gone, p, |nodes|))
    && nodes[p].prev == if p == 0 then null else nodes[PrevIn(gone, p)]
  }

  ghost predicate Apart<I, O>(nodes: seq<Node<I, O>>) {
    forall p, q :: 0 <= p < q < |nodes| ==> nodes[p] != nodes[q]
  }

  lemma {:induction false} GoneIsOut(out: seq<nat>, p: nat)
    ensures GoneAt(out, p) <= Ids(out)
    ensures p !in GoneAt(out, p)
  {
    if p in out {
      GoneIsOut(out[..|out| - 1], p);
    }
  }

  lemma HeadStays(out: seq<nat>, p: nat, size: nat)
    requires OutOk(out, size)
    ensures 0 !in GoneAt(out, p) && 0 !in Ids(out)
  {
    GoneIsOut(out, p);
  }

  ghost predicate PlaceLinked<I, O>(nodes: seq<Node<I, O>>, out: seq<nat>, p: nat)
    requires p < |nodes| && OutOk(out, |nodes|)
    reads nodes[p]
  {
    HeadStays(out, p, |nodes|);
    LinksAre(nodes, p, GoneAt(out, p))
  }

  ghost predicate Linked<I, O>(nodes: seq<Node<I, O>>, out: seq<nat>)
    reads nodes
  {
    && OutOk(out, |nodes|) && Apart(nodes)
    && forall p: nat :: p < |nodes| ==> PlaceLinked(nodes, out, p)
  }

  lemma GoneAfterOut(out: seq<nat>, x: nat, p: nat)
    requires x !in out
    ensures GoneAt(out + [x], p) == if p in out then GoneAt(out, p) else if p == x then Ids(out) else Ids(out) + {x}
    ensures p !in out ==> GoneAt(out, p) == Ids(out)
  {
    assert (out + [x])[..|out|] == out;
    assert Ids(out + [x]) == Ids(out) + {x};
  }

  lemma OutLonger(out: seq<nat>, x: nat, size: nat)
    requires OutOk(out, size) && 0 < x < size && x !in out
    ensures OutOk(out + [x], size)
  {
  }

  lemma OutShorter(out: seq<nat>, x: nat, size: nat)
    requires OutOk(out + [x], size)
    ensures OutOk(out, size) && 0 < x < size && x !in out
  {
    var out' := out + [x];
    assert out'[|out|] == x;
    forall k | 0 <= k < |out| ensures 0 < out[k] < size && out[k] != x {
      assert out[k] == out'[k];
    }
    forall j, k | 0 <= j < k < |out| ensures out[j] != out[k] {
      assert out[j] == out'[j] && out[k] == out'[k];
    }
  }

  /** How the neighbours of a place left change when place x goes. */
  lemma NeighboursWithout(gone: set<nat>, x: nat, p: nat, size: nat)
    requires p < size && 0 < x < size && x !in gone && p !in gone && 0 !in gone && p != x
    ensures NextIn(gone + {x}, p, size) == if p == PrevIn(gone, x) then NextIn(gone, x, size) else NextIn(gone, p, size)
    ensures p > 0 ==> PrevIn(gone + {x}, p) == if p == NextIn(gone, x, size) then PrevIn(gone, x) else PrevIn(gone, p)
  {
    NextWithout(gone, x, p, size);
    NextOfPrev(gone, x, p, size);
    if p > 0 {
      PrevWithout(gone, x, p);
      NextOfPrev(gone, p, x, size);
    }
  }

  /** Takes the node at place x out of the list. */
  method Unlink<I, O>(n: Node<I, O>, ghost nodes: seq<Node<I, O>>, ghost out: seq<nat>, ghost x: nat)
    requires Linked(nodes, out) && 0 < x < |nodes| && nodes[x] == n && x !in out
    modifies nodes
    ensures Linked(nodes, out + [x])
  {
    hide GoneAt, NextIn, PrevIn, OutOk;
    ghost var gone := Ids(out);
    HeadStays(out, x, |nodes|);
    GoneAfterOut(out, x, x);
    assert PlaceLinked(nodes, out, x);
    n.prev.next := n.next;
    if n.next != null {
      n.next.prev := n.prev;
    }
    OutLonger(out, x, |nodes|);
    forall p: nat | p < |nodes| ensures PlaceLinked(nodes, out + [x], p) {
      assert old(PlaceLinked(nodes, out, p));
      GoneAfterOut(out, x, p);
      if p !in out && p != x {
        NeighboursWithout(gone, x, p, |nodes|);
      }
    }
  }

  /** Puts the node that was taken out last back where it was: its links still tell where. */
  method Relink<I, O>(n: Node<I, O>, ghost nodes: seq<Node<I, O>>, ghost out: seq<nat>, ghost x: nat)
    requires Linked(nodes, out + [x]) && x < |nodes| && nodes[x] == n
    modifies nodes
    ensures Linked(nodes, out)
  {
    hide GoneAt, NextIn, PrevIn, OutOk;
    ghost var gone := Ids(out);
    OutShorter(out, x, |nodes|);
    HeadStays(out, x, |nodes|);
    GoneAfterOut(out, x, x);
    assert PlaceLinked(nodes, out + [x], x);
    n.prev.next := n;
    if n.next != null {
      n.next.prev := n;
    }
    forall p: nat | p < |nodes| ensures PlaceLinked(nodes, out, p) {
      assert old(PlaceLinked(nodes, out + [x], p));
      GoneAfterOut(out, x, p);
      if p !in out && p != x {
        NeighboursWithout(gone, x, p, |nodes|);
      }
    }
  }

  // ---------- reading the list ----------

  /** The places left, in order. */
  ghost function Rest(gone: set<nat>, size: nat): (rest: seq<nat>)
    ensures forall j, k :: 0 <= j < k < |rest| ==> rest[j] < rest[k]
    ensures forall p: nat :: p in rest <==> p < size && p !in gone
  {
    if size == 0 then []
    else
      var before := Rest(gone, size - 1);
      assert forall k :: 0 <= k < |before| ==> before[k] in before;
      if size - 1 in gone then before else before + [size - 1]
  }

  lemma NextInRest(gone: set<nat>, size: nat, k: nat)
    requires k < |Rest(gone, size)|
    ensures var rest := Rest(gone, size);
            rest[k] < size && NextIn(gone, rest[k], size) == if k + 1 < |rest| then rest[k + 1] else size
  {
    var rest := Rest(gone, size);
    assert rest[k] in rest;
    var q := NextIn(gone, rest[k], size);
    hide Rest, NextIn;
    if q < size {
      assert q in rest;
      var m :| 0 <= m < |rest| && rest[m] == q;
      assert m > k;
    }
    if k + 1 < |rest| {
      assert rest[k + 1] in rest;
    }
  }

  lemma PrevInRest(gone: set<nat>, size: nat, k: nat)
    requires 0 < k < |Rest(gone, size)| && 0 !in gone
    ensures var rest := Rest(gone, size); 0 < rest[k] && PrevIn(gone, rest[k]) == rest[k - 1]
  {
    var rest := Rest(gone, size);
    assert rest[k] in rest && rest[k - 1] in rest;
    var q := PrevIn(gone, rest[k]);
    hide Rest, PrevIn;
    assert q in rest;
    var m :| 0 <= m < |rest| && rest[m] == q;
    assert m < k;
  }

  lemma HeadIsFirst(gone: set<nat>, size: nat)
    requires 0 !in gone && size > 0
    ensures Rest(gone, size) != [] && Rest(gone, size)[0] == 0
  {
    var rest := Rest(gone, size);
    hide Rest;
    assert 0 in rest;
    assert forall m :: 0 < m < |rest| ==> rest[0] < rest[m];
  }

  lemma GoneNow(out: seq<nat>, p: nat)
    requires p !in Ids(out)
    ensures GoneAt(out, p) == Ids(out)
  {
  }

  /** Followed from the head, the list is exactly the nodes that are not out, in their order, both ways. */
  lemma ListReadsRest<I, O>(nodes: seq<Node<I, O>>, out: seq<nat>, k: nat)
    requires Linked(nodes, out) && k < |Rest(Ids(out), |nodes|)|
    ensures var rest := Rest(Ids(out), |nodes|);
            && rest[0] == 0 && rest[k] < |nodes|
            && nodes[rest[k]].next == (if k + 1 < |rest| then NodeAt(nodes, rest[k + 1]) else null)
            && (k > 0 ==> nodes[rest[k]].prev == NodeAt(nodes, rest[k - 1]))
  {
    var gone := Ids(out);
    var rest := Rest(gone, |nodes|);
    HeadStays(out, 0, |nodes|);
    NextInRest(gone, |nodes|, k);
    assert rest[k] in rest;
    if k > 0 {
      PrevInRest(gone, |nodes|, k);
    }
    HeadIsFirst(gone, |nodes|);
    hide Rest, NextIn, PrevIn, GoneAt, OutOk;
    GoneNow(out, rest[k]);
    assert PlaceLinked(nodes, out, rest[k]);
  }

  /** The places out determine every link: putting back what was taken out restores the list as it was. */
  twostate lemma LinksRestored<I, O>(nodes: seq<Node<I, O>>, out: seq<nat>)
    requires old(Linked(nodes, out)) && Linked(nodes, out)
    ensures forall p :: 0 <= p < |nodes| ==> nodes[p].next == old(nodes[p].next) && nodes[p].prev == old(nodes[p].prev)
  {
    forall p: nat | p < |nodes| ensures nodes[p].next == old(nodes[p].next) && nodes[p].prev == old(nodes[p].prev) {
      assert PlaceLinked(nodes, out, p) && old(PlaceLinked(nodes, out, p));
    }
  }

  // ---------- lifting an operation out of the list ----------

  /** The places of a history: call and return of each operation, and the operation at each place. */
  ghost predicate IsHistory<I, O>(history: seq<Entry<I, O>>, ops: seq<Operation<I, O>>) {
    && |history| == 2 * |ops|
    && (forall i :: 0 <= i < |ops| ==>
          && 1 <= ops[i].call < ops[i].ret <= |history|
          && history[ops[i].call - 1].id == i && history[ops[i].call - 1].value == Input(ops[i].input)
          && history[ops[i].ret - 1].id == i && history[ops[i].ret - 1].value == Output(ops[i].output))
    && (forall p :: 0 <= p < |history| ==>
          && history[p].id < |ops| && !history[p].value.Nothing?
          && (history[p].value.Input? ==> ops[history[p].id].call == p + 1)
          && (history[p].value.Output? ==> ops[history[p].id].ret == p + 1))
  }

  /** The nodes hold the entries of the history, and calls know their returns. */
  ghost predicate Holds<I, O>(nodes: seq<Node<I, O>>, history: seq<Entry<I, O>>, ops: seq<Operation<I, O>>)
    requires IsHistory(history, ops)
  {
    && |nodes| == |history| + 1
    && forall p :: 0 <= p < |history| ==>
         && nodes[p + 1].id == history[p].id && nodes[p + 1].value == history[p].value
         && nodes[p + 1].mate == if history[p].value.Input? then nodes[ops[history[p].id].ret] else null
  }

  lemma EntriesApart<I, O>(history: seq<Entry<I, O>>, ops: seq<Operation<I, O>>, i: nat, j: nat)
    requires IsHistory(history, ops) && i < |ops| && j < |ops|
    ensures ops[i].call != ops[j].ret
    ensures i != j ==> ops[i].call != ops[j].call && ops[i].ret != ops[j].ret
  {
    var a, b := history[ops[i].call - 1], history[ops[j].call - 1];
    var a', b' := history[ops[i].ret - 1], history[ops[j].ret - 1];
    assert a.value.Input? && b'.value.Output?;
    assert a.id == i && b.id == j && a'.id == i && b'.id == j;
  }

  lemma HistoryIsTimeline<I, O>(history: seq<Entry<I, O>>, ops: seq<Operation<I, O>>)
    requires IsHistory(history, ops)
    ensures IsTimeline(ops)
  {
    forall i: nat, j: nat | i < |ops| && j < |ops|
      ensures ops[i].call != ops[j].ret
      ensures i != j ==> ops[i].call != ops[j].call && ops[i].ret != ops[j].ret
    {
      EntriesApart(history, ops, i, j);
    }
    assert forall i :: 0 <= i < |ops| ==> 1 <= ops[i].call < ops[i].ret <= |history|;
    hide IsHistory;
  }

  /** The places of the operations linearized, in the order in which they were taken out. */
  ghost function Lifted<I, O>(ops: seq<Operation<I, O>>, order: seq<nat>): seq<nat>
    requires InRange(order, |ops|) && IsTimeline(ops)
  {
    if order == [] then []
    else
      var last := ops[order[|order| - 1]];
      Lifted(ops, order[..|order| - 1]) + [last.call] + [last.ret]
  }

  lemma LiftedPush<I, O>(ops: seq<Operation<I, O>>, order: seq<nat>, id: nat)
    requires InRange(order, |ops|) && IsTimeline(ops) && id < |ops|
    ensures Lifted(ops, order + [id]) == Lifted(ops, order) + [ops[id].call] + [ops[id].ret]
  {
    assert (order + [id])[..|order|] == order;
  }

  lemma {:induction false} InLifted<I, O>(ops: seq<Operation<I, O>>, order: seq<nat>, p: nat)
    requires InRange(order, |ops|) && IsTimeline(ops)
    ensures p in Lifted(ops, order) <==> exists id: nat :: id in order && (ops[id].call == p || ops[id].ret == p)
  {
    hide IsTimeline;
    if order != [] {
      var last := |order| - 1;
      InLifted(ops, order[..last], p);
      assert order == order[..last] + [order[last]];
      assert order[last] in order;
    }
  }

  /** The entries of an operation are out of the list exactly when it is linearized. */
  lemma OutIsDone<I, O>(ops: seq<Operation<I, O>>, order: seq<nat>, id: nat)
    requires InRange(order, |ops|) && IsTimeline(ops) && id < |ops|
    ensures ops[id].call in Lifted(ops, order) <==> id in order
    ensures ops[id].ret in Lifted(ops, order) <==> id in order
  {
    InLifted(ops, order, ops[id].call);
    InLifted(ops, order, ops[id].ret);
  }

  /** Between a place left and the next one there are entries of operations done only. */
  lemma NextSkipsDone<I, O>(ops: seq<Operation<I, O>>, order: seq<nat>, p: nat)
    requires InRange(order, |ops|) && IsTimeline(ops) && p < 2 * |ops| + 1
    ensures OnlyDoneBetween(ops, Ids(order), p, NextIn(Ids(Lifted(ops, order)), p, 2 * |ops| + 1))
  {
    var gone := Ids(Lifted(ops, order));
    var q := NextIn(gone, p, 2 * |ops| + 1);
    hide Lifted, NextIn;
    forall id: nat | id < |ops| && (p < ops[id].call < q || p < ops[id].ret < q) ensures id in order {
      OutIsDone(ops, order, id);
      assert p < ops[id].call < q ==> ops[id].call in gone;
      assert p < ops[id].ret < q ==> ops[id].ret in gone;
    }
  }

  /** Takes the call at `entry` and its return out. */
  method Lift<I, O>(entry: Node<I, O>, ghost nodes: seq<Node<I, O>>, ghost ops: seq<Operation<I, O>>, ghost order: seq<nat>, ghost id: nat)
    requires IsTimeline(ops) && InRange(order, |ops|) && id < |ops| && id !in order && |nodes| == 2 * |ops| + 1
    requires Linked(nodes, Lifted(ops, order))
    requires nodes[ops[id].call] == entry && entry.mate == nodes[ops[id].ret]
    modifies nodes
    ensures Linked(nodes, Lifted(ops, order + [id]))
  {
    hide Linked, Lifted;
    OutIsDone(ops, order, id);
    LiftedPush(ops, order, id);
    Unlink(entry, nodes, Lifted(ops, order), ops[id].call);
    Unlink(entry.mate, nodes, Lifted(ops, order) + [ops[id].call], ops[id].ret);
  }

  /** Undoes the last `Lift`. */
  method Unlift<I, O>(entry: Node<I, O>, ghost nodes: seq<Node<I, O>>, ghost ops: seq<Operation<I, O>>, ghost order: seq<nat>, ghost id: nat)
    requires IsTimeline(ops) && InRange(order, |ops|) && id < |ops| && |nodes| == 2 * |ops| + 1
    requires Linked(nodes, Lifted(ops, order + [id]))
    requires nodes[ops[id].call] == entry && entry.mate == nodes[ops[id].ret]
    modifies nodes
    ensures Linked(nodes, Lifted(ops, order))
  {
    hide Linked, Lifted;
    LiftedPush(ops, order, id);
    Relink(entry.mate, nodes, Lifted(ops, order) + [ops[id].call], ops[id].ret);
    Relink(entry, nodes, Lifted(ops, order), ops[id].call);
  }

  // ---------- building the list ----------

  /** Links n in before `mark`; a null mark leaves n alone. */
  method InsertBefore<I, O>(n: Node<I, O>, mark: Node?<I, O>)
    requires mark != null ==> n != mark && n != mark.prev && mark.prev != mark
    modifies n, mark, if mark == null then {} else {mark.prev}
    ensures mark != null ==> mark.prev == n && n.next == mark && mark.next == old(mark.next)
    ensures mark != null && old(mark.prev) != null ==>
              n.prev == old(mark.prev) && n.prev.next == n && n.prev.prev == old(mark.prev.prev)
    ensures mark == null || old(mark.prev) == null ==> n.prev == old(n.prev)
    ensures mark == null ==> n.next == old(n.next)
  {
    if mark != null {
      var beforeMark := mark.prev;
      mark.prev := n;
      n.next := mark;
      if beforeMark != null {
        n.prev := beforeMark;
        beforeMark.next := n;
      }
    }
  }

  ghost predicate ChainAt<I, O>(nodes: seq<Node<I, O>>, p: nat)
    requires p < |nodes|
    reads nodes[p]
  {
    && nodes[p].next == NodeAt(nodes, p + 1)
    && nodes[p].prev == if p == 0 then null else nodes[p - 1]
  }

  /** A list of its own: each node is linked to the one before and the one after. */
  ghost predicate Chain<I, O>(nodes: seq<Node<I, O>>)
    reads nodes
  {
    && Apart(nodes)
    && forall p: nat :: p < |nodes| ==> ChainAt(nodes, p)
  }

  method Length<I, O>(n: Node?<I, O>, ghost nodes: seq<Node<I, O>>) returns (l: nat)
    requires Chain(nodes) && n == NodeAt(nodes, 0)
    ensures l == |nodes|
  {
    l := 0;
    var m := n;
    while m != null
      invariant l <= |nodes| && m == NodeAt(nodes, l)
      decreases |nodes| - l
    {
      assert ChainAt(nodes, l);
      m := m.next;
      l := l + 1;
    }
  }

  /** A new node in front of a list. */
  method Prepend<I, O>(n: Node<I, O>, root: Node?<I, O>, ghost nodes: seq<Node<I, O>>)
    requires Chain(nodes) && root == NodeAt(nodes, 0) && n !in nodes && n.next == null && n.prev == null
    modifies n, root
    ensures Chain([n] + nodes)
  {
    assert nodes != [] ==> ChainAt(nodes, 0);
    InsertBefore(n, root);
    ghost var all := [n] + nodes;
    forall p: nat | p < |all| ensures ChainAt(all, p) {
      if p > 0 {
        assert old(ChainAt(nodes, p - 1));
      }
    }
  }

  /** The node k places down a list that starts with entry i of the history. */
  ghost predicate NodeHolds<I, O>(nodes: seq<Node<I, O>>, history: seq<Entry<I, O>>, ops: seq<Operation<I, O>>, i: nat, k: nat)
    requires i + k < |history| && k < |nodes|
  {
    var entry := history[i + k];
    && nodes[k].id == entry.id && nodes[k].value == entry.value
    && (entry.value.Output? ==> nodes[k].mate == null)
    && (entry.value.Input? ==>
          && entry.id < |ops| && 0 <= ops[entry.id].ret - 1 - i < |nodes|
          && nodes[k].mate == nodes[ops[entry.id].ret - 1 - i])
  }

  ghost predicate HoldsFrom<I, O>(nodes: seq<Node<I, O>>, history: seq<Entry<I, O>>, ops: seq<Operation<I, O>>, i: nat) {
    && i + |nodes| == |history|
    && forall k: nat :: k < |nodes| ==> NodeHolds(nodes, history, ops, i, k)
  }

  ghost predicate FindsReturn<I, O>(mates: map<nat, Node<I, O>>, nodes: seq<Node<I, O>>, history: seq<Entry<I, O>>, i: nat, k: nat)
    requires i + k < |history| && k < |nodes|
  {
    history[i + k].value.Output? ==> history[i + k].id in mates && mates[history[i + k].id] == nodes[k]
  }

  /** `mates` finds the returns of a list that starts with entry i of the history. */
  ghost predicate FindsReturns<I, O>(mates: map<nat, Node<I, O>>, nodes: seq<Node<I, O>>, history: seq<Entry<I, O>>, i: nat) {
    && i + |nodes| == |history|
    && forall k: nat :: k < |nodes| ==> FindsReturn(mates, nodes, history, i, k)
  }

  lemma MateFound<I, O>(mates: map<nat, Node<I, O>>, nodes: seq<Node<I, O>>, history: seq<Entry<I, O>>, ops: seq<Operation<I, O>>, i: nat)
    requires IsHistory(history, ops) && FindsReturns(mates, nodes, history, i + 1) && history[i].value.Input?
    ensures var id := history[i].id;
            && id < |ops| && id in mates && 0 <= ops[id].ret - 2 - i < |nodes| && mates[id] == nodes[ops[id].ret - 2 - i]
  {
    var id := history[i].id;
    var k := ops[id].ret - 2 - i;
    assert ops[id].call == i + 1;
    assert history[i + 1 + k].id == id && history[i + 1 + k].value.Output?;
    assert FindsReturn(mates, nodes, history, i + 1, k);
  }

  lemma PrependFinds<I, O>(mates: map<nat, Node<I, O>>, n: Node<I, O>, nodes: seq<Node<I, O>>, history: seq<Entry<I, O>>,
                           ops: seq<Operation<I, O>>, i: nat)
    requires IsHistory(history, ops) && FindsReturns(mates, nodes, history, i + 1)
    ensures FindsReturns(if history[i].value.Output? then mates[history[i].id := n] else mates, [n] + nodes, history, i)
  {
    var all := [n] + nodes;
    var mates' := if history[i].value.Output? then mates[history[i].id := n] else mates;
    hide IsHistory, FindsReturn;
    forall k: nat | k < |all| ensures FindsReturn(mates', all, history, i, k) {
      if k == 0 {
        FindsFirst(mates, n, nodes, history, i);
      } else {
        assert FindsReturn(mates, nodes, history, i + 1, k - 1);
        FindsLater(mates, n, nodes, history, ops, i, k);
      }
    }
  }

  lemma FindsFirst<I, O>(mates: map<nat, Node<I, O>>, n: Node<I, O>, nodes: seq<Node<I, O>>, history: seq<Entry<I, O>>, i: nat)
    requires i < |history|
    ensures FindsReturn(if history[i].value.Output? then mates[history[i].id := n] else mates, [n] + nodes, history, i, 0)
  {
  }

  lemma FindsLater<I, O>(mates: map<nat, Node<I, O>>, n: Node<I, O>, nodes: seq<Node<I, O>>, history: seq<Entry<I, O>>,
                         ops: seq<Operation<I, O>>, i: nat, k: nat)
    requires IsHistory(history, ops) && i + k < |history| && 0 < k <= |nodes| && FindsReturn(mates, nodes, history, i + 1, k - 1)
    ensures FindsReturn(if history[i].value.Output? then mates[history[i].id := n] else mates, [n] + nodes, history, i, k)
  {
    assert ([n] + nodes)[k] == nodes[k - 1];
    if history[i].value.Output? && history[i + k].value.Output? {
      ReturnsApart(history, ops, i, i + k);
    }
    hide IsHistory;
  }

  lemma ReturnsApart<I, O>(history: seq<Entry<I, O>>, ops: seq<Operation<I, O>>, p: nat, q: nat)
    requires IsHistory(history, ops) && p < q < |history| && history[p].value.Output? && history[q].value.Output?
    ensures history[p].id != history[q].id
  {
  }

  lemma PrependHolds<I, O>(n: Node<I, O>, nodes: seq<Node<I, O>>, history: seq<Entry<I, O>>, ops: seq<Operation<I, O>>, i: nat)
    requires HoldsFrom(nodes, history, ops, i + 1) && NodeHolds([n] + nodes, history, ops, i, 0)
    ensures HoldsFrom([n] + nodes, history, ops, i)
  {
    var all := [n] + nodes;
    forall k: nat | k < |all| ensures NodeHolds(all, history, ops, i, k) {
      if k > 0 {
        assert NodeHolds(nodes, history, ops, i + 1, k - 1);
        assert all[k] == nodes[k - 1];
      }
    }
  }

  lemma FirstHolds<I, O>(n: Node<I, O>, nodes: seq<Node<I, O>>, history: seq<Entry<I, O>>, ops: seq<Operation<I, O>>, i: nat)
    requires i < |history| && n.id == history[i].id && n.value == history[i].value
    requires n.value.Input? ==>
               && history[i].id < |ops| && 0 <= ops[history[i].id].ret - 2 - i < |nodes|
               && n.mate == nodes[ops[history[i].id].ret - 2 - i]
    requires n.value.Output? ==> n.mate == null
    ensures NodeHolds([n] + nodes, history, ops, i, 0)
  {
  }

  /** The history as a list. */
  method MakeLinkedEntries<I, O>(history: seq<Entry<I, O>>, ghost ops: seq<Operation<I, O>>)
    returns (root: Node?<I, O>, ghost nodes: seq<Node<I, O>>)
    requires IsHistory(history, ops)
    ensures Chain(nodes) && root == NodeAt(nodes, 0) && fresh(nodes)
    ensures HoldsFrom(nodes, history, ops, 0)
  {
    root, nodes := null, [];
    var mates: map<nat, Node<I, O>> := map[];
    for i := |history| downto 0
      invariant Chain(nodes) && root == NodeAt(nodes, 0) && fresh(nodes)
      invariant HoldsFrom(nodes, history, ops, i)
      invariant FindsReturns(mates, nodes, history, i)
    {
      hide IsHistory, HoldsFrom, FindsReturns, Chain;
      var elem := history[i];
      var mate: Node?<I, O> := null;
      if elem.value.Input? {
        MateFound(mates, nodes, history, ops, i);
        mate := mates[elem.id];
      }
      var n := new Node(elem.value, mate, elem.id);
      PrependFinds(mates, n, nodes, history, ops, i);
      if elem.value.Output? {
        mates := mates[elem.id := n];
      }
      Prepend(n, root, nodes);
      root := n;
      FirstHolds(n, nodes, history, ops, i);
      PrependHolds(n, nodes, history, ops, i);
      nodes := [n] + nodes;
    }
  }

  /** With the head in front, the list is whole: nothing is out. */
  lemma ChainIsLinked<I, O>(nodes: seq<Node<I, O>>)
    requires Chain(nodes)
    ensures Linked(nodes, [])
  {
    forall p: nat | p < |nodes| ensures PlaceLinked(nodes, [], p) {
      assert ChainAt(nodes, p);
      assert Ids([]) == {};
    }
  }

  /** The entry at place p + 1 once the head is in front. */
  ghost predicate PlaceHolds<I, O>(all: seq<Node<I, O>>, history: seq<Entry<I, O>>, ops: seq<Operation<I, O>>, p: nat)
    requires p < |history| && p + 1 < |all| && history[p].id < |ops| && 0 <= ops[history[p].id].ret < |all|
  {
    && all[p + 1].id == history[p].id && all[p + 1].value == history[p].value
    && all[p + 1].mate == if history[p].value.Input? then all[ops[history[p].id].ret] else null
  }

  lemma PlaceWithHead<I, O>(head: Node<I, O>, nodes: seq<Node<I, O>>, history: seq<Entry<I, O>>, ops: seq<Operation<I, O>>, p: nat)
    requires p < |history| == |nodes| && NodeHolds(nodes, history, ops, 0, p) && !history[p].value.Nothing?
    requires history[p].id < |ops| && 1 <= ops[history[p].id].ret <= |nodes|
    ensures PlaceHolds([head] + nodes, history, ops, p)
  {
    var all, r := [head] + nodes, ops[history[p].id].ret;
    assert all[p + 1] == nodes[p] && all[r] == nodes[r - 1];
  }

  lemma HistoryPlace<I, O>(history: seq<Entry<I, O>>, ops: seq<Operation<I, O>>, p: nat)
    requires IsHistory(history, ops) && p < |history|
    ensures !history[p].value.Nothing? && history[p].id < |ops| && 1 <= ops[history[p].id].ret <= |history|
  {
  }

  lemma HoldsWithHead<I, O>(head: Node<I, O>, nodes: seq<Node<I, O>>, history: seq<Entry<I, O>>, ops: seq<Operation<I, O>>)
    requires IsHistory(history, ops) && HoldsFrom(nodes, history, ops, 0)
    ensures Holds([head] + nodes, history, ops)
  {
    var all := [head] + nodes;
    hide IsHistory, NodeHolds;
    forall p | 0 <= p < |history|
      ensures history[p].id < |ops| && 0 <= ops[history[p].id].ret < |all|
      ensures all[p + 1].id == history[p].id && all[p + 1].value == history[p].value
      ensures all[p + 1].mate == if history[p].value.Input? then all[ops[history[p].id].ret] else null
    {
      HistoryPlace(history, ops, p);
      assert NodeHolds(nodes, history, ops, 0, p);
      PlaceWithHead(head, nodes, history, ops, p);
    }
  }
}

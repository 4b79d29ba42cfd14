/**
 * From operations with timestamps to entries in the order of time (src/porcupine/checker.go:29-60): the verdict
 * of the search, which knows places in a list only, is the verdict on the timestamps.
 */
module Timestamps {
  import opened Linearizability
  import opened EntryList

  /** byTime.Less: earlier, or at the same time a call before a return. */
  predicate Less<I, O>(a: Entry<I, O>, b: Entry<I, O>) {
    if a.time != b.time then a.time < b.time else !a.value.Output? && b.value.Output?
  }

  predicate InOrderOfTime<I, O>(entries: seq<Entry<I, O>>) {
    forall p, q :: 0 <= p < q < |entries| ==> !Less(entries[q], entries[p])
  }

  /** sorted[p] is entries[perm[p]], and perm is a permutation. */
  ghost predicate Permutes<I, O>(perm: seq<nat>, entries: seq<Entry<I, O>>, sorted: seq<Entry<I, O>>) {
    && |perm| == |entries| == |sorted| && Distinct(perm) && InRange(perm, |entries|)
    && forall p :: 0 <= p < |sorted| ==> sorted[p] == entries[perm[p]]
  }

  // ---------- sorting ----------

  method InsertByTime<I, O>(e: Entry<I, O>, sorted: seq<Entry<I, O>>) returns (k: nat)
    requires InOrderOfTime(sorted)
    ensures k <= |sorted| && InOrderOfTime(sorted[..k] + [e] + sorted[k..])
  {
    k := |sorted|;
    while k > 0 && Less(e, sorted[k - 1])
      invariant k <= |sorted| && forall p :: k <= p < |sorted| ==> Less(e, sorted[p])
    {
      k := k - 1;
    }
    assert forall p :: 0 <= p < k ==> !Less(e, sorted[p]) by {
      assert forall p :: 0 <= p < k - 1 ==> !Less(sorted[k - 1], sorted[p]);
    }
    ghost var longer := sorted[..k] + [e] + sorted[k..];
    forall p, q | 0 <= p < q < |longer| ensures !Less(longer[q], longer[p]) {
      assert longer[p] == if p < k then sorted[p] else if p == k then e else sorted[p - 1];
      assert longer[q] == if q < k then sorted[q] else if q == k then e else sorted[q - 1];
    }
  }

  lemma PermuteOneMore<I, O>(perm: seq<nat>, entries: seq<Entry<I, O>>, sorted: seq<Entry<I, O>>, e: Entry<I, O>, k: nat)
    requires Permutes(perm, entries, sorted) && k <= |sorted|
    ensures Permutes(perm[..k] + [|entries|] + perm[k..], entries + [e], sorted[..k] + [e] + sorted[k..])
  {
  }

  /** sort.Sort(byTime(entries)): some permutation in the order of time. */
  method SortByTime<I, O>(entries: seq<Entry<I, O>>) returns (sorted: seq<Entry<I, O>>, ghost perm: seq<nat>)
    ensures InOrderOfTime(sorted) && Permutes(perm, entries, sorted)
  {
    sorted, perm := [], [];
    for i := 0 to |entries|
      invariant InOrderOfTime(sorted) && Permutes(perm, entries[..i], sorted)
    {
      var k := InsertByTime(entries[i], sorted);
      PermuteOneMore(perm, entries[..i], sorted, entries[i], k);
      assert entries[..i] + [entries[i]] == entries[..i + 1];
      sorted, perm := sorted[..k] + [entries[i]] + sorted[k..], perm[..k] + [i] + perm[k..];
    }
    assert entries[..|entries|] == entries;
  }

  // ---------- entries of a history ----------

  /** The unsorted entries: call and return of operation i at 2 * i and 2 * i + 1. */
  function Entries<I, O>(ops: seq<Operation<I, O>>): (entries: seq<Entry<I, O>>)
    ensures |entries| == 2 * |ops|
    ensures forall i :: 0 <= i < |ops| ==>
              && entries[2 * i] == Entry(Input(ops[i].input), i, ops[i].call)
              && entries[2 * i + 1] == Entry(Output(ops[i].output), i, ops[i].ret)
  {
    if ops == [] then []
    else
      var i := |ops| - 1;
      Entries(ops[..i]) + [Entry(Input(ops[i].input), i, ops[i].call)] + [Entry(Output(ops[i].output), i, ops[i].ret)]
  }

  /** Where entry k went. */
  ghost function Place(perm: seq<nat>, k: nat): (p: nat)
    requires Distinct(perm) && InRange(perm, |perm|) && k < |perm|
    ensures p < |perm| && perm[p] == k
  {
    OrderFits(perm, |perm|);
    assert k in Ids(perm);
    var p: nat :| p < |perm| && perm[p] == k;
    p
  }

  /** The operations with places in the list for timestamps. */
  ghost function Placed<I, O>(ops: seq<Operation<I, O>>, perm: seq<nat>): seq<Operation<I, O>>
    requires Distinct(perm) && InRange(perm, |perm|) && |perm| == 2 * |ops|
  {
    seq(|ops|, i requires 0 <= i < |ops| =>
      Operation(ops[i].input, ops[i].output, Place(perm, 2 * i) + 1, Place(perm, 2 * i + 1) + 1))
  }

  /** The same operations in the same order of time. */
  ghost predicate SameHistory<I, O>(a: seq<Operation<I, O>>, b: seq<Operation<I, O>>) {
    && |a| == |b|
    && (forall i :: 0 <= i < |a| ==> a[i].input == b[i].input && a[i].output == b[i].output)
    && (forall i, j :: 0 <= i < |a| && 0 <= j < |a| && i != j ==> (a[i].ret < a[j].call <==> b[i].ret < b[j].call))
  }

  /** Callers promise that nothing returns before it is called. */
  predicate Proper<I, O>(ops: seq<Operation<I, O>>) {
    forall i :: 0 <= i < |ops| ==> ops[i].call <= ops[i].ret
  }

  lemma {:induction false} PlacesInOrder<I, O>(ops: seq<Operation<I, O>>, perm: seq<nat>, sorted: seq<Entry<I, O>>, i: nat, j: nat)
    requires InOrderOfTime(sorted) && Permutes(perm, Entries(ops), sorted) && i < |ops| && j < |ops|
    ensures Placed(ops, perm)[i].ret < Placed(ops, perm)[j].call <==> ops[i].ret < ops[j].call
  {
    var p, q := Place(perm, 2 * i + 1), Place(perm, 2 * j);
    assert sorted[p] == Entry(Output(ops[i].output), i, ops[i].ret);
    assert sorted[q] == Entry(Input(ops[j].input), j, ops[j].call);
    assert p != q;
  }

  ghost predicate OperationPlaced<I, O>(sorted: seq<Entry<I, O>>, placed: seq<Operation<I, O>>, i: nat)
    requires i < |placed|
  {
    && 1 <= placed[i].call < placed[i].ret <= |sorted|
    && sorted[placed[i].call - 1].id == i && sorted[placed[i].call - 1].value == Input(placed[i].input)
    && sorted[placed[i].ret - 1].id == i && sorted[placed[i].ret - 1].value == Output(placed[i].output)
  }

  ghost predicate PlaceTaken<I, O>(sorted: seq<Entry<I, O>>, placed: seq<Operation<I, O>>, p: nat)
    requires p < |sorted|
  {
    && sorted[p].id < |placed| && !sorted[p].value.Nothing?
    && (sorted[p].value.Input? ==> placed[sorted[p].id].call == p + 1)
    && (sorted[p].value.Output? ==> placed[sorted[p].id].ret == p + 1)
  }

  lemma {:induction false} PlaceHolds<I, O>(ops: seq<Operation<I, O>>, perm: seq<nat>, sorted: seq<Entry<I, O>>, p: nat)
    requires Permutes(perm, Entries(ops), sorted) && p < |sorted|
    ensures PlaceTaken(sorted, Placed(ops, perm), p)
  {
    var k := perm[p];
    var i := k / 2;
    assert k == 2 * i || k == 2 * i + 1;
    assert sorted[p] == Entries(ops)[k];
    assert perm[Place(perm, k)] == perm[p];
    assert Placed(ops, perm)[i].call == Place(perm, 2 * i) + 1 && Placed(ops, perm)[i].ret == Place(perm, 2 * i + 1) + 1;
  }

  lemma AllPlaced<I, O>(sorted: seq<Entry<I, O>>, placed: seq<Operation<I, O>>)
    requires |sorted| == 2 * |placed|
    requires forall i: nat :: i < |placed| ==> OperationPlaced(sorted, placed, i)
    requires forall p: nat :: p < |sorted| ==> PlaceTaken(sorted, placed, p)
    ensures IsHistory(sorted, placed)
  {
    forall i | 0 <= i < |placed|
      ensures 1 <= placed[i].call < placed[i].ret <= |sorted|
      ensures sorted[placed[i].call - 1].id == i && sorted[placed[i].call - 1].value == Input(placed[i].input)
      ensures sorted[placed[i].ret - 1].id == i && sorted[placed[i].ret - 1].value == Output(placed[i].output)
    {
      assert OperationPlaced(sorted, placed, i);
    }
    forall p | 0 <= p < |sorted|
      ensures sorted[p].id < |placed| && !sorted[p].value.Nothing?
      ensures sorted[p].value.Input? ==> placed[sorted[p].id].call == p + 1
      ensures sorted[p].value.Output? ==> placed[sorted[p].id].ret == p + 1
    {
      assert PlaceTaken(sorted, placed, p);
    }
  }

  lemma {:induction false} PlacedIsSame<I, O>(ops: seq<Operation<I, O>>, perm: seq<nat>, sorted: seq<Entry<I, O>>)
    requires InOrderOfTime(sorted) && Permutes(perm, Entries(ops), sorted)
    ensures SameHistory(ops, Placed(ops, perm))
  {
    var placed := Placed(ops, perm);
    forall i: nat, j: nat | i < |ops| && j < |ops| ensures ops[i].ret < ops[j].call <==> placed[i].ret < placed[j].call {
      PlacesInOrder(ops, perm, sorted, i, j);
    }
  }

  lemma {:induction false} OperationHolds<I, O>(ops: seq<Operation<I, O>>, perm: seq<nat>, sorted: seq<Entry<I, O>>, i: nat)
    requires Proper(ops) && InOrderOfTime(sorted) && Permutes(perm, Entries(ops), sorted) && i < |ops|
    ensures OperationPlaced(sorted, Placed(ops, perm), i)
  {
    PlacesInOrder(ops, perm, sorted, i, i);
  }

  lemma {:induction false} PlacedIsHistory<I, O>(ops: seq<Operation<I, O>>, perm: seq<nat>, sorted: seq<Entry<I, O>>)
    requires Proper(ops) && InOrderOfTime(sorted) && Permutes(perm, Entries(ops), sorted)
    ensures IsHistory(sorted, Placed(ops, perm)) && SameHistory(ops, Placed(ops, perm))
  {
    hide PlaceTaken, OperationPlaced, IsHistory, SameHistory, Proper, InOrderOfTime, Place;
    var placed := Placed(ops, perm);
    PlacedIsSame(ops, perm, sorted);
    forall i: nat | i < |ops| ensures OperationPlaced(sorted, placed, i) {
      OperationHolds(ops, perm, sorted, i);
    }
    forall p: nat | p < |sorted| ensures PlaceTaken(sorted, placed, p) {
      PlaceHolds(ops, perm, sorted, p);
    }
    AllPlaced(sorted, placed);
  }

  method MakeEntries<I, O>(ops: seq<Operation<I, O>>) returns (entries: seq<Entry<I, O>>, ghost placed: seq<Operation<I, O>>)
    requires Proper(ops)
    ensures IsHistory(entries, placed) && SameHistory(ops, placed)
  {
    var unsorted: seq<Entry<I, O>> := [];
    for i := 0 to |ops|
      invariant unsorted == Entries(ops[..i])
    {
      unsorted := unsorted + [Entry(Input(ops[i].input), i, ops[i].call)];
      unsorted := unsorted + [Entry(Output(ops[i].output), i, ops[i].ret)];
      assert ops[..i + 1][..i] == ops[..i];
    }
    assert ops[..|ops|] == ops;
    ghost var perm;
    entries, perm := SortByTime(unsorted);
    PlacedIsHistory(ops, perm, entries);
    placed := Placed(ops, perm);
  }

  // ---------- the verdict ----------

  lemma {:induction false} SameExec<S, I, O>(model: Model<S, I, O>, a: seq<Operation<I, O>>, b: seq<Operation<I, O>>, order: seq<nat>)
    requires SameHistory(a, b) && InRange(order, |a|)
    ensures Exec(model, a, order) == Exec(model, b, order)
  {
    if order != [] {
      SameExec(model, a, b, order[..|order| - 1]);
    }
  }

  lemma SameEnabled<I, O>(a: seq<Operation<I, O>>, b: seq<Operation<I, O>>, done: set<nat>, id: nat)
    requires SameHistory(a, b)
    ensures Enabled(a, done, id) <==> Enabled(b, done, id)
  {
  }

  /** Only the order of time counts, not the timestamps. */
  lemma SamePartial<S, I, O>(model: Model<S, I, O>, a: seq<Operation<I, O>>, b: seq<Operation<I, O>>, order: seq<nat>)
    requires SameHistory(a, b)
    ensures IsPartial(model, a, order) <==> IsPartial(model, b, order)
    ensures IsLinearization(model, a, order) <==> IsLinearization(model, b, order)
  {
    hide Enabled, IsLinearization;
    if InRange(order, |a|) {
      SameExec(model, a, b, order);
      forall k | 0 <= k < |order| ensures Enabled(a, Ids(order[..k]), order[k]) <==> Enabled(b, Ids(order[..k]), order[k]) {
        SameEnabled(a, b, Ids(order[..k]), order[k]);
      }
    }
    FullPartial(model, a, order);
    FullPartial(model, b, order);
  }
}

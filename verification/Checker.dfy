/**
 * checkSingle: whether one history is linearizable (src/porcupine/checker.go:140-253), by a search that works
 * in place on the list of entries, a bitset and a cache from hashes to configurations.
 */
module Checker {
  import opened FiniteSets
  import opened KvTypes
  import opened Linearizability
  import opened Search
  import opened EntryList
  import Bitset

  // ---------- the cache ----------

  datatype CacheEntry<S> = CacheEntry(linearized: seq<bv64>, state: S)

  datatype HashKey = HashKey(hash: bv64)

  type Cache<S> = map<HashKey, seq<CacheEntry<S>>>

  /** What a map holds for a hash; nothing if the hash is not there. */
  function Bucket<S>(cache: Cache<S>, hash: bv64): seq<CacheEntry<S>> {
    if HashKey(hash) in cache then cache[HashKey(hash)] else []
  }

  predicate Cached<S(==)>(cache: Cache<S>, entry: CacheEntry<S>) {
    entry in Bucket(cache, Bitset.HashOf(entry.linearized))
  }

  function Add<S>(cache: Cache<S>, hash: bv64, entry: CacheEntry<S>): Cache<S> {
    cache[HashKey(hash) := Bucket(cache, hash) + [entry]]
  }

  method CacheContains<S(==)>(cache: Cache<S>, linearized: array<bv64>, state: S) returns (found: bool)
    ensures found <==> Cached(cache, CacheEntry(linearized[..], state))
  {
    hide Bitset.HashOf;
    var hash := Bitset.Hash(linearized);
    var bucket := Bucket(cache, hash);
    for k := 0 to |bucket|
      invariant CacheEntry(linearized[..], state) !in bucket[..k]
    {
      var same := Bitset.Equals(linearized, bucket[k].linearized);
      if same && state == bucket[k].state {
        return true;
      }
    }
    return false;
  }

  /** The cache stands for a set of configurations, whatever the hashes are. */
  ghost predicate StandsFor<S(!new)>(cache: Cache<S>, size: nat, configs: set<Config<S>>) {
    forall entry: CacheEntry<S> :: |entry.linearized| == size ==>
      (Cached(cache, entry) <==> Config(Bitset.Members(entry.linearized), entry.state) in configs)
  }

  lemma AddCached<S>(cache: Cache<S>, entry: CacheEntry<S>, e: CacheEntry<S>)
    ensures Cached(Add(cache, Bitset.HashOf(entry.linearized), entry), e) <==> Cached(cache, e) || e == entry
  {
    hide Bitset.HashOf;
    var bucket := Bucket(cache, Bitset.HashOf(entry.linearized));
    var bucket' := bucket + [entry];
    assert bucket'[|bucket|] == entry;
    assert forall k :: 0 <= k < |bucket| ==> bucket[k] == bucket'[k];
  }

  lemma AddStandsFor<S(!new)>(cache: Cache<S>, size: nat, configs: set<Config<S>>, entry: CacheEntry<S>)
    requires StandsFor(cache, size, configs) && |entry.linearized| == size
    ensures StandsFor(Add(cache, Bitset.HashOf(entry.linearized), entry), size,
                      configs + {Config(Bitset.Members(entry.linearized), entry.state)})
  {
    var cache' := Add(cache, Bitset.HashOf(entry.linearized), entry);
    var configs' := configs + {Config(Bitset.Members(entry.linearized), entry.state)};
    hide Bitset.Members, Bitset.HashOf, Add, Cached;
    forall e: CacheEntry<S> | |e.linearized| == size
      ensures Cached(cache', e) <==> Config(Bitset.Members(e.linearized), e.state) in configs'
    {
      Bitset.SameMembers(e.linearized, entry.linearized);
      AddCached(cache, entry, e);
    }
  }

  // ---------- the calls on the stack ----------

  datatype CallsEntry<S, I, O> = CallsEntry(entry: Node<I, O>, state: S)

  /** The calls are the nodes of the operations linearized, each with the state before it. */
  ghost predicate Calls<S, I, O>(nodes: seq<Node<I, O>>, ops: seq<Operation<I, O>>, calls: seq<CallsEntry<S, I, O>>, z: Stack<S>) {
    && |nodes| == 2 * |ops| + 1 && IsTimeline(ops)
    && |calls| == |z.order| == |z.states| && InRange(z.order, |ops|)
    && forall k :: 0 <= k < |calls| ==>
         && calls[k].entry == nodes[ops[z.order[k]].call] && calls[k].entry.id == z.order[k]
         && calls[k].state == z.states[k]
  }

  method CallIds<S, I, O>(calls: seq<CallsEntry<S, I, O>>, ghost order: seq<nat>) returns (ids: seq<nat>)
    requires |calls| == |order| && forall k :: 0 <= k < |calls| ==> calls[k].entry.id == order[k]
    ensures ids == order
  {
    ids := [];
    for i := 0 to |calls|
      invariant ids == order[..i]
    {
      ids := ids + [calls[i].entry.id];
    }
  }

  /** At a dead end: every operation on the stack is part of a linearization this long. */
  method RecordLongest<S, I, O>(calls: seq<CallsEntry<S, I, O>>, longest: array<Option<seq<nat>>>, ghost order: seq<nat>)
    requires |calls| == |order| && forall k :: 0 <= k < |calls| ==> calls[k].entry.id == order[k] < longest.Length
    modifies longest
    ensures longest[..] == Lengthen(old(longest[..]), order)
  {
    ghost var before := longest[..];
    var ids: Option<seq<nat>> := None;
    for k := 0 to |calls|
      invariant ids.Some? ==> ids.value == order
      invariant forall i :: 0 <= i < longest.Length ==>
                  longest[i] == if i in order[..k] then Lengthen(before, order)[i] else before[i]
    {
      var id := calls[k].entry.id;
      assert order[..k + 1] == order[..k] + [order[k]];
      if longest[id].None? || |calls| > |longest[id].value| {
        if ids.None? {
          var made := CallIds(calls, order);
          ids := Some(made);
        }
        longest[id] := ids;
      }
    }
    assert order[..|calls|] == order;
  }

  // ---------- the list during the search ----------

  /** The list holds the entries of the operations that are not linearized. */
  ghost predicate ListOk<I, O>(nodes: seq<Node<I, O>>, history: seq<Entry<I, O>>, ops: seq<Operation<I, O>>, order: seq<nat>)
    reads nodes
  {
    && IsHistory(history, ops) && IsTimeline(ops) && InRange(order, |ops|)
    && Holds(nodes, history, ops) && Linked(nodes, Lifted(ops, order))
  }

  /** `pos` is a place of the list, or past its end. */
  ghost predicate IsPlace<I, O>(ops: seq<Operation<I, O>>, order: seq<nat>, pos: nat) {
    && IsTimeline(ops) && InRange(order, |ops|)
    && (pos <= 2 * |ops| ==> pos !in Lifted(ops, order))
  }

  /** What the search finds at a place of the list. */
  lemma EntryAt<I, O>(nodes: seq<Node<I, O>>, history: seq<Entry<I, O>>, ops: seq<Operation<I, O>>, order: seq<nat>, pos: nat)
    requires ListOk(nodes, history, ops, order) && 1 <= pos <= 2 * |ops| && IsPlace(ops, order, pos)
    ensures |nodes| == 2 * |ops| + 1 && 0 <= nodes[pos].id < |ops|
    ensures var op := ops[nodes[pos].id];
            && nodes[pos].id !in order
            && if nodes[pos].mate == null then op.ret == pos
               else && op.call == pos && nodes[pos].value == Input(op.input)
                    && nodes[pos].mate == nodes[op.ret] && nodes[op.ret].value == Output(op.output)
  {
    hide Linked, Lifted, IsTimeline;
    var entry := history[pos - 1];
    assert nodes[pos - 1 + 1].id == entry.id;
    OutIsDone(ops, order, entry.id);
    if entry.value.Input? {
      assert nodes[ops[entry.id].ret - 1 + 1].value == history[ops[entry.id].ret - 1].value;
    }
  }

  /** Where the next pointer of a node in the list leads. */
  lemma NextPlace<I, O>(nodes: seq<Node<I, O>>, history: seq<Entry<I, O>>, ops: seq<Operation<I, O>>, order: seq<nat>, p: nat)
    returns (q: nat)
    requires ListOk(nodes, history, ops, order) && p <= 2 * |ops| && IsPlace(ops, order, p)
    ensures |nodes| == 2 * |ops| + 1 && p < q <= 2 * |ops| + 1 && IsPlace(ops, order, q)
    ensures nodes[p].next == NodeAt(nodes, q) && OnlyDoneBetween(ops, Ids(order), p, q)
  {
    assert |nodes| == 2 * |ops| + 1;
    hide IsHistory, IsTimeline, Lifted;
    var out := Lifted(ops, order);
    HeadStays(out, p, |nodes|);
    q := NextIn(Ids(out), p, |nodes|);
    GoneNow(out, p);
    assert PlaceLinked(nodes, out, p);
    NextSkipsDone(ops, order, p);
    hide GoneAt, NextIn, PrevIn, OutOk, Holds, OnlyDoneBetween;
  }

  /** The list is empty exactly when everything is linearized. */
  lemma ListEmpty<I, O>(nodes: seq<Node<I, O>>, history: seq<Entry<I, O>>, ops: seq<Operation<I, O>>, order: seq<nat>)
    requires ListOk(nodes, history, ops, order) && Distinct(order)
    ensures nodes != [] && |order| <= |ops| && (nodes[0].next == null <==> |order| == |ops|)
  {
    OrderFits(order, |ops|);
    IdsSize(order);
    HeadPlace(nodes, history, ops, order);
    var q := NextPlace(nodes, history, ops, order, 0);
    if q <= 2 * |ops| {
      EntryAt(nodes, history, ops, order, q);
      assert nodes[q].id !in Ids(order);
    } else {
      hide ListOk;
      assert forall i: nat :: i < |ops| ==> i in Ids(order);
      SubsetIsSmaller(Upto(|ops|), Ids(order));
    }
  }

  lemma HeadPlace<I, O>(nodes: seq<Node<I, O>>, history: seq<Entry<I, O>>, ops: seq<Operation<I, O>>, order: seq<nat>)
    requires ListOk(nodes, history, ops, order)
    ensures IsPlace(ops, order, 0) && nodes != []
  {
    InLifted(ops, order, 0);
  }

  // ---------- the search ----------

  /** What linearizing the call under the finger leads to. */
  lemma NextIs<S, I, O>(model: Model<S, I, O>, ops: seq<Operation<I, O>>, z: Stack<S>, configs: set<Config<S>>, pos: nat, id: nat)
    requires Inv(model, ops, z, configs, pos) && id < |ops| && id !in z.order && ops[id].call == pos
    ensures var (ok, s) := model.step(z.state, ops[id].input, ops[id].output);
            Next(model, ops, Top(z), id) == if ok then Some(Config(Ids(z.order) + {id}, s)) else None
  {
    hide StackOk, StackCached, RestClosed, CacheFits, TriedBefore, PlaceOk, Enabled;
    CallIsEnabled(ops, Ids(z.order), pos, id);
  }

  /** A longest partial linearization with operation i, if there is one at all. */
  ghost predicate LongestWith<S, I, O>(model: Model<S, I, O>, ops: seq<Operation<I, O>>, i: nat, best: Option<seq<nat>>) {
    && (best.Some? ==> IsPartial(model, ops, best.value) && i in best.value)
    && (forall order :: IsPartial(model, ops, order) && i in order ==> best.Some? && |order| <= |best.value|)
  }

  lemma FullIsLongest<S, I, O>(model: Model<S, I, O>, ops: seq<Operation<I, O>>, full: seq<nat>, i: nat)
    requires IsLinearization(model, ops, full) && i < |ops|
    ensures LongestWith(model, ops, i, Some(full))
  {
    FullPartial(model, ops, full);
    OrderFits(full, |ops|);
    assert i in Ids(full);
    forall order | IsPartial(model, ops, order) && i in order ensures |order| <= |full| {
      PartialIsDistinct(model, ops, order);
      OrderFits(order, |ops|);
    }
  }

  lemma StackDistinct<S, I, O>(model: Model<S, I, O>, ops: seq<Operation<I, O>>, z: Stack<S>)
    requires StackOk(model, ops, z)
    ensures InRange(z.order, |ops|) && Distinct(z.order) && |z.order| == |z.states| <= |ops|
  {
    PartialIsDistinct(model, ops, z.order);
    OrderFits(z.order, |ops|);
  }

  /** Past the end of the list everything is linearized. */
  lemma EndMeansDone<I, O>(ops: seq<Operation<I, O>>, order: seq<nat>, pos: int)
    requires IsTimeline(ops) && InRange(order, |ops|) && Distinct(order) && PlaceOk(ops, Ids(order), pos)
    requires |order| < |ops|
    ensures 1 <= pos <= 2 * |ops|
  {
    IdsSize(order);
    if Upto(|ops|) <= Ids(order) {
      SubsetIsSmaller(Upto(|ops|), Ids(order));
    } else {
      var j :| j in Upto(|ops|) && j !in Ids(order);
    }
  }

  lemma PushCalls<S, I, O>(nodes: seq<Node<I, O>>, ops: seq<Operation<I, O>>, calls: seq<CallsEntry<S, I, O>>, z: Stack<S>, id: nat, state: S)
    requires Calls(nodes, ops, calls, z)
    requires id < |ops| && nodes[ops[id].call].id == id
    ensures Calls(nodes, ops, calls + [CallsEntry(nodes[ops[id].call], z.state)], Push(z, id, state))
  {
  }

  lemma PopCalls<S, I, O>(nodes: seq<Node<I, O>>, ops: seq<Operation<I, O>>, calls: seq<CallsEntry<S, I, O>>, z: Stack<S>)
    requires Calls(nodes, ops, calls, z) && calls != []
    ensures |z.order| == |z.states| == |calls| && Calls(nodes, ops, calls[..|calls| - 1], Pop(z))
    ensures var top, id := calls[|calls| - 1], z.order[|z.order| - 1];
            && id < |ops| && 0 <= ops[id].call < |nodes| && top.entry == nodes[ops[id].call] && top.entry.id == id
            && top.state == Pop(z).state
  {
  }

  ghost predicate BitsOk<I, O>(linearized: array<bv64>, ops: seq<Operation<I, O>>, order: seq<nat>)
    reads linearized
  {
    linearized.Length == Bitset.Chunks(|ops|) && Bitset.Members(linearized[..]) == Ids(order)
  }

  /** The state of the search between two rounds of its loop, and the values it stands for. */
  ghost predicate Rounds<S(!new), I, O>(model: Model<S, I, O>, history: seq<Entry<I, O>>, ops: seq<Operation<I, O>>, nodes: seq<Node<I, O>>,
                                  linearized: array<bv64>, cache: Cache<S>, calls: seq<CallsEntry<S, I, O>>,
                                  z: Stack<S>, configs: set<Config<S>>, pos: nat)
    reads nodes, linearized
  {
    && Inv(model, ops, z, configs, pos)
    && ListOk(nodes, history, ops, z.order)
    && BitsOk(linearized, ops, z.order)
    && StandsFor(cache, linearized.Length, configs)
    && Calls(nodes, ops, calls, z)
    && IsPlace(ops, z.order, pos)
  }

  ghost predicate Records<S, I, O>(model: Model<S, I, O>, ops: seq<Operation<I, O>>, z: Stack<S>, configs: set<Config<S>>,
                             longest: seq<Option<seq<nat>>>, computePartial: bool) {
    && |longest| == |ops|
    && if computePartial then |z.order| == |z.states| && LongestOk(model, ops, z, configs, longest)
       else forall i :: 0 <= i < |ops| ==> longest[i].None?
  }

  /** Passes over the call under the finger, which leads nowhere new. */
  lemma SkipRound<S(!new), I, O>(model: Model<S, I, O>, history: seq<Entry<I, O>>, ops: seq<Operation<I, O>>, nodes: seq<Node<I, O>>,
                           linearized: array<bv64>, cache: Cache<S>, calls: seq<CallsEntry<S, I, O>>,
                           z: Stack<S>, configs: set<Config<S>>, pos: nat, id: nat) returns (pos': nat)
    requires Rounds(model, history, ops, nodes, linearized, cache, calls, z, configs, pos)
    requires id < |ops| && id !in z.order && ops[id].call == pos
    requires var (ok, s) := model.step(z.state, ops[id].input, ops[id].output);
             ok ==> Config(Ids(z.order) + {id}, s) in configs
    ensures Rounds(model, history, ops, nodes, linearized, cache, calls, z, configs, pos')
    ensures pos < pos' <= 2 * |ops| + 1 && pos < |nodes| == 2 * |ops| + 1 && nodes[pos].next == NodeAt(nodes, pos')
  {
    hide Inv, StandsFor, Calls, IsPlace, BitsOk;
    NextIs(model, ops, z, configs, pos, id);
    pos' := NextPlace(nodes, history, ops, z.order, pos);
    hide ListOk;
    SkipInv(model, ops, z, configs, pos, id, pos');
  }

  /** The moves of `PushInv`, for the search as it is at work. */
  lemma PushRound<S(!new), I, O>(model: Model<S, I, O>, history: seq<Entry<I, O>>, ops: seq<Operation<I, O>>, nodes: seq<Node<I, O>>,
                           z: Stack<S>, configs: set<Config<S>>, pos: nat, id: nat, state: S) returns (pos': nat)
    requires Inv(model, ops, z, configs, pos) && ListOk(nodes, history, ops, z.order + [id])
    requires id < |ops| && id !in z.order && ops[id].call == pos
    requires model.step(z.state, ops[id].input, ops[id].output) == (true, state)
    requires Config(Ids(z.order) + {id}, state) !in configs
    ensures Inv(model, ops, Push(z, id, state), configs + {Config(Ids(z.order) + {id}, state)}, pos')
    ensures Config(Ids(z.order) + {id}, state) in Universe(model, ops, |ops|)
    ensures |nodes| == 2 * |ops| + 1 && nodes[0].next == NodeAt(nodes, pos') && IsPlace(ops, z.order + [id], pos')
  {
    hide StackOk, StackCached, RestClosed, CacheFits, TriedBefore, PlaceOk;
    NextIs(model, ops, z, configs, pos, id);
    HeadPlace(nodes, history, ops, z.order + [id]);
    pos' := NextPlace(nodes, history, ops, z.order + [id], 0);
    assert Ids(z.order + [id]) == Ids(z.order) + {id};
    StackDistinct(model, ops, z);
    hide ListOk;
    assert |z.order| < |ops| by {
      OrderFits(z.order, |ops|);
      assert id !in Ids(z.order);
    }
    PushInv(model, ops, z, configs, pos, id, state, pos');
  }

  lemma PopRound<S(!new), I, O>(model: Model<S, I, O>, history: seq<Entry<I, O>>, ops: seq<Operation<I, O>>, nodes: seq<Node<I, O>>,
                          z: Stack<S>, configs: set<Config<S>>, pos: nat) returns (pos': nat)
    requires Inv(model, ops, z, configs, pos) && z.order != [] && |z.order| < |ops| && |z.states| == |z.order|
    requires Closed(model, ops, configs, Top(z)) && ListOk(nodes, history, ops, Pop(z).order)
    ensures Inv(model, ops, Pop(z), configs, pos')
    ensures |nodes| == 2 * |ops| + 1 && IsPlace(ops, Pop(z).order, pos')
    ensures var id := z.order[|z.order| - 1];
            id < |ops| && 0 <= ops[id].call < |nodes| && nodes[ops[id].call].next == NodeAt(nodes, pos')
  {
    hide StackCached, RestClosed, CacheFits, TriedBefore, PlaceOk, Closed;
    var id := z.order[|z.order| - 1];
    PopStackOk(model, ops, z);
    OutIsDone(ops, Pop(z).order, id);
    hide StackOk;
    pos' := NextPlace(nodes, history, ops, Pop(z).order, ops[id].call);
    assert ops[id].call >= 1;
    hide ListOk;
    PopInv(model, ops, z, configs, pos, pos');
  }

  /** The history as a list with a head. */
  method MakeList<I, O>(history: seq<Entry<I, O>>, ghost ops: seq<Operation<I, O>>)
    returns (entry: Node?<I, O>, headEntry: Node<I, O>, n: nat, ghost nodes: seq<Node<I, O>>)
    requires IsHistory(history, ops)
    ensures fresh(nodes) && ListOk(nodes, history, ops, []) && |nodes| == 2 * |ops| + 1
    ensures headEntry == nodes[0] && entry == NodeAt(nodes, 1) && n == |ops|
  {
    ghost var list;
    hide IsHistory, HoldsFrom, Chain, ListOk;
    entry, list := MakeLinkedEntries(history, ops);
    var size := Length(entry, list);
    n := size / 2;
    headEntry := new Node(Nothing, null, -1);
    Prepend(headEntry, entry, list);
    nodes := [headEntry] + list;
    WholeList(headEntry, list, history, ops);
  }

  lemma WholeList<I, O>(head: Node<I, O>, list: seq<Node<I, O>>, history: seq<Entry<I, O>>, ops: seq<Operation<I, O>>)
    requires IsHistory(history, ops) && HoldsFrom(list, history, ops, 0) && Chain([head] + list)
    ensures ListOk([head] + list, history, ops, []) && |list| == 2 * |ops|
  {
    assert |list| == 2 * |ops|;
    hide IsHistory, HoldsFrom, Chain, Linked, Holds, IsTimeline;
    HistoryIsTimeline(history, ops);
    HoldsWithHead(head, list, history, ops);
    ChainIsLinked([head] + list);
  }

  lemma CallNode<I, O>(nodes: seq<Node<I, O>>, history: seq<Entry<I, O>>, ops: seq<Operation<I, O>>, id: nat)
    requires IsHistory(history, ops) && Holds(nodes, history, ops) && id < |ops|
    ensures |nodes| == 2 * |ops| + 1
    ensures var p, q := ops[id].call, ops[id].ret; 0 <= p < |nodes| && 0 <= q < |nodes| && nodes[p].mate == nodes[q]
  {
    assert nodes[ops[id].call - 1 + 1].id == id;
  }

  lemma PopIds<S, I, O>(model: Model<S, I, O>, ops: seq<Operation<I, O>>, z: Stack<S>, configs: set<Config<S>>, pos: int)
    requires Inv(model, ops, z, configs, pos) && z.order != []
    ensures Ids(z.order[..|z.order| - 1]) == Ids(z.order) - {z.order[|z.order| - 1]}
  {
    PopStackOk(model, ops, z);
  }

  method SetNext<I, O>(linearized: array<bv64>, id: nat, ghost ops: seq<Operation<I, O>>, ghost order: seq<nat>)
    requires BitsOk(linearized, ops, order) && id < |ops|
    modifies linearized
    ensures BitsOk(linearized, ops, order + [id])
  {
    hide Bitset.Members, Bitset.Chunks;
    Bitset.FitsIn(id, |ops|);
    Bitset.Set(linearized, id);
    assert Ids(order + [id]) == Ids(order) + {id};
  }

  method CloneWith<I, O>(linearized: array<bv64>, id: nat, ghost ops: seq<Operation<I, O>>, ghost order: seq<nat>)
    returns (newLinearized: array<bv64>)
    requires BitsOk(linearized, ops, order) && id < |ops|
    ensures fresh(newLinearized) && newLinearized.Length == linearized.Length
    ensures Bitset.Members(newLinearized[..]) == Bitset.Members(linearized[..]) + {id}
  {
    hide Bitset.Members, Bitset.Chunks;
    Bitset.FitsIn(id, |ops|);
    newLinearized := Bitset.Clone(linearized);
    Bitset.Set(newLinearized, id);
  }

  method LiftNext<I, O>(entry: Node<I, O>, ghost nodes: seq<Node<I, O>>, ghost history: seq<Entry<I, O>>, ghost ops: seq<Operation<I, O>>,
                        ghost order: seq<nat>, ghost id: nat)
    requires ListOk(nodes, history, ops, order) && id < |ops| && id !in order
    requires 0 <= ops[id].call < |nodes| && entry == nodes[ops[id].call]
    modifies nodes
    ensures ListOk(nodes, history, ops, order + [id])
  {
    hide IsHistory, Holds, Linked, Lifted, IsTimeline;
    CallNode(nodes, history, ops, id);
    Lift(entry, nodes, ops, order, id);
  }

  /** The bitset of the stack and one more operation stands for a configuration that is not cached. */
  lemma NotMet<S(!new), I, O>(cache: Cache<S>, configs: set<Config<S>>, linearized: array<bv64>, words: seq<bv64>,
                        ops: seq<Operation<I, O>>, order: seq<nat>, id: nat, state: S)
    requires BitsOk(linearized, ops, order) && StandsFor(cache, linearized.Length, configs) && |words| == linearized.Length
    requires Bitset.Members(words) == Bitset.Members(linearized[..]) + {id}
    ensures Cached(cache, CacheEntry(words, state)) <==> Config(Ids(order) + {id}, state) in configs
    ensures Bitset.Members(words) == Ids(order) + {id}
  {
  }

  /** Linearizes the call at `entry`, whose result is new, and goes back to the head of the list. */
  method Linearize<S(==,!new), I, O>(
      model: Model<S, I, O>, entry: Node<I, O>, headEntry: Node<I, O>, linearized: array<bv64>, newLinearized: array<bv64>,
      cache: Cache<S>, calls: seq<CallsEntry<S, I, O>>, state: S, newState: S,
      ghost history: seq<Entry<I, O>>, ghost ops: seq<Operation<I, O>>, ghost nodes: seq<Node<I, O>>,
      ghost z: Stack<S>, ghost configs: set<Config<S>>, ghost pos: nat)
    returns (cache': Cache<S>, calls': seq<CallsEntry<S, I, O>>, entry': Node?<I, O>, ghost pos': nat)
    requires Rounds(model, history, ops, nodes, linearized, cache, calls, z, configs, pos)
    requires pos < |nodes| && entry == nodes[pos] && headEntry == nodes[0] && state == z.state
    requires 0 <= entry.id < |ops| && entry.id !in z.order && ops[entry.id].call == pos
    requires model.step(state, ops[entry.id].input, ops[entry.id].output) == (true, newState)
    requires newLinearized.Length == linearized.Length && newLinearized != linearized
    requires Bitset.Members(newLinearized[..]) == Bitset.Members(linearized[..]) + {entry.id}
    requires !Cached(cache, CacheEntry(newLinearized[..], newState))
    modifies nodes, linearized
    ensures var c := Config(Ids(z.order) + {entry.id}, newState);
            && Rounds(model, history, ops, nodes, linearized, cache', calls', Push(z, entry.id, newState), configs + {c}, pos')
            && c !in configs && c in Universe(model, ops, |ops|)
    ensures entry' == NodeAt(nodes, pos')
  {
    hide Inv, IsPlace, BitsOk, StandsFor, Calls, ListOk, Bitset.HashOf, Bitset.Members, Cached, Universe, Ids;
    NotMet(cache, configs, linearized, newLinearized[..], ops, z.order, entry.id, newState);
    var hash := Bitset.Hash(newLinearized);
    cache' := Add(cache, hash, CacheEntry(newLinearized[..], newState));
    AddStandsFor(cache, linearized.Length, configs, CacheEntry(newLinearized[..], newState));
    calls' := calls + [CallsEntry(entry, state)];
    PushCalls(nodes, ops, calls, z, entry.id, newState);
    SetNext(linearized, entry.id, ops, z.order);
    LiftNext(entry, nodes, history, ops, z.order, entry.id);
    pos' := PushRound(model, history, ops, nodes, z, configs, pos, entry.id, newState);
    entry' := headEntry.next;
  }

  method ClearLast<S(!new), I, O>(model: Model<S, I, O>, linearized: array<bv64>, id: nat, ghost ops: seq<Operation<I, O>>, ghost z: Stack<S>,
                            ghost configs: set<Config<S>>, ghost pos: int)
    requires Inv(model, ops, z, configs, pos) && BitsOk(linearized, ops, z.order) && |z.order| == |z.states| > 0
    requires id == z.order[|z.order| - 1] < |ops|
    modifies linearized
    ensures BitsOk(linearized, ops, Pop(z).order)
  {
    hide Inv, Bitset.Members, Bitset.Chunks;
    Bitset.FitsIn(id, |ops|);
    PopIds(model, ops, z, configs, pos);
    Bitset.Clear(linearized, id);
  }

  lemma CallsAreIds<S, I, O>(nodes: seq<Node<I, O>>, ops: seq<Operation<I, O>>, calls: seq<CallsEntry<S, I, O>>, z: Stack<S>)
    requires Calls(nodes, ops, calls, z)
    ensures |calls| == |z.order| == |z.states| && forall k :: 0 <= k < |calls| ==> calls[k].entry.id == z.order[k] < |ops|
  {
  }

  /** Takes back the operation linearized last, and goes on after its call. */
  method StepBack<S(==,!new), I, O>(
      model: Model<S, I, O>, linearized: array<bv64>, calls: seq<CallsEntry<S, I, O>>,
      ghost cache: Cache<S>, ghost history: seq<Entry<I, O>>, ghost ops: seq<Operation<I, O>>, ghost nodes: seq<Node<I, O>>,
      ghost z: Stack<S>, ghost configs: set<Config<S>>, ghost pos: nat)
    returns (calls': seq<CallsEntry<S, I, O>>, entry': Node?<I, O>, state': S, ghost pos': nat)
    requires Rounds(model, history, ops, nodes, linearized, cache, calls, z, configs, pos)
    requires calls != [] && |z.order| == |z.states| > 0
    requires |z.order| < |ops| && Closed(model, ops, configs, Top(z))
    modifies nodes, linearized
    ensures Rounds(model, history, ops, nodes, linearized, cache, calls', Pop(z), configs, pos')
    ensures entry' == NodeAt(nodes, pos') && state' == Pop(z).state && |calls'| < |calls|
  {
    hide Inv, IsPlace, BitsOk, StandsFor, Closed, Calls, ListOk;
    var top := calls[|calls| - 1];
    var entry := top.entry;
    state' := top.state;
    calls' := calls[..|calls| - 1];
    PopCalls(nodes, ops, calls, z);
    ClearLast(model, linearized, entry.id, ops, z, configs, pos);
    UnliftLast(entry, nodes, history, ops, z.order, entry.id);
    pos' := PopRound(model, history, ops, nodes, z, configs, pos);
    entry' := entry.next;
  }

  /** At a dead end: records what is on the stack, then steps back. */
  method BackUp<S(==,!new), I, O>(
      model: Model<S, I, O>, linearized: array<bv64>, calls: seq<CallsEntry<S, I, O>>, computePartial: bool, longest: array<Option<seq<nat>>>,
      ghost cache: Cache<S>, ghost history: seq<Entry<I, O>>, ghost ops: seq<Operation<I, O>>, ghost nodes: seq<Node<I, O>>,
      ghost z: Stack<S>, ghost configs: set<Config<S>>, ghost pos: nat)
    returns (calls': seq<CallsEntry<S, I, O>>, entry': Node?<I, O>, state': S, ghost pos': nat)
    requires Rounds(model, history, ops, nodes, linearized, cache, calls, z, configs, pos)
    requires Records(model, ops, z, configs, longest[..], computePartial)
    requires calls != [] && |z.order| == |z.states| > 0 && longest as object != linearized as object
    requires |z.order| < |ops| && Closed(model, ops, configs, Top(z))
    modifies nodes, linearized, longest
    ensures Rounds(model, history, ops, nodes, linearized, cache, calls', Pop(z), configs, pos')
    ensures Records(model, ops, Pop(z), configs, longest[..], computePartial)
    ensures entry' == NodeAt(nodes, pos') && state' == Pop(z).state && |calls'| < |calls|
  {
    hide Inv, IsPlace, BitsOk, StandsFor, Closed, Calls, ListOk, LongestOk;
    assert longest.Length == |longest[..]| == |ops|;
    CallsAreIds(nodes, ops, calls, z);
    PopRecords(model, ops, z, configs, pos, longest[..], computePartial);
    hide Rounds, Records, Pop, Top, Lengthen;
    if computePartial {
      RecordLongest(calls, longest, z.order);
    }
    calls', entry', state', pos' := StepBack(model, linearized, calls, cache, history, ops, nodes, z, configs, pos);
  }

  method UnliftLast<I, O>(entry: Node<I, O>, ghost nodes: seq<Node<I, O>>, ghost history: seq<Entry<I, O>>, ghost ops: seq<Operation<I, O>>,
                          ghost order: seq<nat>, ghost id: nat)
    requires ListOk(nodes, history, ops, order) && order != [] && order[|order| - 1] == id < |ops|
    requires 0 <= ops[id].call < |nodes| && entry == nodes[ops[id].call]
    modifies nodes
    ensures ListOk(nodes, history, ops, order[..|order| - 1])
  {
    hide IsHistory, Holds, Linked, Lifted, IsTimeline;
    CallNode(nodes, history, ops, id);
    assert order == order[..|order| - 1] + [id];
    Unlift(entry, nodes, ops, order[..|order| - 1], id);
  }

  /** As long as the list is not empty, the finger is at an entry of an operation left out. */
  lemma RoundFacts<S(!new), I, O>(model: Model<S, I, O>, history: seq<Entry<I, O>>, ops: seq<Operation<I, O>>, nodes: seq<Node<I, O>>,
                            linearized: array<bv64>, cache: Cache<S>, calls: seq<CallsEntry<S, I, O>>,
                            z: Stack<S>, configs: set<Config<S>>, pos: nat)
    requires Rounds(model, history, ops, nodes, linearized, cache, calls, z, configs, pos)
    requires nodes != [] && nodes[0].next != null
    ensures |calls| == |z.order| == |z.states| < |ops| && 1 <= pos < |nodes| == 2 * |ops| + 1
    ensures 0 <= nodes[pos].id < |ops| && nodes[pos].id !in z.order
    ensures var op := ops[nodes[pos].id];
            if nodes[pos].mate == null then op.ret == pos
            else op.call == pos && nodes[pos].value == Input(op.input) && nodes[pos].mate.value == Output(op.output)
  {
    hide StackCached, RestClosed, CacheFits, TriedBefore, BitsOk, StandsFor, ListOk, IsPlace, StackOk;
    StackDistinct(model, ops, z);
    ListEmpty(nodes, history, ops, z.order);
    ListTimeline(nodes, history, ops, z.order);
    EndMeansDone(ops, z.order, pos);
    EntryAt(nodes, history, ops, z.order, pos);
  }

  lemma ListTimeline<I, O>(nodes: seq<Node<I, O>>, history: seq<Entry<I, O>>, ops: seq<Operation<I, O>>, order: seq<nat>)
    requires ListOk(nodes, history, ops, order)
    ensures IsTimeline(ops)
  {
  }

  /** A return under the finger means a dead end. */
  lemma DeadEnd<S(!new), I, O>(model: Model<S, I, O>, history: seq<Entry<I, O>>, ops: seq<Operation<I, O>>, nodes: seq<Node<I, O>>,
                         z: Stack<S>, configs: set<Config<S>>, pos: nat, id: nat)
    requires Inv(model, ops, z, configs, pos) && ListOk(nodes, history, ops, z.order)
    requires id < |ops| && id !in z.order && ops[id].ret == pos
    ensures Closed(model, ops, configs, Top(z))
  {
    hide StackCached, RestClosed, CacheFits, TriedBefore, StackOk, Closed;
    ListTimeline(nodes, history, ops, z.order);
    hide ListOk;
    ReturnMeansTried(model, ops, configs, Top(z), pos, id);
  }

  /** A dead end with nothing on the stack ends the search. */
  lemma GiveUp<S(!new), I, O>(model: Model<S, I, O>, ops: seq<Operation<I, O>>, z: Stack<S>, configs: set<Config<S>>, pos: nat,
                        longest: seq<Option<seq<nat>>>, computePartial: bool)
    requires Inv(model, ops, z, configs, pos) && z.order == [] && Closed(model, ops, configs, Top(z)) && |ops| > 0
    requires Records(model, ops, z, configs, longest, computePartial)
    ensures !Linearizable(model, ops) && |longest| == |ops|
    ensures computePartial ==> forall i :: 0 <= i < |ops| ==> LongestWith(model, ops, i, longest[i])
  {
    hide Closed, Inv, Linearizable, IsPartial;
    ExhaustedMeansNone(model, ops, z, configs, pos);
    if computePartial {
      forall i | 0 <= i < |ops| ensures LongestWith(model, ops, i, longest[i]) {
        forall order | IsPartial(model, ops, order) && i in order
          ensures longest[i].Some? && |order| <= |longest[i].value|
        {
          ExhaustedLongest(model, ops, z, configs, pos, longest, order, i);
        }
      }
    }
  }

  lemma PushRecords<S(!new), I, O>(model: Model<S, I, O>, ops: seq<Operation<I, O>>, z: Stack<S>, configs: set<Config<S>>, id: nat, state: S,
                             longest: seq<Option<seq<nat>>>, computePartial: bool)
    requires Records(model, ops, z, configs, longest, computePartial)
    ensures Records(model, ops, Push(z, id, state), configs + {Config(Ids(z.order) + {id}, state)}, longest, computePartial)
  {
    if computePartial {
      assert Ids(z.order + [id]) == Ids(z.order) + {id};
      PushLongest(model, ops, z, configs, id, state, longest);
    }
  }

  lemma PopRecords<S(!new), I, O>(model: Model<S, I, O>, ops: seq<Operation<I, O>>, z: Stack<S>, configs: set<Config<S>>, pos: nat,
                            longest: seq<Option<seq<nat>>>, computePartial: bool)
    requires Inv(model, ops, z, configs, pos) && z.order != [] && |z.order| == |z.states|
    requires Records(model, ops, z, configs, longest, computePartial)
    ensures Records(model, ops, Pop(z), configs, if computePartial then Lengthen(longest, z.order) else longest, computePartial)
  {
    if computePartial {
      PopLongest(model, ops, z, configs, longest);
    }
  }

  lemma Found<S(!new), I, O>(model: Model<S, I, O>, history: seq<Entry<I, O>>, ops: seq<Operation<I, O>>, nodes: seq<Node<I, O>>,
                       linearized: array<bv64>, cache: Cache<S>, calls: seq<CallsEntry<S, I, O>>,
                       z: Stack<S>, configs: set<Config<S>>, pos: nat)
    requires Rounds(model, history, ops, nodes, linearized, cache, calls, z, configs, pos)
    requires nodes != [] && nodes[0].next == null
    ensures IsLinearization(model, ops, z.order) && Linearizable(model, ops)
    ensures |calls| == |z.order| && forall k :: 0 <= k < |calls| ==> calls[k].entry.id == z.order[k]
    ensures forall i :: 0 <= i < |ops| ==> LongestWith(model, ops, i, Some(z.order))
  {
    hide StackCached, RestClosed, CacheFits, TriedBefore, BitsOk, StandsFor, ListOk, IsPlace, StackOk, LongestWith, IsLinearization;
    StackDistinct(model, ops, z);
    ListEmpty(nodes, history, ops, z.order);
    FullStack(model, ops, z);
    forall i: nat | i < |ops| ensures LongestWith(model, ops, i, Some(z.order)) {
      FullIsLongest(model, ops, z.order, i);
    }
  }

  /** A round either meets a new configuration or moves the finger on. */
  ghost predicate Forward<S, I, O>(model: Model<S, I, O>, ops: seq<Operation<I, O>>, configs: set<Config<S>>, pos: nat,
                             configs': set<Config<S>>, pos': nat) {
    || (configs' == configs && pos < pos' <= 2 * |ops| + 1)
    || (exists c :: c in configs' && c !in configs && c in Universe(model, ops, |ops|) && configs' == configs + {c})
  }

  /** Linearizes the call at `entry` if the model accepts it and the result is new; passes over it otherwise. */
  method TryCall<S(==,!new), I, O>(
      model: Model<S, I, O>, entry: Node<I, O>, headEntry: Node<I, O>, linearized: array<bv64>,
      cache: Cache<S>, calls: seq<CallsEntry<S, I, O>>, state: S, ghost longest: seq<Option<seq<nat>>>, ghost computePartial: bool,
      ghost history: seq<Entry<I, O>>, ghost ops: seq<Operation<I, O>>, ghost nodes: seq<Node<I, O>>,
      ghost z: Stack<S>, ghost configs: set<Config<S>>, ghost pos: nat)
    returns (cache': Cache<S>, calls': seq<CallsEntry<S, I, O>>, entry': Node?<I, O>, state': S,
             ghost z': Stack<S>, ghost configs': set<Config<S>>, ghost pos': nat)
    requires Rounds(model, history, ops, nodes, linearized, cache, calls, z, configs, pos)
    requires Records(model, ops, z, configs, longest, computePartial)
    requires pos < |nodes| && entry == nodes[pos] && headEntry == nodes[0] && state == z.state
    requires 0 <= entry.id < |ops| && entry.id !in z.order && ops[entry.id].call == pos && entry.mate != null
    requires entry.value == Input(ops[entry.id].input) && entry.mate.value == Output(ops[entry.id].output)
    modifies nodes, linearized
    ensures Rounds(model, history, ops, nodes, linearized, cache', calls', z', configs', pos')
    ensures Records(model, ops, z', configs', longest, computePartial)
    ensures entry' == NodeAt(nodes, pos') && state' == z'.state
    ensures Forward(model, ops, configs, pos, configs', pos') && (configs' == configs ==> calls' == calls)
  {
    hide Inv, IsPlace, BitsOk, StandsFor, Calls, ListOk, Bitset.Members, Cached, Universe, Ids, Records;
    cache', calls', state', z', configs' := cache, calls, state, z, configs;
    var (accepted, newState) := model.step(state, entry.value.input, entry.mate.value.output);
    if accepted {
      var newLinearized := CloneWith(linearized, entry.id, ops, z.order);
      NotMet(cache, configs, linearized, newLinearized[..], ops, z.order, entry.id, newState);
      var seen := CacheContains(cache, newLinearized, newState);
      if !seen {
        cache', calls', entry', pos' := Linearize(model, entry, headEntry, linearized, newLinearized, cache, calls, state, newState,
                                                  history, ops, nodes, z, configs, pos);
        state' := newState;
        PushRecords(model, ops, z, configs, entry.id, newState, longest, computePartial);
        z', configs' := Push(z, entry.id, newState), configs + {Config(Ids(z.order) + {entry.id}, newState)};
        return;
      }
    }
    pos' := SkipRound(model, history, ops, nodes, linearized, cache, calls, z, configs, pos, entry.id);
    entry' := entry.next;
  }

  /**
   * Whether a history is linearizable, and for each operation a longest partial linearization with it.
   * Neither the cache nor the hashes show in the answer.
   */
  method CheckSingle<S(==,!new), I, O>(model: Model<S, I, O>, history: seq<Entry<I, O>>, computePartial: bool, ghost ops: seq<Operation<I, O>>)
    returns (ok: bool, partials: seq<Option<seq<nat>>>)
    requires IsHistory(history, ops)
    ensures ok <==> Linearizable(model, ops)
    ensures |partials| == |ops|
    ensures ok ==> forall i :: 0 <= i < |ops| ==> partials[i].Some? && IsLinearization(model, ops, partials[i].value)
    ensures ok || computePartial ==> forall i :: 0 <= i < |ops| ==> LongestWith(model, ops, i, partials[i])
  {
    hide Inv, IsPlace, BitsOk, StandsFor, Calls, ListOk, Bitset.Members, Bitset.Chunks, Cached, Universe, Ids, Closed, Records, LongestOk,
         LongestWith, IsLinearization, Linearizable, IsHistory;
    ghost var nodes;
    var entry, headEntry, n;
    entry, headEntry, n, nodes := MakeList(history, ops);
    var linearized := Bitset.NewBitset(n);
    var cache: Cache<S> := map[];
    var calls: seq<CallsEntry<S, I, O>> := [];
    var longest := new Option<seq<nat>>[n](_ => None);
    var state := model.init;
    ghost var z, configs, pos := Stack([], [], model.init), {}, 1;
    StartRounds(model, history, ops, nodes, linearized, computePartial, longest[..]);
    while headEntry.next != null
      invariant Rounds(model, history, ops, nodes, linearized, cache, calls, z, configs, pos)
      invariant entry == NodeAt(nodes, pos) && state == z.state
      invariant Records(model, ops, z, configs, longest[..], computePartial)
      invariant fresh(nodes) && fresh(linearized) && fresh(longest)
      decreases Universe(model, ops, |ops|) - configs, |calls|, 2 * |ops| + 1 - pos
    {
      RoundFacts(model, history, ops, nodes, linearized, cache, calls, z, configs, pos);
      if entry.mate != null {
        cache, calls, entry, state, z, configs, pos :=
          TryCall(model, entry, headEntry, linearized, cache, calls, state, longest[..], computePartial, history, ops, nodes, z, configs, pos);
      } else {
        DeadEnd(model, history, ops, nodes, z, configs, pos, entry.id);
        if |calls| == 0 {
          GiveUp(model, ops, z, configs, pos, longest[..], computePartial);
          return false, longest[..];
        }
        calls, entry, state, pos := BackUp(model, linearized, calls, computePartial, longest, cache, history, ops, nodes, z, configs, pos);
        z := Pop(z);
      }
    }
    Found(model, history, ops, nodes, linearized, cache, calls, z, configs, pos);
    var ids := CallIds(calls, z.order);
    for i := 0 to n
      invariant forall k :: 0 <= k < i ==> longest[k] == Some(ids)
    {
      longest[i] := Some(ids);
    }
    return true, longest[..];
  }

  lemma StartRounds<S(!new), I, O>(model: Model<S, I, O>, history: seq<Entry<I, O>>, ops: seq<Operation<I, O>>, nodes: seq<Node<I, O>>,
                             linearized: array<bv64>, computePartial: bool, longest: seq<Option<seq<nat>>>)
    requires ListOk(nodes, history, ops, []) && linearized.Length == Bitset.Chunks(|ops|) && Bitset.Members(linearized[..]) == {}
    requires |longest| == |ops| && forall i :: 0 <= i < |ops| ==> longest[i] == None
    ensures Rounds(model, history, ops, nodes, linearized, map[], [], Stack([], [], model.init), {}, 1)
    ensures Records(model, ops, Stack([], [], model.init), {}, longest, computePartial)
  {
    hide Inv, LongestOk, Bitset.Members, Bitset.HashOf, Linked;
    StartInv(model, ops);
    assert longest == seq(|ops|, _ => None);
    assert Ids([]) == {};
    forall entry: CacheEntry<S> ensures !Cached(map[], entry) {
    }
    assert IsPlace(ops, [], 1);
    assert BitsOk(linearized, ops, []);
    assert |nodes| == 2 * |ops| + 1;
    assert Calls<S, I, O>(nodes, ops, [], Stack([], [], model.init));
  }
}

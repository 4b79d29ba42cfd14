/**
 * The model of the key/value store (src/models/kv.go) and why it may be checked key by key: a history is
 * linearizable as one store exactly when the part of it on each key is linearizable as one value.
 */
module KvModel {
  import opened FiniteSets
  import opened KvTypes
  import opened Linearizability
  import opened Timestamps

  /** op: 0 gets, 1 puts, anything else appends. */
  datatype KvInput = KvInput(op: nat, key: string, value: string)

  datatype KvOutput = KvOutput(value: string)

  type KvOperation = Operation<KvInput, KvOutput>

  // ---------- one key, as the checker sees it ----------

  function KeyStep(state: string, input: KvInput, output: KvOutput): (bool, string) {
    if input.op == 0 then (output.value == state, state)
    else if input.op == 1 then (true, input.value)
    else (true, state + input.value)
  }

  const KEY_MODEL: Model<string, KvInput, KvOutput> := Model("", KeyStep)

  // ---------- the whole store ----------

  function StoreStep(store: Store, input: KvInput, output: KvOutput): (bool, Store) {
    if input.op == 0 then (output.value == Lookup(store, input.key), store)
    else if input.op == 1 then (true, store[input.key := input.value])
    else (true, store[input.key := Lookup(store, input.key) + input.value])
  }

  const STORE_MODEL: Model<Store, KvInput, KvOutput> := Model(map[], StoreStep)

  // ---------- the part of a history on one key ----------

  function Part(ops: seq<KvOperation>, key: string): seq<KvOperation> {
    if ops == [] then []
    else
      var last := ops[|ops| - 1];
      Part(ops[..|ops| - 1], key) + if last.input.key == key then [last] else []
  }

  /** The operations on a key, by number. */
  function Numbers(ops: seq<KvOperation>, key: string): (numbers: seq<nat>)
    ensures InRange(numbers, |ops|) && forall k :: 0 <= k < |numbers| ==> ops[numbers[k]].input.key == key
    ensures forall j, k :: 0 <= j < k < |numbers| ==> numbers[j] < numbers[k]
    ensures forall i: nat :: i < |ops| && ops[i].input.key == key ==> i in numbers
  {
    if ops == [] then []
    else Numbers(ops[..|ops| - 1], key) + if ops[|ops| - 1].input.key == key then [|ops| - 1] else []
  }

  lemma {:induction false} PartByNumber(ops: seq<KvOperation>, key: string)
    ensures |Part(ops, key)| == |Numbers(ops, key)|
    ensures forall k :: 0 <= k < |Numbers(ops, key)| ==> Part(ops, key)[k] == ops[Numbers(ops, key)[k]]
  {
    if ops != [] {
      PartByNumber(ops[..|ops| - 1], key);
    }
  }

  /** The part of an order on one key. */
  function Only(ops: seq<KvOperation>, key: string, order: seq<nat>): (only: seq<nat>)
    requires InRange(order, |ops|)
    ensures InRange(only, |ops|)
    ensures forall i: nat :: i in only <==> i in order && ops[i].input.key == key
  {
    if order == [] then []
    else
      var last := order[|order| - 1];
      Only(ops, key, order[..|order| - 1]) + if ops[last].input.key == key then [last] else []
  }

  /** An order of all operations on one key that fits the time and the model of the key. */
  ghost predicate IsKeyOrder(ops: seq<KvOperation>, key: string, order: seq<nat>) {
    && InRange(order, |ops|) && Distinct(order) && RespectsTime(ops, order)
    && (forall i: nat :: i < |ops| ==> (i in order <==> ops[i].input.key == key))
    && Exec(KEY_MODEL, ops, order).Some?
  }

  // ---------- from the store to a key ----------

  /** A step of the store is a step of the key it is about, and leaves the other keys alone. */
  lemma StepOnKey(store: Store, input: KvInput, output: KvOutput, key: string)
    ensures var (ok, store') := StoreStep(store, input, output);
            if input.key == key then KeyStep(Lookup(store, key), input, output) == (ok, Lookup(store', key))
            else Lookup(store', key) == Lookup(store, key)
  {
  }

  lemma ExecLast<S, I, O>(model: Model<S, I, O>, ops: seq<Operation<I, O>>, order: seq<nat>, id: nat)
    requires InRange(order, |ops|) && id < |ops| && Exec(model, ops, order).Some?
    ensures var (ok, s) := model.step(Exec(model, ops, order).value, ops[id].input, ops[id].output);
            Exec(model, ops, order + [id]) == if ok then Some(s) else None
  {
    assert (order + [id])[..|order|] == order;
  }

  lemma ExecBefore<S, I, O>(model: Model<S, I, O>, ops: seq<Operation<I, O>>, order: seq<nat>, id: nat)
    requires InRange(order + [id], |ops|) && Exec(model, ops, order + [id]).Some?
    ensures InRange(order, |ops|) && id < |ops| && Exec(model, ops, order).Some?
  {
    var order' := order + [id];
    assert order'[..|order|] == order && order'[|order|] == id;
    assert forall k :: 0 <= k < |order| ==> order[k] == order'[k];
  }

  lemma OnlyLast(ops: seq<KvOperation>, key: string, order: seq<nat>, id: nat)
    requires InRange(order, |ops|) && id < |ops|
    ensures Only(ops, key, order + [id]) == Only(ops, key, order) + if ops[id].input.key == key then [id] else []
  {
    assert (order + [id])[..|order|] == order;
  }

  lemma KeyExecLast(ops: seq<KvOperation>, order: seq<nat>, id: nat)
    requires InRange(order, |ops|) && id < |ops| && Exec(KEY_MODEL, ops, order).Some?
    ensures var (ok, s) := KeyStep(Exec(KEY_MODEL, ops, order).value, ops[id].input, ops[id].output);
            Exec(KEY_MODEL, ops, order + [id]) == if ok then Some(s) else None
  {
    ExecLast(KEY_MODEL, ops, order, id);
    hide Exec, KeyStep;
  }

  lemma StoreExecLast(ops: seq<KvOperation>, order: seq<nat>, id: nat)
    requires InRange(order, |ops|) && id < |ops| && Exec(STORE_MODEL, ops, order).Some?
    ensures var (ok, s) := StoreStep(Exec(STORE_MODEL, ops, order).value, ops[id].input, ops[id].output);
            Exec(STORE_MODEL, ops, order + [id]) == if ok then Some(s) else None
  {
    ExecLast(STORE_MODEL, ops, order, id);
    hide Exec, StoreStep;
  }

  /** The value of a key in step with the store: running the part of an order on the key gives what the store holds there. */
  ghost predicate InStep(ops: seq<KvOperation>, key: string, order: seq<nat>)
    requires InRange(order, |ops|)
  {
    Exec(STORE_MODEL, ops, order).Some? ==>
      Exec(KEY_MODEL, ops, Only(ops, key, order)) == Some(Lookup(Exec(STORE_MODEL, ops, order).value, key))
  }

  lemma InStepNext(ops: seq<KvOperation>, key: string, order: seq<nat>, id: nat)
    requires InRange(order, |ops|) && id < |ops| && InStep(ops, key, order) && InRange(order + [id], |ops|)
    ensures InStep(ops, key, order + [id])
  {
    hide Exec, Only, StoreStep, KeyStep, Lookup;
    if Exec(STORE_MODEL, ops, order + [id]).Some? {
      ExecBefore(STORE_MODEL, ops, order, id);
      StoreExecLast(ops, order, id);
      OnlyLast(ops, key, order, id);
      StepOnKey(Exec(STORE_MODEL, ops, order).value, ops[id].input, ops[id].output, key);
      if ops[id].input.key == key {
        KeyExecLast(ops, Only(ops, key, order), id);
      } else {
        assert Only(ops, key, order) + [] == Only(ops, key, order);
      }
    }
  }

  lemma {:induction false} ExecOnly(ops: seq<KvOperation>, key: string, order: seq<nat>)
    requires InRange(order, |ops|)
    ensures InStep(ops, key, order)
    decreases |order|
  {
    if order == [] {
      assert Exec(KEY_MODEL, ops, []) == Some("");
    } else {
      var before, last := order[..|order| - 1], order[|order| - 1];
      assert order == before + [last];
      hide InStep;
      ExecOnly(ops, key, before);
      InStepNext(ops, key, before, last);
    }
  }

  lemma OneMoreInOrder(ops: seq<KvOperation>, key: string, order: seq<nat>, id: nat, x: nat)
    requires InRange(order + [id], |ops|) && Distinct(order + [id]) && RespectsTime(ops, order + [id])
    requires InRange(order, |ops|) && x in order
    ensures x != id && x < |ops| && id < |ops| && !(ops[id].ret < ops[x].call)
  {
    var order' := order + [id];
    var y :| 0 <= y < |order| && order[y] == x;
    assert order'[y] == x && order'[|order|] == id;
  }

  lemma PrefixInOrder(ops: seq<KvOperation>, order: seq<nat>, id: nat)
    requires InRange(order + [id], |ops|) && Distinct(order + [id]) && RespectsTime(ops, order + [id])
    ensures InRange(order, |ops|) && Distinct(order) && RespectsTime(ops, order) && id < |ops|
  {
    var order' := order + [id];
    assert order'[|order|] == id;
    assert forall k :: 0 <= k < |order| ==> order[k] == order'[k];
  }

  lemma {:induction false} OnlyInOrder(ops: seq<KvOperation>, key: string, order: seq<nat>)
    requires InRange(order, |ops|) && Distinct(order) && RespectsTime(ops, order)
    ensures Distinct(Only(ops, key, order)) && RespectsTime(ops, Only(ops, key, order))
    decreases |order|
  {
    if order != [] {
      var before, last := order[..|order| - 1], order[|order| - 1];
      assert order == before + [last];
      PrefixInOrder(ops, before, last);
      OnlyInOrder(ops, key, before);
      OnlyLast(ops, key, before, last);
      var only := Only(ops, key, before);
      hide Only;
      forall x | 0 <= x < |only| ensures only[x] != last && !(ops[last].ret < ops[only[x]].call) {
        OneMoreInOrder(ops, key, before, last, only[x]);
      }
    }
  }

  lemma StoreToKey(ops: seq<KvOperation>, key: string, order: seq<nat>)
    requires IsLinearization(STORE_MODEL, ops, order)
    ensures IsKeyOrder(ops, key, Only(ops, key, order))
  {
    ExecOnly(ops, key, order);
    OnlyInOrder(ops, key, order);
    hide Exec, RespectsTime, Distinct;
    forall i: nat | i < |ops| ensures i in order {
      OrderFits(order, |ops|);
      assert i in Ids(order);
    }
  }

  // ---------- from the keys to the store ----------

  ghost predicate HasKeyOrder(ops: seq<KvOperation>, key: string) {
    exists order :: IsKeyOrder(ops, key, order)
  }

  ghost predicate AllKeysOrdered(ops: seq<KvOperation>) {
    forall key :: HasKeyOrder(ops, key)
  }

  ghost function KeyOrder(ops: seq<KvOperation>, key: string): (order: seq<nat>)
    requires HasKeyOrder(ops, key)
    ensures IsKeyOrder(ops, key, order)
  {
    var order :| IsKeyOrder(ops, key, order);
    order
  }

  /** On every key, the order so far is the beginning of the order chosen for the key. */
  ghost predicate Follows(ops: seq<KvOperation>, order: seq<nat>)
    requires AllKeysOrdered(ops) && InRange(order, |ops|)
  {
    forall key :: Only(ops, key, order) <= KeyOrder(ops, key)
  }

  /** Among the operations left, one that returned first. */
  lemma FirstReturn(ops: seq<KvOperation>, done: set<nat>) returns (first: nat)
    requires exists j: nat :: j < |ops| && j !in done
    ensures first < |ops| && first !in done
    ensures forall j: nat :: j < |ops| && j !in done ==> ops[first].ret <= ops[j].ret
  {
    first :| first < |ops| && first !in done;
    for i := 0 to |ops|
      invariant first < |ops| && first !in done
      invariant forall j: nat :: j < i && j !in done ==> ops[first].ret <= ops[j].ret
    {
      if i !in done && ops[i].ret < ops[first].ret {
        first := i;
      }
    }
  }

  lemma {:induction false} ExecPrefix<S, I, O>(model: Model<S, I, O>, ops: seq<Operation<I, O>>, order: seq<nat>, m: nat)
    requires InRange(order, |ops|) && Exec(model, ops, order).Some? && m <= |order|
    ensures InRange(order[..m], |ops|) && Exec(model, ops, order[..m]).Some?
    decreases |order|
  {
    if m < |order| {
      var before := order[..|order| - 1];
      ExecPrefix(model, ops, before, m);
      assert before[..m] == order[..m];
    } else {
      assert order[..m] == order;
    }
  }

  lemma AfterPrefix(prefix: seq<nat>, all: seq<nat>, i: nat) returns (y: nat)
    requires prefix <= all && Distinct(all) && i in all && i !in prefix
    ensures |prefix| <= y < |all| && all[y] == i
    ensures all[|prefix|] !in prefix && prefix + [all[|prefix|]] <= all
  {
    y :| 0 <= y < |all| && all[y] == i;
    assert forall k :: 0 <= k < |prefix| ==> prefix[k] == all[k];
    assert prefix + [all[|prefix|]] == all[..|prefix| + 1];
  }

  /** The next operation of the key whose turn it is: it has not been placed, and it was called before anything left returned. */
  lemma TurnOf(ops: seq<KvOperation>, order: seq<nat>, first: nat) returns (x: nat)
    requires Proper(ops) && AllKeysOrdered(ops) && InRange(order, |ops|) && Follows(ops, order)
    requires first < |ops| && first !in order
    ensures x < |ops| && x !in order && ops[x].input.key == ops[first].input.key && ops[x].call <= ops[first].ret
    ensures var key := ops[x].input.key; Only(ops, key, order) + [x] <= KeyOrder(ops, key)
  {
    var key := ops[first].input.key;
    var only, all := Only(ops, key, order), KeyOrder(ops, key);
    hide Only, Exec;
    assert only <= all && first in all && first !in only;
    var y := AfterPrefix(only, all, first);
    x := all[|only|];
    assert x in all;
  }

  /** The store accepts it. */
  lemma TurnAccepted(ops: seq<KvOperation>, order: seq<nat>, x: nat)
    requires AllKeysOrdered(ops) && InRange(order, |ops|) && Exec(STORE_MODEL, ops, order).Some? && x < |ops|
    requires var key := ops[x].input.key; Only(ops, key, order) + [x] <= KeyOrder(ops, key)
    ensures StoreStep(Exec(STORE_MODEL, ops, order).value, ops[x].input, ops[x].output).0
  {
    var key := ops[x].input.key;
    var only, all := Only(ops, key, order), KeyOrder(ops, key);
    hide Only, Exec, StoreStep, KeyStep, Lookup;
    ExecOnly(ops, key, order);
    ExecPrefix(KEY_MODEL, ops, all, |only| + 1);
    assert all[..|only| + 1] == only + [x];
    KeyExecLast(ops, only, x);
    StepOnKey(Exec(STORE_MODEL, ops, order).value, ops[x].input, ops[x].output, key);
  }

  lemma FollowsNext(ops: seq<KvOperation>, order: seq<nat>, x: nat)
    requires AllKeysOrdered(ops) && InRange(order, |ops|) && Follows(ops, order) && x < |ops| && InRange(order + [x], |ops|)
    requires var key := ops[x].input.key; Only(ops, key, order) + [x] <= KeyOrder(ops, key)
    ensures Follows(ops, order + [x])
  {
    forall key ensures Only(ops, key, order + [x]) <= KeyOrder(ops, key) {
      OnlyLast(ops, key, order, x);
      assert Only(ops, key, order) <= KeyOrder(ops, key);
    }
  }

  /** An order that follows the orders of the keys can always be continued. */
  lemma Continue(ops: seq<KvOperation>, order: seq<nat>) returns (x: nat)
    requires Proper(ops) && AllKeysOrdered(ops) && IsPartial(STORE_MODEL, ops, order) && |order| < |ops|
    requires InRange(order, |ops|) && Follows(ops, order)
    ensures Next(STORE_MODEL, ops, Reached(STORE_MODEL, ops, order), x).Some?
    ensures InRange(order + [x], |ops|) && Follows(ops, order + [x])
  {
    var done := Ids(order);
    assert exists j: nat :: j < |ops| && j !in done by {
      PartialIsDistinct(STORE_MODEL, ops, order);
      IdsSize(order);
      if Upto(|ops|) <= done {
        SubsetIsSmaller(Upto(|ops|), done);
      } else {
        var j :| j in Upto(|ops|) && j !in done;
      }
    }
    var first := FirstReturn(ops, done);
    x := TurnOf(ops, order, first);
    assert Enabled(ops, done, x);
    TurnAccepted(ops, order, x);
    FollowsNext(ops, order, x);
    hide Follows, StoreStep, Exec;
  }

  lemma {:induction false} Merge(ops: seq<KvOperation>, order: seq<nat>)
    requires Proper(ops) && AllKeysOrdered(ops) && IsPartial(STORE_MODEL, ops, order)
    requires InRange(order, |ops|) && Follows(ops, order)
    ensures Linearizable(STORE_MODEL, ops)
    decreases |ops| - |order|
  {
    hide Exec, Follows, Enabled;
    PartialIsDistinct(STORE_MODEL, ops, order);
    OrderFits(order, |ops|);
    if |order| == |ops| {
      FullPartial(STORE_MODEL, ops, order);
    } else {
      var x := Continue(ops, order);
      PartialExtend(STORE_MODEL, ops, order, x);
      Merge(ops, order + [x]);
    }
  }

  /** One store or many keys: it is the same question. */
  lemma StoreIffKeys(ops: seq<KvOperation>)
    requires Proper(ops)
    ensures Linearizable(STORE_MODEL, ops) <==> AllKeysOrdered(ops)
  {
    if Linearizable(STORE_MODEL, ops) {
      var order :| IsLinearization(STORE_MODEL, ops, order);
      forall key ensures HasKeyOrder(ops, key) {
        StoreToKey(ops, key, order);
      }
    }
    if AllKeysOrdered(ops) {
      Merge(ops, []);
    }
  }

  // ---------- the part of a key as a history of its own ----------

  function Global(numbers: seq<nat>, order: seq<nat>): seq<nat>
    requires InRange(order, |numbers|)
  {
    seq(|order|, k requires 0 <= k < |order| => numbers[order[k]])
  }

  lemma {:induction false} ExecGlobal(ops: seq<KvOperation>, key: string, order: seq<nat>)
    requires InRange(order, |Part(ops, key)|) && |Part(ops, key)| == |Numbers(ops, key)|
    requires InRange(Global(Numbers(ops, key), order), |ops|)
    ensures Exec(KEY_MODEL, ops, Global(Numbers(ops, key), order)) == Exec(KEY_MODEL, Part(ops, key), order)
    decreases |order|
  {
    PartByNumber(ops, key);
    if order != [] {
      var last := |order| - 1;
      assert Global(Numbers(ops, key), order)[..last] == Global(Numbers(ops, key), order[..last]);
      ExecGlobal(ops, key, order[..last]);
    }
  }

  lemma GlobalRange(ops: seq<KvOperation>, key: string, order: seq<nat>)
    requires InRange(order, |Numbers(ops, key)|)
    ensures InRange(Global(Numbers(ops, key), order), |ops|)
    ensures forall i: nat :: i in Global(Numbers(ops, key), order) ==> ops[i].input.key == key
  {
  }

  lemma GlobalInOrder(ops: seq<KvOperation>, key: string, order: seq<nat>)
    requires InRange(order, |Part(ops, key)|) && |Part(ops, key)| == |Numbers(ops, key)|
    requires InRange(Global(Numbers(ops, key), order), |ops|)
    ensures RespectsTime(ops, Global(Numbers(ops, key), order)) <==> RespectsTime(Part(ops, key), order)
    ensures Distinct(Global(Numbers(ops, key), order)) <==> Distinct(order)
  {
    PartByNumber(ops, key);
    var numbers, global, part := Numbers(ops, key), Global(Numbers(ops, key), order), Part(ops, key);
    assert forall k :: 0 <= k < |order| ==> ops[global[k]] == part[order[k]];
    hide Part, Numbers;
    if RespectsTime(ops, global) {
      forall x, y | 0 <= x < y < |order| ensures !(part[order[y]].ret < part[order[x]].call) {
        assert !(ops[global[y]].ret < ops[global[x]].call);
      }
    }
    if Distinct(global) {
      forall x, y | 0 <= x < y < |order| ensures order[x] != order[y] {
        assert global[x] != global[y];
      }
    }
  }

  lemma GlobalCovers(ops: seq<KvOperation>, key: string, order: seq<nat>, i: nat)
    requires InRange(order, |Numbers(ops, key)|) && Distinct(order) && |order| == |Numbers(ops, key)|
    requires i < |ops| && ops[i].input.key == key
    ensures i in Global(Numbers(ops, key), order)
  {
    var numbers := Numbers(ops, key);
    OrderFits(order, |numbers|);
    var k: nat :| k < |numbers| && numbers[k] == i;
    assert k in Ids(order);
    var x :| 0 <= x < |order| && order[x] == k;
    assert Global(numbers, order)[x] == i;
  }

  lemma PartToKey(ops: seq<KvOperation>, key: string, order: seq<nat>)
    requires IsLinearization(KEY_MODEL, Part(ops, key), order)
    ensures HasKeyOrder(ops, key)
  {
    hide Exec, RespectsTime, Distinct, Numbers, Part;
    PartByNumber(ops, key);
    var global := Global(Numbers(ops, key), order);
    GlobalRange(ops, key, order);
    ExecGlobal(ops, key, order);
    GlobalInOrder(ops, key, order);
    forall i: nat | i < |ops| && ops[i].input.key == key ensures i in global {
      GlobalCovers(ops, key, order, i);
    }
    hide Global;
    assert IsKeyOrder(ops, key, global);
  }

  ghost function NumberOf(numbers: seq<nat>, i: nat): (k: nat)
    requires i in numbers
    ensures k < |numbers| && numbers[k] == i
  {
    var k: nat :| k < |numbers| && numbers[k] == i;
    k
  }

  lemma KeyToPart(ops: seq<KvOperation>, key: string, global: seq<nat>)
    requires IsKeyOrder(ops, key, global)
    ensures Linearizable(KEY_MODEL, Part(ops, key))
  {
    PartByNumber(ops, key);
    var numbers := Numbers(ops, key);
    forall x | 0 <= x < |global| ensures global[x] in numbers {
      assert global[x] in global;
    }
    var order := seq(|global|, x requires 0 <= x < |global| => NumberOf(numbers, global[x]));
    assert Global(numbers, order) == global;
    ExecGlobal(ops, key, order);
    GlobalInOrder(ops, key, order);
    SameLength(ops, key, global);
    hide Exec, RespectsTime, Distinct, Numbers, Part;
    assert IsLinearization(KEY_MODEL, Part(ops, key), order);
  }

  lemma SameLength(ops: seq<KvOperation>, key: string, global: seq<nat>)
    requires IsKeyOrder(ops, key, global)
    ensures |global| == |Numbers(ops, key)|
  {
    hide Exec, RespectsTime;
    IdsSize(global);
    IdsSize(Numbers(ops, key));
    assert Ids(global) == Ids(Numbers(ops, key));
  }

  ghost predicate PartLinearizable(ops: seq<KvOperation>, key: string) {
    Linearizable(KEY_MODEL, Part(ops, key))
  }

  /** Locality: a history of the store is linearizable exactly when its part on each key is. */
  lemma Locality(ops: seq<KvOperation>)
    requires Proper(ops)
    ensures Linearizable(STORE_MODEL, ops) <==> forall key :: PartLinearizable(ops, key)
  {
    StoreIffKeys(ops);
    hide HasKeyOrder, Proper;
    forall key ensures HasKeyOrder(ops, key) <==> PartLinearizable(ops, key) {
      KeyIffPart(ops, key);
    }
    hide PartLinearizable;
    if forall key :: PartLinearizable(ops, key) {
      forall key ensures HasKeyOrder(ops, key) {
        assert PartLinearizable(ops, key);
      }
    }
  }

  lemma KeyIffPart(ops: seq<KvOperation>, key: string)
    ensures HasKeyOrder(ops, key) <==> Linearizable(KEY_MODEL, Part(ops, key))
  {
    if HasKeyOrder(ops, key) {
      KeyToPart(ops, key, KeyOrder(ops, key));
    }
    if Linearizable(KEY_MODEL, Part(ops, key)) {
      var order :| IsLinearization(KEY_MODEL, Part(ops, key), order);
      PartToKey(ops, key, order);
    }
  }
}

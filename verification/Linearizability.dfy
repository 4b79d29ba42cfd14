/**
 * Histories, sequential models, and what it means for a history to be linearizable
 * (src/porcupine/model.go), with the partial linearizations that a search builds on the way.
 */
module Linearizability {
  import opened FiniteSets
  import opened KvTypes

  /** `step` says whether the model accepts this output, and the next state. Equality of states is `==`. */
  datatype Model<!S, !I, !O> = Model(init: S, step: (S, I, O) -> (bool, S))

  datatype Operation<I, O> = Operation(input: I, output: O, call: int, ret: int)

  // ---------- linearizations ----------

  /** The state after the operations named by `order`, if the model accepts them one after the other. */
  function Exec<S, I, O>(model: Model<S, I, O>, ops: seq<Operation<I, O>>, order: seq<nat>): Option<S>
    requires InRange(order, |ops|)
  {
    if order == [] then Some(model.init)
    else
      var last := |order| - 1;
      match Exec(model, ops, order[..last])
      case None => None
      case Some(s) =>
        var op := ops[order[last]];
        var (ok, s') := model.step(s, op.input, op.output);
        if ok then Some(s') else None
  }

  predicate Distinct(order: seq<nat>) {
    forall i, j :: 0 <= i < j < |order| ==> order[i] != order[j]
  }

  predicate InRange(order: seq<nat>, n: nat) {
    forall k :: 0 <= k < |order| ==> order[k] < n
  }

  /** Nothing is placed before an operation that had returned when it was called. */
  predicate RespectsTime<I, O>(ops: seq<Operation<I, O>>, order: seq<nat>)
    requires InRange(order, |ops|)
  {
    forall x, y :: 0 <= x < y < |order| ==> !(ops[order[y]].ret < ops[order[x]].call)
  }

  predicate IsLinearization<S(==), I, O>(model: Model<S, I, O>, ops: seq<Operation<I, O>>, order: seq<nat>) {
    && InRange(order, |ops|) && Distinct(order) && |order| == |ops|
    && RespectsTime(ops, order)
    && Exec(model, ops, order).Some?
  }

  ghost predicate Linearizable<S, I, O>(model: Model<S, I, O>, ops: seq<Operation<I, O>>) {
    exists order :: IsLinearization(model, ops, order)
  }

  // ---------- partial linearizations ----------

  /** No other operation left out has returned before `id` is called. */
  predicate Enabled<I, O>(ops: seq<Operation<I, O>>, done: set<nat>, id: nat) {
    && id < |ops| && id !in done
    && forall j: nat :: j < |ops| && j !in done && j != id ==> ops[id].call <= ops[j].ret
  }

  ghost function Ids(order: seq<nat>): set<nat> {
    set i | i in order
  }

  /** A linearization of some operations that leaves out none that must come earlier. */
  ghost predicate IsPartial<S, I, O>(model: Model<S, I, O>, ops: seq<Operation<I, O>>, order: seq<nat>) {
    && InRange(order, |ops|)
    && (forall k :: 0 <= k < |order| ==> Enabled(ops, Ids(order[..k]), order[k]))
    && Exec(model, ops, order).Some?
  }

  lemma {:induction false} IdsSize(order: seq<nat>)
    requires Distinct(order)
    ensures |Ids(order)| == |order|
  {
    if order != [] {
      var last := |order| - 1;
      IdsSize(order[..last]);
      assert Ids(order) == Ids(order[..last]) + {order[last]};
      assert order[last] !in Ids(order[..last]);
    }
    else {
      assert Ids(order) == {};
    }
  }

  lemma PartialIsDistinct<S, I, O>(model: Model<S, I, O>, ops: seq<Operation<I, O>>, order: seq<nat>)
    requires IsPartial(model, ops, order)
    ensures Distinct(order)
  {
    forall i, j | 0 <= i < j < |order| ensures order[i] != order[j] {
      assert Enabled(ops, Ids(order[..j]), order[j]);
      assert order[i] == order[..j][i];
      assert order[i] in Ids(order[..j]);
    }
  }

  lemma OrderFits(order: seq<nat>, n: nat)
    requires InRange(order, n) && Distinct(order)
    ensures |order| <= n && (|order| == n ==> Ids(order) == Upto(n))
  {
    IdsSize(order);
    SubsetIsSmaller(Ids(order), Upto(n));
  }

  /** A partial linearization of everything is a linearization, and the other way around. */
  lemma FullPartial<S, I, O>(model: Model<S, I, O>, ops: seq<Operation<I, O>>, order: seq<nat>)
    ensures IsLinearization(model, ops, order) <==> IsPartial(model, ops, order) && |order| == |ops|
  {
    if IsLinearization(model, ops, order) {
      LinearizationIsPartial(model, ops, order);
    }
    if IsPartial(model, ops, order) && |order| == |ops| {
      PartialIsDistinct(model, ops, order);
      PartialRespects(model, ops, order);
    }
  }

  lemma StillToCome(order: seq<nat>, n: nat, k: nat, j: nat) returns (y: nat)
    requires Ids(order) == Upto(n) && k < |order| && j < n && j !in Ids(order[..k]) && j != order[k]
    ensures k < y < |order| && order[y] == j
  {
    assert j in Ids(order);
    assert forall x :: 0 <= x < k ==> order[..k][x] == order[x];
    y :| 0 <= y < |order| && order[y] == j;
  }

  lemma EnabledInTurn<I, O>(ops: seq<Operation<I, O>>, order: seq<nat>, k: nat)
    requires InRange(order, |ops|) && Distinct(order) && RespectsTime(ops, order) && k < |order|
    requires Ids(order) == Upto(|ops|)
    ensures Enabled(ops, Ids(order[..k]), order[k])
  {
    assert order[k] !in order[..k];
    forall j: nat | j < |ops| && j !in Ids(order[..k]) && j != order[k] ensures ops[order[k]].call <= ops[j].ret {
      var y := StillToCome(order, |ops|, k, j);
    }
  }

  lemma LinearizationIsPartial<S, I, O>(model: Model<S, I, O>, ops: seq<Operation<I, O>>, order: seq<nat>)
    requires IsLinearization(model, ops, order)
    ensures IsPartial(model, ops, order)
  {
    OrderFits(order, |ops|);
    hide Enabled;
    forall k | 0 <= k < |order| ensures Enabled(ops, Ids(order[..k]), order[k]) {
      EnabledInTurn(ops, order, k);
    }
  }

  lemma PartialRespects<S, I, O>(model: Model<S, I, O>, ops: seq<Operation<I, O>>, order: seq<nat>)
    requires IsPartial(model, ops, order)
    ensures RespectsTime(ops, order)
  {
    PartialIsDistinct(model, ops, order);
    forall x, y | 0 <= x < y < |order| ensures !(ops[order[y]].ret < ops[order[x]].call) {
      assert Enabled(ops, Ids(order[..x]), order[x]);
      assert order[y] !in Ids(order[..x]);
    }
  }

  // ---------- configurations ----------

  /** What the rest of a search depends on: the operations linearized and the model's state. */
  datatype Config<S> = Config(done: set<nat>, state: S)

  /** Linearizing `id` next. */
  function Next<S, I, O>(model: Model<S, I, O>, ops: seq<Operation<I, O>>, c: Config<S>, id: nat): Option<Config<S>> {
    if !Enabled(ops, c.done, id) then None
    else
      var (ok, s) := model.step(c.state, ops[id].input, ops[id].output);
      if ok then Some(Config(c.done + {id}, s)) else None
  }

  function Root<S, I, O>(model: Model<S, I, O>): Config<S> {
    Config({}, model.init)
  }

  /** The configuration that a partial linearization leads to. */
  ghost function Reached<S, I, O>(model: Model<S, I, O>, ops: seq<Operation<I, O>>, order: seq<nat>): Config<S>
    requires IsPartial(model, ops, order)
  {
    Config(Ids(order), Exec(model, ops, order).value)
  }

  lemma PartialPrefix<S, I, O>(model: Model<S, I, O>, ops: seq<Operation<I, O>>, order: seq<nat>)
    requires IsPartial(model, ops, order) && order != []
    ensures var last := |order| - 1;
            && IsPartial(model, ops, order[..last])
            && Next(model, ops, Reached(model, ops, order[..last]), order[last]) == Some(Reached(model, ops, order))
  {
    var last := |order| - 1;
    forall k | 0 <= k < last ensures Enabled(ops, Ids(order[..last][..k]), order[..last][k]) {
      assert order[..last][..k] == order[..k];
    }
    assert Ids(order) == Ids(order[..last]) + {order[last]};
  }

  lemma PartialExtend<S, I, O>(model: Model<S, I, O>, ops: seq<Operation<I, O>>, order: seq<nat>, id: nat)
    requires IsPartial(model, ops, order) && Next(model, ops, Reached(model, ops, order), id).Some?
    ensures IsPartial(model, ops, order + [id])
    ensures Reached(model, ops, order + [id]) == Next(model, ops, Reached(model, ops, order), id).value
  {
    var order' := order + [id];
    assert order'[..|order|] == order;
    assert Ids(order') == Ids(order) + {id};
    assert Enabled(ops, Ids(order), id);
    assert Exec(model, ops, order').Some?;
    hide Enabled, Ids, Exec;
    forall k | 0 <= k < |order'| ensures Enabled(ops, Ids(order'[..k]), order'[k]) {
      if k < |order| {
        assert order'[..k] == order[..k];
      }
    }
  }

  /** A set of configurations that holds the root and every next configuration holds every one there is. */
  lemma {:induction false} ClosedHoldsAll<S, I, O>(model: Model<S, I, O>, ops: seq<Operation<I, O>>, configs: set<Config<S>>, order: seq<nat>)
    requires Root(model) in configs && IsPartial(model, ops, order)
    requires forall c, id :: c in configs && Next(model, ops, c, id).Some? ==> Next(model, ops, c, id).value in configs
    ensures Reached(model, ops, order) in configs
    decreases |order|
  {
    if order == [] {
      assert Ids(order) == {};
    } else {
      PartialPrefix(model, ops, order);
      ClosedHoldsAll(model, ops, configs, order[..|order| - 1]);
    }
  }

  // ---------- there are finitely many ----------

  /** The configurations reached in exactly k steps. */
  ghost function Level<S, I, O>(model: Model<S, I, O>, ops: seq<Operation<I, O>>, k: nat): set<Config<S>> {
    if k == 0 then {Root(model)}
    else set c, id | c in Level(model, ops, k - 1) && id in Upto(|ops|) && Next(model, ops, c, id).Some? :: Next(model, ops, c, id).value
  }

  ghost function Universe<S, I, O>(model: Model<S, I, O>, ops: seq<Operation<I, O>>, k: nat): set<Config<S>> {
    Level(model, ops, k) + if k == 0 then {} else Universe(model, ops, k - 1)
  }

  lemma RootInLevel<S, I, O>(model: Model<S, I, O>, ops: seq<Operation<I, O>>)
    ensures Root(model) in Level(model, ops, 0)
  {
  }

  lemma NextInLevel<S, I, O>(model: Model<S, I, O>, ops: seq<Operation<I, O>>, k: nat, c: Config<S>, id: nat)
    requires c in Level(model, ops, k) && Next(model, ops, c, id).Some?
    ensures Next(model, ops, c, id).value in Level(model, ops, k + 1)
  {
    assert id in Upto(|ops|);
    hide Upto, Next;
  }

  lemma {:induction false} ReachedInLevel<S, I, O>(model: Model<S, I, O>, ops: seq<Operation<I, O>>, order: seq<nat>)
    requires IsPartial(model, ops, order)
    ensures Reached(model, ops, order) in Level(model, ops, |order|)
    decreases |order|
  {
    hide Level, Next, IsPartial;
    if order == [] {
      RootInLevel(model, ops);
      assert Ids(order) == {};
    } else {
      PartialPrefix(model, ops, order);
      ReachedInLevel(model, ops, order[..|order| - 1]);
      NextInLevel(model, ops, |order| - 1, Reached(model, ops, order[..|order| - 1]), order[|order| - 1]);
    }
  }

  lemma {:induction false} LevelInUniverse<S, I, O>(model: Model<S, I, O>, ops: seq<Operation<I, O>>, j: nat, k: nat)
    requires j <= k
    ensures Level(model, ops, j) <= Universe(model, ops, k)
  {
    hide Level;
    if j < k {
      LevelInUniverse(model, ops, j, k - 1);
    }
  }

  /** Every configuration that a search can meet is one of finitely many. */
  lemma ReachedInUniverse<S, I, O>(model: Model<S, I, O>, ops: seq<Operation<I, O>>, order: seq<nat>)
    requires IsPartial(model, ops, order)
    ensures Reached(model, ops, order) in Universe(model, ops, |ops|)
  {
    PartialIsDistinct(model, ops, order);
    OrderFits(order, |ops|);
    ReachedInLevel(model, ops, order);
    LevelInUniverse(model, ops, |order|, |ops|);
  }
}

/**
 * CheckOperations for the key/value model (src/porcupine/porcupine.go, src/porcupine/checker.go:274-373):
 * partition, entries in the order of time, one search for each partition, and the conjunction of the answers.
 */
module Porcupine {
  import opened KvTypes
  import opened Linearizability
  import opened Timestamps
  import opened KvModel
  import Checker

  lemma SameVerdict<S, I, O>(model: Model<S, I, O>, a: seq<Operation<I, O>>, b: seq<Operation<I, O>>)
    requires SameHistory(a, b)
    ensures Linearizable(model, a) <==> Linearizable(model, b)
  {
    hide IsLinearization;
    if Linearizable(model, a) {
      var order :| IsLinearization(model, a, order);
      SamePartial(model, a, b, order);
    }
    if Linearizable(model, b) {
      var order :| IsLinearization(model, b, order);
      SamePartial(model, a, b, order);
    }
  }

  lemma SameLongest<S, I, O>(model: Model<S, I, O>, a: seq<Operation<I, O>>, b: seq<Operation<I, O>>, i: nat, best: Option<seq<nat>>)
    requires SameHistory(a, b) && Checker.LongestWith(model, b, i, best)
    ensures Checker.LongestWith(model, a, i, best)
  {
    hide IsPartial;
    if best.Some? {
      SamePartial(model, a, b, best.value);
    }
    forall order | IsPartial(model, a, order) && i in order ensures best.Some? && |order| <= |best.value| {
      SamePartial(model, a, b, order);
    }
  }

  /** One partition, with its timestamps: the verdict, and the longest partial linearizations if asked for. */
  method CheckPartition<S(==,!new), I, O>(model: Model<S, I, O>, history: seq<Operation<I, O>>, computeInfo: bool)
    returns (ok: bool, partials: seq<Option<seq<nat>>>)
    requires Proper(history)
    ensures ok <==> Linearizable(model, history)
    ensures ok ==> |partials| == |history| && forall i :: 0 <= i < |history| ==>
              partials[i].Some? && IsLinearization(model, history, partials[i].value)
    ensures ok || computeInfo ==>
              |partials| == |history| && forall i :: 0 <= i < |history| ==> Checker.LongestWith(model, history, i, partials[i])
  {
    hide Linearizable, Checker.LongestWith, IsLinearization;
    var entries;
    ghost var placed;
    entries, placed := MakeEntries(history);
    ok, partials := Checker.CheckSingle(model, entries, computeInfo, placed);
    SameVerdict(model, history, placed);
    if ok {
      forall i: nat | i < |history| ensures IsLinearization(model, history, partials[i].value) {
        SamePartial(model, history, placed, partials[i].value);
      }
    }
    if ok || computeInfo {
      forall i: nat | i < |history| ensures Checker.LongestWith(model, history, i, partials[i]) {
        SameLongest(model, history, placed, i, partials[i]);
      }
    }
  }

  // ---------- partitions ----------

  /** The parts of a history by key, in some order of the keys. */
  method Partition(history: seq<KvOperation>) returns (keys: seq<string>, partitions: seq<seq<KvOperation>>)
    ensures |keys| == |partitions| && forall k :: 0 <= k < |keys| ==> partitions[k] == Part(history, keys[k]) != []
    ensures forall key :: Part(history, key) != [] ==> key in keys
  {
    var m: map<string, seq<KvOperation>> := map[];
    for i := 0 to |history|
      invariant forall key :: key in m <==> Part(history[..i], key) != []
      invariant forall key :: key in m ==> m[key] == Part(history[..i], key)
    {
      var key := history[i].input.key;
      assert history[..i + 1][..i] == history[..i];
      m := m[key := (if key in m then m[key] else []) + [history[i]]];
    }
    assert history[..|history|] == history;
    keys, partitions := [], [];
    var left := m.Keys;
    while left != {}
      invariant |keys| == |partitions| && left <= m.Keys
      invariant forall k :: 0 <= k < |keys| ==> partitions[k] == Part(history, keys[k]) != []
      invariant forall key :: key in m ==> key in left || key in keys
      decreases |left|
    {
      var key :| key in left;
      left := left - {key};
      keys, partitions := keys + [key], partitions + [m[key]];
    }
  }

  /** Nothing is as linearizable as can be. */
  lemma EmptyPart(history: seq<KvOperation>, key: string)
    requires Part(history, key) == []
    ensures PartLinearizable(history, key)
  {
    assert IsLinearization(KEY_MODEL, Part(history, key), []);
  }

  lemma {:induction false} PartProper(history: seq<KvOperation>, key: string)
    requires Proper(history)
    ensures Proper(Part(history, key))
  {
    PartByNumber(history, key);
  }

  /**
   * Whether a history of the key/value store is linearizable. On an empty history the original waits for
   * a result that never comes, so there has to be an operation.
   */
  method CheckOperations(history: seq<KvOperation>) returns (ok: bool)
    requires Proper(history) && history != []
    ensures ok <==> Linearizable(STORE_MODEL, history)
  {
    hide Linearizable, Part, Proper;
    Locality(history);
    var keys, partitions := Partition(history);
    ok := true;
    var count := 0;
    while count < |partitions|
      invariant 0 <= count <= |partitions|
      invariant ok && forall k :: 0 <= k < count ==> PartLinearizable(history, keys[k])
    {
      PartProper(history, keys[count]);
      var result, _ := CheckPartition(KEY_MODEL, partitions[count], false);
      count := count + 1;
      ok := ok && result;
      if !ok {
        assert !PartLinearizable(history, keys[count - 1]);
        return;
      }
    }
    forall key ensures PartLinearizable(history, key) {
      if Part(history, key) == [] {
        EmptyPart(history, key);
      }
    }
  }
}

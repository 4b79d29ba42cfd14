/**
 * The answers of the apply loop against the store that histories are checked against (src/kvraft/server.go:172-235,
 * src/models/kv.go:38-56): commands applied one after the other, each between its call and its return, are answered
 * as a linearizable history of one store. That a client is sent the answer to its own command is not part of this.
 */
module ServiceHistory {
  import opened KvTypes
  import opened Linearizability
  import opened KvModel
  import KvServer

  function InputOf(op: Op): KvInput {
    KvInput(match op.opType case OpGet => 0 case OpPut => 1 case OpAppend => 2, op.key, op.value)
  }

  /** The answer that the apply loop gives to entry i. */
  function AnswerAt(ops: seq<Op>, i: nat): OpReply
    requires i < |ops|
  {
    KvServer.Answer(KvServer.Replay(KvServer.EMPTY, ops[..i]), ops[i])
  }

  /** The commands with the apply loop's answers: entry i called at calls[i] and answered at rets[i]. */
  function HistoryOf(ops: seq<Op>, calls: seq<int>, rets: seq<int>): seq<KvOperation>
    requires |calls| == |rets| == |ops|
  {
    seq(|ops|, i requires 0 <= i < |ops| => Operation(InputOf(ops[i]), KvOutput(AnswerAt(ops, i).value), calls[i], rets[i]))
  }

  /** Entries are applied one after the other, each while its client was waiting. */
  ghost predicate AppliedInTime(calls: seq<int>, rets: seq<int>, applied: seq<int>) {
    && |calls| == |rets| == |applied|
    && (forall i :: 0 <= i < |applied| ==> calls[i] <= applied[i] <= rets[i])
    && (forall i, j :: 0 <= i < j < |applied| ==> applied[i] <= applied[j])
  }

  /** No retries: every write takes effect. */
  ghost predicate EachOnce(ops: seq<Op>) {
    forall i: nat :: i < |ops| && KvServer.IsWrite(ops[i]) ==> KvServer.Takes(ops, i)
  }

  function LogOrder(n: nat): (order: seq<nat>)
    ensures |order| == n && forall k :: 0 <= k < n ==> order[k] == k
  {
    seq(n, k => k)
  }

  /** One entry: the store model accepts the answer and makes the same step. */
  lemma SameStep(s: KvServer.KvState, op: Op)
    requires KvServer.IsWrite(op) ==> !KvServer.Duplicated(s.table, op.clientId, op.seqId)
    ensures StoreStep(s.store, InputOf(op), KvOutput(KvServer.Answer(s, op).value)) == (true, KvServer.Apply(s, op).store)
  {
  }

  lemma FreshAt(ops: seq<Op>, k: nat)
    requires EachOnce(ops) && k < |ops| && KvServer.IsWrite(ops[k])
    ensures !KvServer.Duplicated(KvServer.Replay(KvServer.EMPTY, ops[..k]).table, ops[k].clientId, ops[k].seqId)
  {
    KvServer.ExactlyOnce(ops[..k]);
    KvServer.TakesIffFresh(KvServer.Replay(KvServer.EMPTY, ops[..k]).table, ops[..k], ops[k]);
    var upto := ops[..k] + [ops[k]];
    assert KvServer.Takes(ops, k);
    assert forall j :: 0 <= j <= k ==> upto[j] == ops[j];
  }

  lemma {:induction false} LogIsAccepted(ops: seq<Op>, history: seq<KvOperation>, calls: seq<int>, rets: seq<int>, k: nat)
    requires EachOnce(ops) && k <= |ops| && |calls| == |rets| == |ops| && history == HistoryOf(ops, calls, rets)
    ensures Exec(STORE_MODEL, history, LogOrder(k)) == Some(KvServer.Replay(KvServer.EMPTY, ops[..k]).store)
  {
    if k > 0 {
      LogIsAccepted(ops, history, calls, rets, k - 1);
      hide Exec, StoreStep, KvServer.Apply, KvServer.Answer, EachOnce, KvServer.Duplicated, KvServer.Replay;
      if KvServer.IsWrite(ops[k - 1]) {
        FreshAt(ops, k - 1);
      }
      SameStep(KvServer.Replay(KvServer.EMPTY, ops[..k - 1]), ops[k - 1]);
      StoreExecLast(history, LogOrder(k - 1), k - 1);
      OrderNext(k - 1);
      ReplayNext(ops, k - 1);
      hide LogOrder, HistoryOf;
    }
  }

  lemma OrderNext(k: nat)
    ensures LogOrder(k + 1) == LogOrder(k) + [k]
  {
  }

  lemma ReplayNext(ops: seq<Op>, k: nat)
    requires k < |ops|
    ensures KvServer.Replay(KvServer.EMPTY, ops[..k + 1]) == KvServer.Apply(KvServer.Replay(KvServer.EMPTY, ops[..k]), ops[k])
  {
    hide KvServer.Apply;
    assert ops[..k + 1][..k] == ops[..k];
  }

  /** The apply loop's answers are linearizable: the log itself is the order. */
  lemma ServiceIsLinearizable(ops: seq<Op>, calls: seq<int>, rets: seq<int>, applied: seq<int>)
    requires EachOnce(ops) && |ops| == |applied| && AppliedInTime(calls, rets, applied)
    ensures Linearizable(STORE_MODEL, HistoryOf(ops, calls, rets))
  {
    var history := HistoryOf(ops, calls, rets);
    var order := LogOrder(|ops|);
    LogIsAccepted(ops, history, calls, rets, |ops|);
    forall x, y | 0 <= x < y < |order| ensures !(history[order[y]].ret < history[order[x]].call) {
      assert applied[x] <= applied[y];
    }
    hide Exec;
    assert IsLinearization(STORE_MODEL, history, order);
  }

  // ---------- with retries ----------

  lemma {:induction false} StrippedIsPart(ops: seq<Op>, x: Op)
    requires x in KvServer.Stripped(ops)
    ensures x in ops
  {
    if ops != [] {
      var last := |ops| - 1;
      if x in KvServer.Stripped(ops[..last]) {
        StrippedIsPart(ops[..last], x);
      }
    }
  }

  lemma TakesStays(ops: seq<Op>, op: Op, i: nat)
    requires i < |ops|
    ensures KvServer.Takes(ops + [op], i) <==> KvServer.Takes(ops, i)
  {
    assert forall j :: 0 <= j < |ops| ==> (ops + [op])[j] == ops[j];
  }

  /** A request that shows up for the first time takes effect in the log without retries. */
  lemma FirstTakes(before: seq<Op>, op: Op)
    requires KvServer.FirstsInOrder(before + [op]) && !KvServer.Repeats(before + [op], |before|) && KvServer.IsWrite(op)
    ensures KvServer.Takes(KvServer.Stripped(before) + [op], |KvServer.Stripped(before)|)
  {
    var ops, kept := before + [op], KvServer.Stripped(before);
    forall j | 0 <= j < |kept| && KvServer.IsWrite(kept[j]) && kept[j].clientId == op.clientId ensures kept[j].seqId < op.seqId {
      StrippedIsPart(before, kept[j]);
      var i :| 0 <= i < |before| && before[i] == kept[j];
      assert ops[i] == before[i] && ops[|before|] == op;
    }
  }

  lemma {:induction false} StrippedEachOnce(ops: seq<Op>)
    requires KvServer.FirstsInOrder(ops)
    ensures EachOnce(KvServer.Stripped(ops))
  {
    if ops != [] {
      var before, op := ops[..|ops| - 1], ops[|ops| - 1];
      assert ops == before + [op];
      KvServer.FirstsBefore(before, op);
      StrippedEachOnce(before);
      var kept := KvServer.Stripped(before);
      if !KvServer.Repeats(ops, |before|) {
        hide KvServer.Takes, KvServer.Repeats, KvServer.FirstsInOrder;
        assert KvServer.Stripped(ops) == kept + [op];
        forall i: nat | i < |kept + [op]| && KvServer.IsWrite((kept + [op])[i]) ensures KvServer.Takes(kept + [op], i) {
          if i < |kept| {
            TakesStays(kept, op, i);
          } else {
            FirstTakes(before, op);
          }
        }
      }
    }
  }

  /** Where the first entry of a request is in the log without retries. */
  lemma {:induction false} StrippedGrows(ops: seq<Op>, i: nat)
    requires i <= |ops|
    ensures KvServer.Stripped(ops[..i]) <= KvServer.Stripped(ops)
  {
    if i == |ops| {
      assert ops[..i] == ops;
    } else {
      var last := |ops| - 1;
      StrippedGrows(ops[..last], i);
      assert ops[..last][..i] == ops[..i];
    }
  }

  /** The log without retries gives every request the answer that its first entry got. */
  lemma FirstAnswer(ops: seq<Op>, i: nat)
    requires i < |ops| && !KvServer.Repeats(ops, i)
    ensures var kept, k := KvServer.Stripped(ops), |KvServer.Stripped(ops[..i])|;
            k < |kept| && kept[k] == ops[i] && AnswerAt(kept, k) == AnswerAt(ops, i)
  {
    var kept, low := KvServer.Stripped(ops), KvServer.Stripped(ops[..i]);
    assert ops[..i + 1][..i] == ops[..i];
    assert KvServer.Repeats(ops[..i + 1], i) ==> KvServer.Repeats(ops, i);
    assert KvServer.Stripped(ops[..i + 1]) == low + [ops[i]];
    StrippedGrows(ops, i + 1);
    assert kept[|low|] == (low + [ops[i]])[|low|];
    assert kept[..|low|] == low;
    KvServer.RetriesChangeNothing(ops[..i]);
  }

  /** With retries: the requests, each with the answer of its first entry, form a linearizable history. */
  lemma RetriedServiceIsLinearizable(ops: seq<Op>, calls: seq<int>, rets: seq<int>, applied: seq<int>)
    requires KvServer.FirstsInOrder(ops) && |KvServer.Stripped(ops)| == |applied| && AppliedInTime(calls, rets, applied)
    ensures Linearizable(STORE_MODEL, HistoryOf(KvServer.Stripped(ops), calls, rets))
  {
    StrippedEachOnce(ops);
    ServiceIsLinearizable(KvServer.Stripped(ops), calls, rets, applied);
  }
}

/**
 * The key/value service on top of Raft (src/kvraft/server.go, src/kvraft/state_machine.go): the state that the
 * apply loop keeps is a fold over the commands applied, with the duplicate table to tell retries.
 */
module KvServer {
  import opened KvTypes

  // ---------- the fold ----------

  /** The service's state: what a snapshot holds. */
  type KvState = KvSnapshot

  const EMPTY: KvState := KvSnapshot(map[], map[])

  predicate IsWrite(op: Op) {
    op.opType != OpGet
  }

  predicate Duplicated(table: DuplicateTable, clientId: int, seqId: int) {
    clientId in table && seqId <= table[clientId].seqId
  }

  /** The store after an operation. */
  function Effect(store: Store, op: Op): Store {
    match op.opType
    case OpGet => store
    case OpPut => store[op.key := op.value]
    case OpAppend => store[op.key := Lookup(store, op.key) + op.value]
  }

  function ReplyTo(store: Store, op: Op): OpReply {
    if IsWrite(op) then OpReply("", OK)
    else if op.key in store then OpReply(store[op.key], OK)
    else OpReply("", ErrNoKey)
  }

  /** What the apply loop makes of a command. */
  function Apply(s: KvState, op: Op): KvState {
    if !IsWrite(op) then s
    else if Duplicated(s.table, op.clientId, op.seqId) then s
    else KvSnapshot(Effect(s.store, op), s.table[op.clientId := LastOperationInfo(op.seqId, ReplyTo(s.store, op))])
  }

  function Answer(s: KvState, op: Op): OpReply {
    if IsWrite(op) && Duplicated(s.table, op.clientId, op.seqId) then s.table[op.clientId].reply else ReplyTo(s.store, op)
  }

  function Replay(s: KvState, ops: seq<Op>): KvState {
    if ops == [] then s else Apply(Replay(s, ops[..|ops| - 1]), ops[|ops| - 1])
  }

  lemma {:induction false} ReplayConcat(s: KvState, a: seq<Op>, b: seq<Op>)
    ensures Replay(s, a + b) == Replay(Replay(s, a), b)
  {
    if b == [] {
      assert a + b == a;
    } else {
      var last := |b| - 1;
      ReplayConcat(s, a, b[..last]);
      assert (a + b)[..|a + b| - 1] == a + b[..last];
    }
  }

  // ---------- exactly once ----------

  /** Without the table: entry i of a log is a write, and no earlier write of its client had as high a number. */
  predicate Takes(ops: seq<Op>, i: nat)
    requires i < |ops|
  {
    && IsWrite(ops[i])
    && forall j :: 0 <= j < i && IsWrite(ops[j]) && ops[j].clientId == ops[i].clientId ==> ops[j].seqId < ops[i].seqId
  }

  /** The writes that take effect, in order. */
  function Taken(ops: seq<Op>): seq<Op> {
    if ops == [] then []
    else
      var last := |ops| - 1;
      Taken(ops[..last]) + if Takes(ops, last) then [ops[last]] else []
  }

  /** Running operations one after the other with no table at all. */
  function RunAll(store: Store, ops: seq<Op>): Store {
    if ops == [] then store else Effect(RunAll(store, ops[..|ops| - 1]), ops[|ops| - 1])
  }

  /** The table holds the highest number of each client that has written. */
  ghost predicate TableOk(table: DuplicateTable, ops: seq<Op>) {
    && (forall c :: c in table ==> exists j :: 0 <= j < |ops| && IsWrite(ops[j]) && ops[j].clientId == c && ops[j].seqId == table[c].seqId)
    && (forall j :: 0 <= j < |ops| && IsWrite(ops[j]) ==>
          ops[j].clientId in table && ops[j].seqId <= table[ops[j].clientId].seqId)
    && (forall c :: c in table ==> table[c].reply == OpReply("", OK))
  }

  lemma TakesIffFresh(table: DuplicateTable, ops: seq<Op>, op: Op)
    requires TableOk(table, ops) && IsWrite(op)
    ensures Takes(ops + [op], |ops|) <==> !Duplicated(table, op.clientId, op.seqId)
  {
    var longer := ops + [op];
    assert longer[|ops|] == op;
    assert forall j :: 0 <= j < |ops| ==> longer[j] == ops[j];
  }

  lemma TableNext(s: KvState, ops: seq<Op>, op: Op)
    requires TableOk(s.table, ops)
    ensures TableOk(Apply(s, op).table, ops + [op])
  {
    var longer, table' := ops + [op], Apply(s, op).table;
    assert longer[|ops|] == op;
    assert forall j :: 0 <= j < |ops| ==> longer[j] == ops[j];
    forall c | c in table'
      ensures exists j :: 0 <= j < |longer| && IsWrite(longer[j]) && longer[j].clientId == c && longer[j].seqId == table'[c].seqId
    {
      if c in s.table && table'[c] == s.table[c] {
        var j :| 0 <= j < |ops| && IsWrite(ops[j]) && ops[j].clientId == c && ops[j].seqId == s.table[c].seqId;
        assert longer[j] == ops[j];
      } else {
        assert longer[|ops|].seqId == table'[c].seqId;
      }
    }
  }

  lemma RunLast(store: Store, ops: seq<Op>, op: Op)
    ensures RunAll(store, ops + [op]) == Effect(RunAll(store, ops), op)
  {
    assert (ops + [op])[..|ops|] == ops;
  }

  /**
   * Exactly once: over any log, the store is what running the writes that take effect gives, each once and
   * without any table, where a write takes effect exactly when its number exceeds every earlier one of its client.
   */
  lemma {:induction false} ExactlyOnce(ops: seq<Op>)
    ensures Replay(EMPTY, ops).store == RunAll(map[], Taken(ops))
    ensures TableOk(Replay(EMPTY, ops).table, ops)
  {
    if ops != [] {
      var before, op := ops[..|ops| - 1], ops[|ops| - 1];
      assert ops == before + [op];
      ExactlyOnce(before);
      var s := Replay(EMPTY, before);
      TableNext(s, before, op);
      hide TableOk, Duplicated;
      if IsWrite(op) {
        TakesIffFresh(s.table, before, op);
      }
      if Takes(ops, |before|) {
        RunLast(map[], Taken(before), op);
      } else {
        assert Taken(ops) == Taken(before);
      }
    }
  }

  /** Whatever it answers from, the service answers as if it executed the operation now. */
  lemma AnswersAreFresh(ops: seq<Op>, op: Op)
    ensures Answer(Replay(EMPTY, ops), op) == ReplyTo(Replay(EMPTY, ops).store, op)
  {
    ExactlyOnce(ops);
  }

  // ---------- retries ----------

  /** Entry i repeats an earlier write: the same client and number. */
  predicate Repeats(ops: seq<Op>, i: nat)
    requires i < |ops|
  {
    && IsWrite(ops[i])
    && exists j :: 0 <= j < i && IsWrite(ops[j]) && ops[j].clientId == ops[i].clientId && ops[j].seqId == ops[i].seqId
  }

  /** The log without its retries. */
  function Stripped(ops: seq<Op>): seq<Op> {
    if ops == [] then []
    else
      var last := |ops| - 1;
      Stripped(ops[..last]) + if Repeats(ops, last) then [] else [ops[last]]
  }

  /** Retries, however many and wherever, leave no trace in the store or in the table. */
  lemma {:induction false} RetriesChangeNothing(ops: seq<Op>)
    ensures Replay(EMPTY, ops) == Replay(EMPTY, Stripped(ops))
  {
    if ops != [] {
      var before, op := ops[..|ops| - 1], ops[|ops| - 1];
      assert ops == before + [op];
      RetriesChangeNothing(before);
      var s := Replay(EMPTY, before);
      if Repeats(ops, |before|) {
        ExactlyOnce(before);
        var j :| 0 <= j < |before| && IsWrite(ops[j]) && ops[j].clientId == op.clientId && ops[j].seqId == op.seqId;
        assert before[j] == ops[j];
        assert Stripped(ops) == Stripped(before);
      } else {
        ReplayConcat(EMPTY, Stripped(before), [op]);
        assert Replay(s, [op]) == Apply(s, op);
      }
    }
  }

  /** Each client's requests first show up in the order of their numbers: a clerk sends the next one only after an answer. */
  predicate FirstsInOrder(ops: seq<Op>) {
    forall i, j :: 0 <= j < i < |ops| && IsWrite(ops[j]) && IsWrite(ops[i]) && ops[j].clientId == ops[i].clientId && !Repeats(ops, i) ==>
      ops[j].seqId < ops[i].seqId
  }

  function Writes(ops: seq<Op>): seq<Op> {
    if ops == [] then []
    else Writes(ops[..|ops| - 1]) + if IsWrite(ops[|ops| - 1]) then [ops[|ops| - 1]] else []
  }

  lemma FirstsBefore(before: seq<Op>, op: Op)
    requires FirstsInOrder(before + [op])
    ensures FirstsInOrder(before)
  {
    var ops := before + [op];
    forall i, j | 0 <= j < i < |before| && IsWrite(before[j]) && IsWrite(before[i]) && before[j].clientId == before[i].clientId && !Repeats(before, i)
      ensures before[j].seqId < before[i].seqId
    {
      assert forall k :: 0 <= k < |before| ==> ops[k] == before[k];
      assert !Repeats(ops, i);
    }
  }

  lemma WritesLast(ops: seq<Op>, op: Op)
    ensures Writes(ops + [op]) == Writes(ops) + if IsWrite(op) then [op] else []
  {
    assert (ops + [op])[..|ops|] == ops;
  }

  lemma TakesIffFirst(ops: seq<Op>, i: nat)
    requires FirstsInOrder(ops) && i < |ops|
    ensures Takes(ops, i) <==> IsWrite(ops[i]) && !Repeats(ops, i)
    ensures Repeats(ops, i) ==> IsWrite(ops[i])
  {
  }

  lemma {:induction false} TakenAreFirsts(ops: seq<Op>)
    requires FirstsInOrder(ops)
    ensures Taken(ops) == Writes(Stripped(ops))
  {
    if ops == [] {
      assert Stripped(ops) == [];
    } else {
      var before, op := ops[..|ops| - 1], ops[|ops| - 1];
      assert ops == before + [op];
      hide Takes, Repeats, FirstsInOrder, Writes, Taken, Stripped;
      FirstsBefore(before, op);
      TakenAreFirsts(before);
      WritesLast(Stripped(before), op);
      TakesIffFirst(ops, |before|);
      TakenLast(before, op);
      StrippedLast(before, op);
    }
  }

  lemma TakenLast(before: seq<Op>, op: Op)
    ensures Taken(before + [op]) == if Takes(before + [op], |before|) then Taken(before) + [op] else Taken(before)
  {
    hide Takes;
    assert (before + [op])[..|before|] == before;
  }

  lemma StrippedLast(before: seq<Op>, op: Op)
    ensures Stripped(before + [op]) == if Repeats(before + [op], |before|) then Stripped(before) else Stripped(before) + [op]
  {
    hide Repeats;
    assert (before + [op])[..|before|] == before;
  }

  /** With clerks that wait for their answers, the store is what running every request once gives. */
  lemma EachRequestOnce(ops: seq<Op>)
    requires FirstsInOrder(ops)
    ensures Replay(EMPTY, ops).store == RunAll(map[], Writes(Stripped(ops)))
  {
    ExactlyOnce(ops);
    TakenAreFirsts(ops);
  }

  // ---------- the objects ----------

  class KVStateMachine {
    var kv: Store

    constructor ()
      ensures kv == map[]
    {
      kv := map[];
    }

    method Get(key: string) returns (value: string, err: Err)
      ensures OpReply(value, err) == if key in kv then OpReply(kv[key], OK) else OpReply("", ErrNoKey)
    {
      if key in kv {
        return kv[key], OK;
      }
      return "", ErrNoKey;
    }

    method Put(key: string, value: string) returns (err: Err)
      modifies this
      ensures kv == old(kv)[key := value] && err == OK
    {
      kv := kv[key := value];
      return OK;
    }

    method Append(key: string, value: string) returns (err: Err)
      modifies this
      ensures kv == old(kv)[key := Lookup(old(kv), key) + value] && err == OK
    {
      kv := kv[key := (if key in kv then kv[key] else "") + value];
      return OK;
    }
  }

  class KVServer {
    var lastApplied: nat
    var stateMachine: KVStateMachine
    var duplicateTable: DuplicateTable

    ghost function State(): KvState
      reads this, stateMachine
    {
      KvSnapshot(stateMachine.kv, duplicateTable)
    }

    /** StartKVServer: an empty service, or the one that the snapshot holds. */
    constructor (snapshot: Option<KvSnapshot>)
      ensures lastApplied == 0 && fresh(stateMachine)
      ensures State() == if snapshot.Some? then snapshot.value else EMPTY
    {
      lastApplied := 0;
      duplicateTable := map[];
      stateMachine := new KVStateMachine();
      new;
      RestoreFromSnapshot(snapshot);
    }

    method RequestDuplicated(clientId: int, seqId: int) returns (r: bool)
      ensures r <==> Duplicated(duplicateTable, clientId, seqId)
    {
      r := clientId in duplicateTable && seqId <= duplicateTable[clientId].seqId;
    }

    method ApplyToStateMachine(op: Op) returns (reply: OpReply)
      modifies stateMachine
      ensures stateMachine.kv == Effect(old(stateMachine.kv), op)
      ensures reply == ReplyTo(old(stateMachine.kv), op)
    {
      var value, err := "", OK;
      match op.opType {
        case OpGet => value, err := stateMachine.Get(op.key);
        case OpPut => err := stateMachine.Put(op.key, op.value);
        case OpAppend => err := stateMachine.Append(op.key, op.value);
      }
      reply := OpReply(value, err);
    }

    /** A command from the apply channel; no reply for one that was handled before. */
    method HandleCommand(index: nat, op: Op) returns (reply: Option<OpReply>)
      modifies this, stateMachine
      ensures stateMachine == old(stateMachine)
      ensures if index <= old(lastApplied) then lastApplied == old(lastApplied) && State() == old(State()) && reply == None
              else lastApplied == index && State() == Apply(old(State()), op) && reply == Some(Answer(old(State()), op))
    {
      if index <= lastApplied {
        return None;
      }
      lastApplied := index;
      var duplicated := RequestDuplicated(op.clientId, op.seqId);
      if op.opType != OpGet && duplicated {
        return Some(duplicateTable[op.clientId].reply);
      }
      var opReply := ApplyToStateMachine(op);
      if op.opType != OpGet {
        duplicateTable := duplicateTable[op.clientId := LastOperationInfo(op.seqId, opReply)];
      }
      return Some(opReply);
    }

    method MakeSnapshot() returns (snapshot: KvSnapshot)
      ensures snapshot == State()
    {
      snapshot := KvSnapshot(stateMachine.kv, duplicateTable);
    }

    method RestoreFromSnapshot(snapshot: Option<KvSnapshot>)
      modifies this
      ensures snapshot == None ==> State() == old(State()) && stateMachine == old(stateMachine)
      ensures snapshot.Some? ==> State() == snapshot.value && fresh(stateMachine)
      ensures lastApplied == old(lastApplied)
    {
      if snapshot.None? {
        return;
      }
      var restored := new KVStateMachine();
      restored.kv := snapshot.value.store;
      stateMachine := restored;
      duplicateTable := snapshot.value.table;
    }

    /** A snapshot from the apply channel. */
    method HandleSnapshot(snapshot: Option<KvSnapshot>, index: nat)
      modifies this
      ensures lastApplied == index
      ensures State() == if snapshot.Some? then snapshot.value else old(State())
    {
      RestoreFromSnapshot(snapshot);
      lastApplied := index;
    }
  }
}

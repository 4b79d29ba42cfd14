/** The replicated log with its compaction offset (src/raft/log.go). */
module RaftLog {
  import opened KvTypes

  const INVALID_TERM: nat := 0
  const INVALID_INDEX: nat := 0

  datatype LogRecord = LogRecord(term: nat, commandValid: bool, command: Option<Op>)

  /** The entry every log starts with, so that index 0 always exists. */
  const DUMMY := LogRecord(INVALID_TERM, false, None)

  datatype Log = Log(records: seq<LogRecord>, base: nat) {

    function Size(): int {
      base + |records|
    }

    /** `records[0]` stands for the entry at `base`, so indices below `base` are gone. */
    function Get(i: int): LogRecord
      requires base <= i < Size()
    {
      records[i - base]
    }

    function LastLogTerm(): nat
      requires |records| > 0
    {
      records[|records| - 1].term
    }

    function Append(lr: LogRecord): Log {
      this.(records := records + [lr])
    }

    /** The offset in `records` of the first entry of `term`, or INVALID_INDEX. */
    function FirstLogFor(term: nat): nat {
      ScanFor(records, term, 0)
    }
  }

  /** What the scan of firstLogFor returns when it has already passed `from` records. */
  function ScanFor(records: seq<LogRecord>, term: nat, from: nat): nat
    decreases |records| - from
  {
    if from >= |records| || records[from].term > term then INVALID_INDEX
    else if records[from].term == term then from
    else ScanFor(records, term, from + 1)
  }

  ghost predicate TermsAscend(records: seq<LogRecord>) {
    forall i, j :: 0 <= i <= j < |records| ==> records[i].term <= records[j].term
  }

  /** The place of the first entry of `term`. */
  ghost predicate IsFirstOf(records: seq<LogRecord>, term: nat, place: int) {
    0 <= place < |records| && records[place].term == term && forall i :: 0 <= i < place ==> records[i].term < term
  }

  /**
   * On a log whose terms ascend the scan is exact: it finds the first entry of a term that occurs,
   * and answers INVALID_INDEX for a term that does not.
   */
  lemma {:induction false} ScanForIsExact(records: seq<LogRecord>, term: nat, from: nat)
    requires TermsAscend(records)
    requires forall i :: 0 <= i < from && i < |records| ==> records[i].term < term
    ensures var r := ScanFor(records, term, from);
            if exists i :: 0 <= i < |records| && records[i].term == term
            then IsFirstOf(records, term, r)
            else r == INVALID_INDEX
    decreases |records| - from
  {
    if from < |records| && records[from].term < term {
      ScanForIsExact(records, term, from + 1);
    }
  }
}

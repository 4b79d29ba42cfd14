/** The values that pass between the key/value service and Raft (src/kvraft/common.go). */
module KvTypes {

  datatype Option<+T> = None | Some(value: T)

  datatype OpType = OpGet | OpPut | OpAppend

  datatype Op = Op(key: string, value: string, opType: OpType, clientId: int, seqId: int)

  datatype Err = OK | ErrNoKey

  datatype OpReply = OpReply(value: string, err: Err)

  datatype LastOperationInfo = LastOperationInfo(seqId: int, reply: OpReply)

  type Store = map<string, string>

  type DuplicateTable = map<int, LastOperationInfo>

  /** A snapshot's bytes, taken as the pair they encode: the encoding is a lossless round trip. */
  datatype KvSnapshot = KvSnapshot(store: Store, table: DuplicateTable)

  /** The value of a key, an absent one counting as empty. */
  function Lookup(store: Store, key: string): string {
    if key in store then store[key] else ""
  }
}

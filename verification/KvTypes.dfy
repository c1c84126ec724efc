/** What travels through the Raft log and in snapshots, as typed values: the serialised forms are
    injective encodings of these. */
module KvTypes {

  /** A client's request. Operation is "Get", "Put" or "Append". */
  datatype Op = Op(operation: string, key: string, value: string, clientId: string, requestId: int)

  /** The fields that a key-value snapshot carries: the dump and the last snapshot index, but not the
      table of the clients' last requests. */
  datatype Image = NoImage | Image(keys: seq<string>, vals: seq<string>, lastIndex: int)
}

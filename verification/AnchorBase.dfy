/** The unit of anchoring work, its identity, and what a backend may answer. */
module AnchorBase {
  import opened Collections

  const STATUS_ACTIVE := "Active"
  const STATUS_SUPERSEDED := "Superseded"

  /** Identity for idempotency: status belongs to it for updates only. */
  datatype Key =
    | UpdateKey(registry: string, recordId: int, status: string)
    | AddKey(registry: string, checksum: string)

  /** The two metadata fields that anything downstream reads. */
  datatype Metadata = Metadata(signalId: string, kind: Option<string>)

  datatype Entry = Entry(
    id: nat,
    op: string,
    registry: string,
    registryId: int,
    agent: string,
    uri: string,
    checksum: string,
    metadata: Metadata,
    status: string,
    recordId: int,
    index: int,
    createdAt: string,
    attempts: nat,
    nextAttemptAt: real,
    lastError: string)
  {
    function DedupeKey(): Key {
      if op == "update_status" then UpdateKey(registry, recordId, status)
      else AddKey(registry, checksum)
    }

    /** The entry without the three fields that retrying changes. */
    function Core(): Entry {
      this.(attempts := 0, nextAttemptAt := 0.0, lastError := "")
    }
  }

  /** Updates are told apart by registry, record and status, everything else by registry and checksum. */
  lemma SameUnitIff(x: Entry, y: Entry)
    ensures x.DedupeKey() == y.DedupeKey() <==>
              || (x.op == y.op == "update_status"
                  && x.registry == y.registry && x.recordId == y.recordId && x.status == y.status)
              || (x.op != "update_status" && y.op != "update_status"
                  && x.registry == y.registry && x.checksum == y.checksum)
  {
  }

  datatype AnchorResult = AnchorResult(transaction: string, recordId: int, index: int)

  /** A submission returns, fails transiently, or raises anything else. */
  datatype Reply = Accepted(result: AnchorResult) | Unavailable(error: string) | Refused(error: string)

  /** The chain, arbitrary: its answer to the i-th entry that a drain looks at. */
  type Backend = (nat, Entry) -> Reply

  /** Only two operations are dispatched; any other is refused without reaching the chain. */
  function Submit(e: Entry, answer: Reply): (r: Reply)
    ensures e.op == "add_record" || e.op == "update_status" ==> r == answer
    ensures e.op != "add_record" && e.op != "update_status" ==> r.Refused?
  {
    if e.op == "add_record" || e.op == "update_status" then answer
    else Refused("unknown op")
  }
}

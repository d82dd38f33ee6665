// Values shared by every part of the client model: the error taxonomy of the
// client crate, the failure-compatible result type, bytes, 64-bit words and
// the ledger entities (addresses, message ids, messages, node info).

module Types {

  datatype Option<+T> = None | Some(value: T)

  /** The crate's `Result<T>`: a value or one of the client's errors. */
  datatype Result<+T> = Ok(value: T) | Err(error: Error)

  /** The client's error variants that the modelled code raises or forwards. */
  datatype Error =
    | MissingParameter(name: string)
    | InvalidParameter(name: string)
    | SyncedNodePoolEmpty
    | Pow(reason: string)
    | TransactionError
    | NoNeedPromoteOrReattach(id: MessageId)
    // `message.payload().unwrap()` on a payload-less message in `reattach`
    | MissingPayload
    // an `.unwrap()` on a failed request: the source aborts, the model
    // returns the error it unwrapped
    | Panic(cause: Error)
    // a hex string of the wrong length for a fixed-size buffer
    | HexLength(expected: nat, found: nat)
    // anything a collaborator (HTTP, JSON, hex, key derivation) reports
    | Foreign(reason: string)

  /** Rust's `u8`. */
  type Byte = b: nat | b < 256

  const U64_BOUND: nat := 0x1_0000_0000_0000_0000

  /** Rust's `u64`. */
  type U64 = x: nat | x < U64_BOUND

  /** A 32-byte message identifier. */
  type MessageId = seq<Byte>

  /** A ledger address; the only kind the client decodes is Ed25519. */
  datatype Address = Ed25519(bytes: seq<Byte>)

  /** An opaque message payload (transaction, indexation, milestone). */
  datatype Payload = Payload(bytes: seq<Byte>)

  /** The fields of a message that the client sets through the message builder. */
  datatype Message = Message(networkId: U64, parent1: MessageId, parent2: MessageId, payload: Option<Payload>)

  /** What `GET /api/v1/info` reports; `networkId` is the UTF-8 encoding of the id string. */
  datatype NodeInfo = NodeInfo(networkId: seq<Byte>)

  /** The set of elements of a sequence. */
  function Elements<T>(s: seq<T>): set<T> {
    set x | x in s
  }

  /** No element occurs twice. */
  predicate Distinct<T(==)>(s: seq<T>) {
    forall i, j :: 0 <= i < j < |s| ==> s[i] != s[j]
  }

  /** A duplicate-free sequence has as many elements as its set. */
  lemma {:induction false} DistinctCardinality<T>(s: seq<T>)
    requires Distinct(s)
    ensures |Elements(s)| == |s|
  {
    if s != [] {
      var last := s[|s| - 1];
      var init := s[..|s| - 1];
      assert Distinct(init);
      DistinctCardinality(init);
      assert Elements(s) == Elements(init) + {last};
      assert last !in Elements(init);
    }
  }
}

// The collecting queries of the client (iota-client/src/client.rs):
// `get_output` decodes one output and accepts only Ed25519 signature-locked
// outputs; `find_outputs` and `find_messages` gather explicit ids and ids
// looked up on the node into a hash set, then query each distinct id once;
// `get_address_balances` pairs every address with its balance, in order.
// The node's endpoints and the hex decoder are parameters.

module Collectors {
  import opened Types

  /** Rust's `u16`. */
  type U16 = x: nat | x < 0x1_0000

  /** `UTXOInput`: an output id, the transaction that created it and its index there. */
  datatype UtxoInput = UtxoInput(transactionId: seq<Byte>, index: U16)

  /** The address of a raw output as the node's JSON reports it. */
  datatype RawAddress = RawAddress(kind: nat, address: string)

  /** The output itself as the node reports it. */
  datatype RawOutputBody = RawOutputBody(kind: nat, address: RawAddress, amount: U64)

  /** `RawOutput`: the answer of `GET /api/v1/outputs/{outputId}`, hex fields still encoded. */
  datatype RawOutput = RawOutput(
    messageId: string,
    transactionId: string,
    outputIndex: U16,
    isSpent: bool,
    output: RawOutputBody)

  /** `OutputMetadata`: a decoded output. */
  datatype OutputMetadata = OutputMetadata(
    messageId: seq<Byte>,
    transactionId: seq<Byte>,
    outputIndex: U16,
    isSpent: bool,
    amount: U64,
    address: Address)

  /** `AddressBalancePair`. */
  datatype AddressBalancePair = AddressBalancePair(address: Address, balance: U64)

  /** Length in bytes of an Ed25519 address. */
  const ADDRESS_LENGTH: nat := 32

  /** The output kind of a signature-locked single output. */
  const SIGNATURE_LOCKED_SINGLE: nat := 0

  /** The address kind of an Ed25519 address. */
  const ED25519_KIND: nat := 1

  /**
   * The node's answers and the hex decoder: `output` for
   * `GET /api/v1/outputs/{id}`, `addressOutputs` for
   * `get_address().outputs`, `balance` for `get_address().balance`,
   * `indexed` for `get_message().index`, `message` for
   * `get_message().data`, and `hex` for `hex::decode`.
   */
  datatype LedgerApi = LedgerApi(
    output: UtxoInput -> Result<RawOutput>,
    addressOutputs: Address -> Result<seq<UtxoInput>>,
    balance: Address -> Result<U64>,
    indexed: string -> Result<seq<MessageId>>,
    message: MessageId -> Result<Message>,
    hex: string -> Result<seq<Byte>>)

  // ---------------------------------------------------------------------
  // get_output

  /**
   * `hex::decode_to_slice` into a buffer of `n` bytes: the decoded bytes
   * when the string decodes to exactly `n` of them.
   */
  function DecodeFixed(hex: string -> Result<seq<Byte>>, s: string, n: nat): (r: Result<seq<Byte>>)
    ensures r.Ok? <==> hex(s).Ok? && |hex(s).value| == n
    ensures r.Ok? ==> hex(s) == Ok(r.value) && |r.value| == n
  {
    match hex(s)
    case Err(e) => Err(e)
    case Ok(bytes) => if |bytes| == n then Ok(bytes) else Err(HexLength(n, |bytes|))
  }

  /** The only kind of output `get_output` accepts: a signature-locked output to an Ed25519 address. */
  predicate IsEd25519Output(raw: RawOutput) {
    raw.output.kind == SIGNATURE_LOCKED_SINGLE && raw.output.address.kind == ED25519_KIND
  }

  /**
   * The decoding part of `Client::get_output`, in field order: the
   * message id, the transaction id, then the address, which must be
   * Ed25519 and decode to exactly 32 bytes. The first failure is returned.
   */
  function DecodeOutput(hex: string -> Result<seq<Byte>>, raw: RawOutput): (r: Result<OutputMetadata>)
    ensures r.Ok? <==>
              && hex(raw.messageId).Ok? && hex(raw.transactionId).Ok?
              && IsEd25519Output(raw)
              && hex(raw.output.address.address).Ok? && |hex(raw.output.address.address).value| == ADDRESS_LENGTH
    ensures r.Ok? ==>
              && r.value.address == Ed25519(hex(raw.output.address.address).value)
              && |r.value.address.bytes| == ADDRESS_LENGTH
              && r.value.messageId == hex(raw.messageId).value
              && r.value.transactionId == hex(raw.transactionId).value
              && (r.value.outputIndex, r.value.isSpent, r.value.amount)
                 == (raw.outputIndex, raw.isSpent, raw.output.amount)
    ensures hex(raw.messageId).Ok? && hex(raw.transactionId).Ok? && !IsEd25519Output(raw) ==>
              r == Err(InvalidParameter("address type"))
    ensures hex(raw.messageId).Err? ==> r == Err(hex(raw.messageId).error)
  {
    match hex(raw.messageId)
    case Err(e) => Err(e)
    case Ok(messageId) =>
      match hex(raw.transactionId)
      case Err(e) => Err(e)
      case Ok(transactionId) =>
        if IsEd25519Output(raw) then
          match DecodeFixed(hex, raw.output.address.address, ADDRESS_LENGTH)
          case Err(e) => Err(e)
          case Ok(address) =>
            Ok(OutputMetadata(messageId, transactionId, raw.outputIndex, raw.isSpent,
                              raw.output.amount, Ed25519(address)))
        else
          Err(InvalidParameter("address type"))
  }

  /** `Client::get_output`: fetch the raw output, then decode it. */
  function GetOutput(api: LedgerApi, input: UtxoInput): (r: Result<OutputMetadata>)
    ensures api.output(input).Err? ==> r == Err(api.output(input).error)
    ensures r.Ok? ==> api.output(input).Ok? && IsEd25519Output(api.output(input).value)
                      && |r.value.address.bytes| == ADDRESS_LENGTH
  {
    match api.output(input)
    case Err(e) => Err(e)
    case Ok(raw) => DecodeOutput(api.hex, raw)
  }

  // ---------------------------------------------------------------------
  // Gathering the ids to query

  /**
   * The ids found by the lookups, in the order they are made; the first
   * lookup that fails ends the gathering with its error.
   */
  function LookupAll<L, K>(lookups: seq<L>, lookup: L -> Result<seq<K>>): (r: Result<set<K>>)
    ensures r.Ok? ==> forall j :: 0 <= j < |lookups| ==> lookup(lookups[j]).Ok?
  {
    if lookups == [] then Ok({})
    else
      match LookupAll(lookups[..|lookups| - 1], lookup)
      case Err(e) => Err(e)
      case Ok(found) =>
        match lookup(lookups[|lookups| - 1])
        case Err(e) => Err(e)
        case Ok(ks) => Ok(found + Elements(ks))
  }

  /** The ids to query: the explicit ones together with everything the lookups found. */
  function Candidates<L, K>(explicit: seq<K>, lookups: seq<L>, lookup: L -> Result<seq<K>>): (r: Result<set<K>>)
    ensures r.Ok? ==> Elements(explicit) <= r.value
    ensures r.Ok? ==> forall j :: 0 <= j < |lookups| ==> lookup(lookups[j]).Ok?
  {
    match LookupAll(lookups, lookup)
    case Err(e) => Err(e)
    case Ok(found) => Ok(Elements(explicit) + found)
  }

  /** When every lookup succeeds, an id is found exactly when some lookup reported it. */
  lemma {:induction false} LookupAllMembers<L, K>(lookups: seq<L>, lookup: L -> Result<seq<K>>)
    requires forall j :: 0 <= j < |lookups| ==> lookup(lookups[j]).Ok?
    ensures LookupAll(lookups, lookup).Ok?
    ensures forall k :: k in LookupAll(lookups, lookup).value <==>
              exists j :: 0 <= j < |lookups| && k in lookup(lookups[j]).value
  {
    if lookups != [] {
      var init := lookups[..|lookups| - 1];
      LookupAllMembers(init, lookup);
      var last := |lookups| - 1;
      forall k
        ensures k in LookupAll(lookups, lookup).value <==>
                exists j :: 0 <= j < |lookups| && k in lookup(lookups[j]).value
      {
        if k in LookupAll(init, lookup).value {
          var j :| 0 <= j < |init| && k in lookup(init[j]).value;
          assert init[j] == lookups[j];
        }
        if exists j :: 0 <= j < |lookups| && k in lookup(lookups[j]).value {
          var j :| 0 <= j < |lookups| && k in lookup(lookups[j]).value;
          if j < last {
            assert init[j] == lookups[j];
          }
        }
      }
    }
  }

  /**
   * The gathering fails exactly when some lookup fails, and then with the
   * error of the first failing lookup `bad`.
   */
  lemma {:induction false} LookupAllFails<L, K>(lookups: seq<L>, lookup: L -> Result<seq<K>>) returns (bad: nat)
    requires LookupAll(lookups, lookup).Err?
    ensures bad < |lookups| && lookup(lookups[bad]) == Err(LookupAll(lookups, lookup).error)
    ensures forall j :: 0 <= j < bad ==> lookup(lookups[j]).Ok?
  {
    var init := lookups[..|lookups| - 1];
    if LookupAll(init, lookup).Err? {
      bad := LookupAllFails(init, lookup);
      assert lookups[bad] == init[bad];
      assert forall j :: 0 <= j < bad ==> lookups[j] == init[j];
    } else {
      bad := |lookups| - 1;
      LookupAllSucceeds(init, lookup);
      assert forall j :: 0 <= j < bad ==> lookups[j] == init[j];
    }
  }

  /** A gathering that succeeds made every lookup successfully. */
  lemma {:induction false} LookupAllSucceeds<L, K>(lookups: seq<L>, lookup: L -> Result<seq<K>>)
    requires LookupAll(lookups, lookup).Ok?
    ensures forall j :: 0 <= j < |lookups| ==> lookup(lookups[j]).Ok?
  {
    if lookups != [] {
      var init := lookups[..|lookups| - 1];
      LookupAllSucceeds(init, lookup);
      assert forall j :: 0 <= j < |init| ==> lookups[j] == init[j];
    }
  }

  /** The inner `for … { insert }` loops: add every element of `xs` to the set. */
  method InsertAll<K>(acc: set<K>, xs: seq<K>) returns (r: set<K>)
    ensures r == acc + Elements(xs)
  {
    r := acc;
    for i := 0 to |xs|
      invariant r == acc + Elements(xs[..i])
    {
      assert Elements(xs[..i + 1]) == Elements(xs[..i]) + {xs[i]} by {
        assert xs[..i + 1] == xs[..i] + [xs[i]];
      }
      r := r + {xs[i]};
    }
    assert xs[..|xs|] == xs;
  }

  /**
   * The first two loops of `find_outputs` and `find_messages`: the explicit
   * ids, then the ids each lookup reports, into one set; a failed lookup
   * aborts with its error. `looked` lists the lookups made, in order.
   */
  method CollectCandidates<L, K>(explicit: seq<K>, lookups: seq<L>, lookup: L -> Result<seq<K>>)
    returns (r: Result<set<K>>, ghost looked: seq<L>)
    ensures r == Candidates(explicit, lookups, lookup)
    ensures looked <= lookups
    ensures r.Ok? ==> looked == lookups
    ensures r.Err? ==> |looked| > 0 && lookup(looked[|looked| - 1]) == Err(r.error)
    ensures r.Err? ==> forall j :: 0 <= j < |looked| - 1 ==> lookup(looked[j]).Ok?
  {
    var ids := InsertAll({}, explicit);
    looked := [];
    for i := 0 to |lookups|
      invariant looked == lookups[..i]
      invariant LookupAll(lookups[..i], lookup).Ok?
      invariant ids == Elements(explicit) + LookupAll(lookups[..i], lookup).value
    {
      assert lookups[..i + 1][..i] == lookups[..i];
      looked := looked + [lookups[i]];
      match lookup(lookups[i]) {
        case Err(e) =>
          assert LookupAll(lookups[..i + 1], lookup) == Err(e);
          CandidatesPrefixFails(explicit, lookups, lookup, i + 1);
          LookupAllSucceeds(lookups[..i], lookup);
          return Err(e), looked;
        case Ok(found) =>
          ids := InsertAll(ids, found);
      }
    }
    assert lookups[..|lookups|] == lookups;
    r := Ok(ids);
  }

  /** A lookup that fails in a prefix makes the whole gathering fail with the same error. */
  lemma {:induction false} CandidatesPrefixFails<L, K>(explicit: seq<K>, lookups: seq<L>, lookup: L -> Result<seq<K>>, n: nat)
    requires n <= |lookups| && LookupAll(lookups[..n], lookup).Err?
    ensures Candidates(explicit, lookups, lookup) == Err(LookupAll(lookups[..n], lookup).error)
    decreases |lookups| - n
  {
    if n < |lookups| {
      assert lookups[..n + 1][..n] == lookups[..n];
      CandidatesPrefixFails(explicit, lookups, lookup, n + 1);
    } else {
      assert lookups[..n] == lookups;
    }
  }

  // ---------------------------------------------------------------------
  // Querying each distinct id once

  /**
   * The outcome of querying every id of `keys` once, in any order:
   * `fetched` lists the ids queried, without repetition and only from
   * `keys`. On success every id was queried and the results are the
   * answers, in query order; on failure the last query failed with the
   * returned error and every earlier one succeeded.
   */
  ghost predicate QueriedOnce<K, V>(keys: set<K>, fetch: K -> Result<V>, r: Result<seq<V>>, fetched: seq<K>)
  {
    && Distinct(fetched) && Elements(fetched) <= keys
    && (r.Ok? ==>
          && Elements(fetched) == keys && |fetched| == |keys| && |r.value| == |fetched|
          && forall i :: 0 <= i < |fetched| ==> fetch(fetched[i]) == Ok(r.value[i]))
    && (r.Err? ==>
          && |fetched| > 0 && fetch(fetched[|fetched| - 1]) == Err(r.error)
          && forall i :: 0 <= i < |fetched| - 1 ==> fetch(fetched[i]).Ok?)
  }

  /** The last loop of `find_outputs` and `find_messages`: query each element of the hash set. */
  method FetchEach<K, V>(keys: set<K>, fetch: K -> Result<V>) returns (r: Result<seq<V>>, ghost fetched: seq<K>)
    ensures QueriedOnce(keys, fetch, r, fetched)
    ensures r.Ok? <==> forall k :: k in keys ==> fetch(k).Ok?
    ensures r.Ok? ==> |r.value| == |keys|
    ensures r.Err? ==> exists k :: k in keys && fetch(k) == Err(r.error)
  {
    var rest := keys;
    var values: seq<V> := [];
    fetched := [];
    while rest != {}
      invariant rest == keys - Elements(fetched)
      invariant Distinct(fetched) && Elements(fetched) <= keys
      invariant Answered(fetch, fetched, values)
      decreases |rest|
    {
      var k :| k in rest;
      AppendFresh(fetched, k);
      match fetch(k) {
        case Err(e) =>
          QueryFailed(keys, fetch, fetched, values, k, e);
          QueriedOnceOutcome(keys, fetch, Err(e), fetched + [k]);
          return Err(e), fetched + [k];
        case Ok(v) =>
          AnsweredAppend(fetch, fetched, values, k, v);
          RestShrinks(keys, fetched, rest, k);
          fetched, values := fetched + [k], values + [v];
      }
      rest := rest - {k};
    }
    AllQueried(keys, fetch, fetched, values);
    r := Ok(values);
    QueriedOnceOutcome(keys, fetch, r, fetched);
  }

  /**
   * What querying each id once means for the outcome alone: it succeeds
   * exactly when every id's query succeeds, with one answer per id, and
   * otherwise fails with the error of some id's query.
   */
  lemma QueriedOnceOutcome<K, V>(keys: set<K>, fetch: K -> Result<V>, r: Result<seq<V>>, fetched: seq<K>)
    requires QueriedOnce(keys, fetch, r, fetched)
    ensures r.Ok? <==> forall k :: k in keys ==> fetch(k).Ok?
    ensures r.Ok? ==> |r.value| == |keys|
    ensures r.Err? ==> exists k :: k in keys && fetch(k) == Err(r.error)
  {
    if r.Ok? {
      forall k | k in keys
        ensures fetch(k).Ok?
      {
        assert k in Elements(fetched);
        var i :| 0 <= i < |fetched| && fetched[i] == k;
      }
    } else {
      var last := fetched[|fetched| - 1];
      assert last in Elements(fetched);
    }
  }

  /** The loop of `FetchEach` stops at a failed query: its error is the outcome. */
  lemma QueryFailed<K, V>(keys: set<K>, fetch: K -> Result<V>, fetched: seq<K>, values: seq<V>, k: K, e: Error)
    requires Distinct(fetched + [k]) && Elements(fetched + [k]) <= keys
    requires Answered(fetch, fetched, values) && fetch(k) == Err(e)
    ensures QueriedOnce(keys, fetch, Err(e), fetched + [k])
  {
    assert forall i :: 0 <= i < |fetched| ==> (fetched + [k])[i] == fetched[i];
  }

  /** The loop of `FetchEach` ran out of ids: every id was queried once and answered. */
  lemma AllQueried<K, V>(keys: set<K>, fetch: K -> Result<V>, fetched: seq<K>, values: seq<V>)
    requires Distinct(fetched) && Elements(fetched) == keys && Answered(fetch, fetched, values)
    ensures QueriedOnce(keys, fetch, Ok(values), fetched)
  {
    DistinctCardinality(fetched);
  }

  /** `values` are the answers to the queries of `fetched`, in order. */
  ghost predicate Answered<K, V>(fetch: K -> Result<V>, fetched: seq<K>, values: seq<V>) {
    |values| == |fetched| && forall i :: 0 <= i < |fetched| ==> fetch(fetched[i]) == Ok(values[i])
  }

  /** A successful query extends the answers. */
  lemma AnsweredAppend<K, V>(fetch: K -> Result<V>, fetched: seq<K>, values: seq<V>, k: K, v: V)
    requires Answered(fetch, fetched, values) && fetch(k) == Ok(v)
    ensures Answered(fetch, fetched + [k], values + [v])
  {
  }

  /** Querying `k` removes it from the ids still to query. */
  lemma RestShrinks<K>(keys: set<K>, fetched: seq<K>, rest: set<K>, k: K)
    requires rest == keys - Elements(fetched) && k in rest
    ensures rest - {k} == keys - Elements(fetched + [k]) && |rest - {k}| < |rest|
  {
    assert Elements(fetched + [k]) == Elements(fetched) + {k};
  }

  /** Appending an id not yet queried keeps the query list free of repetitions. */
  lemma AppendFresh<K>(fetched: seq<K>, k: K)
    requires Distinct(fetched) && k !in Elements(fetched)
    ensures Distinct(fetched + [k]) && Elements(fetched + [k]) == Elements(fetched) + {k}
  {
    assert forall i :: 0 <= i < |fetched| ==> fetched[i] in Elements(fetched);
  }

  /** `get_output` as the query of one id. */
  function OutputFetcher(api: LedgerApi): UtxoInput -> Result<OutputMetadata> {
    input => GetOutput(api, input)
  }

  /** `get_message().data(id).await.unwrap()`: a failed fetch aborts; the model returns `Panic`. */
  function MessageFetcher(api: LedgerApi): MessageId -> Result<Message> {
    id => match api.message(id)
          case Ok(m) => Ok(m)
          case Err(e) => Err(Panic(e))
  }

  /**
   * `Client::find_outputs`: every distinct output among the given inputs
   * and the outputs of the given addresses is decoded exactly once. A
   * failed address lookup aborts before any output is queried.
   */
  method FindOutputs(api: LedgerApi, outputs: seq<UtxoInput>, addresses: seq<Address>)
    returns (r: Result<seq<OutputMetadata>>, ghost looked: seq<Address>, ghost fetched: seq<UtxoInput>)
    ensures var ids := Candidates(outputs, addresses, api.addressOutputs);
            && (ids.Err? ==> r == Err(ids.error) && fetched == [])
            && (ids.Ok? ==> QueriedOnce(ids.value, OutputFetcher(api), r, fetched))
    ensures looked <= addresses
    ensures Candidates(outputs, addresses, api.addressOutputs).Ok? ==> looked == addresses
    ensures Candidates(outputs, addresses, api.addressOutputs).Err? ==>
              |looked| > 0 && api.addressOutputs(looked[|looked| - 1]) == Err(r.error)
              && forall j :: 0 <= j < |looked| - 1 ==> api.addressOutputs(looked[j]).Ok?
    ensures var ids := Candidates(outputs, addresses, api.addressOutputs);
            ids.Ok? ==>
              && (r.Ok? <==> forall k :: k in ids.value ==> GetOutput(api, k).Ok?)
              && (r.Ok? ==> |r.value| == |ids.value|)
              && (r.Err? ==> exists k :: k in ids.value && GetOutput(api, k) == Err(r.error))
  {
    var ids;
    ids, looked := CollectCandidates(outputs, addresses, api.addressOutputs);
    match ids {
      case Err(e) =>
        return Err(e), looked, [];
      case Ok(keys) =>
        r, fetched := FetchEach(keys, OutputFetcher(api));
    }
  }

  /**
   * `Client::find_messages`: every distinct message id among the given
   * ids and the ids indexed under the given keys is fetched exactly once.
   * A failed index lookup is returned; a failed fetch is a panic.
   */
  method FindMessages(api: LedgerApi, indexationKeys: seq<string>, messageIds: seq<MessageId>)
    returns (r: Result<seq<Message>>, ghost looked: seq<string>, ghost fetched: seq<MessageId>)
    ensures var ids := Candidates(messageIds, indexationKeys, api.indexed);
            && (ids.Err? ==> r == Err(ids.error) && fetched == [])
            && (ids.Ok? ==> QueriedOnce(ids.value, MessageFetcher(api), r, fetched))
    ensures looked <= indexationKeys
    ensures Candidates(messageIds, indexationKeys, api.indexed).Ok? ==> looked == indexationKeys
    ensures Candidates(messageIds, indexationKeys, api.indexed).Err? ==>
              |looked| > 0 && api.indexed(looked[|looked| - 1]) == Err(r.error)
              && forall j :: 0 <= j < |looked| - 1 ==> api.indexed(looked[j]).Ok?
    ensures var ids := Candidates(messageIds, indexationKeys, api.indexed);
            ids.Ok? ==>
              && (r.Ok? <==> forall k :: k in ids.value ==> api.message(k).Ok?)
              && (r.Ok? ==> |r.value| == |ids.value|)
              && (r.Err? ==> exists k :: k in ids.value && api.message(k).Err? && r.error == Panic(api.message(k).error))
  {
    var ids;
    ids, looked := CollectCandidates(messageIds, indexationKeys, api.indexed);
    match ids {
      case Err(e) =>
        return Err(e), looked, [];
      case Ok(keys) =>
        r, fetched := FetchEach(keys, MessageFetcher(api));
    }
  }

  /**
   * Every output `find_outputs` returns is an Ed25519 output of one of the
   * gathered ids, and no id appears twice among those queried.
   */
  lemma FoundOutputsAreEd25519(api: LedgerApi, ids: set<UtxoInput>, r: Result<seq<OutputMetadata>>, fetched: seq<UtxoInput>)
    requires QueriedOnce(ids, OutputFetcher(api), r, fetched) && r.Ok?
    ensures forall i :: 0 <= i < |r.value| ==>
              fetched[i] in ids && |r.value[i].address.bytes| == ADDRESS_LENGTH
              && IsEd25519Output(api.output(fetched[i]).value)
  {
    forall i | 0 <= i < |r.value|
      ensures fetched[i] in ids && |r.value[i].address.bytes| == ADDRESS_LENGTH
              && IsEd25519Output(api.output(fetched[i]).value)
    {
      assert OutputFetcher(api)(fetched[i]) == Ok(r.value[i]);
      assert fetched[i] in Elements(fetched);
    }
  }

  /** Repeating an explicit id queries nothing more. */
  lemma DuplicatesQueryNothingMore<L, K>(explicit: seq<K>, lookups: seq<L>, lookup: L -> Result<seq<K>>, k: K)
    requires k in explicit
    ensures Candidates(explicit + [k], lookups, lookup) == Candidates(explicit, lookups, lookup)
  {
    assert Elements(explicit + [k]) == Elements(explicit);
  }

  /** A further lookup that reports only ids already gathered queries nothing more. */
  lemma RepeatedLookupAddsNothing<L, K>(explicit: seq<K>, lookups: seq<L>, lookup: L -> Result<seq<K>>, l: L)
    requires Candidates(explicit, lookups, lookup).Ok? && lookup(l).Ok?
    requires Elements(lookup(l).value) <= Candidates(explicit, lookups, lookup).value
    ensures Candidates(explicit, lookups + [l], lookup) == Candidates(explicit, lookups, lookup)
  {
    assert (lookups + [l])[..|lookups|] == lookups;
    var found := LookupAll(lookups, lookup).value;
    assert LookupAll(lookups + [l], lookup) == Ok(found + Elements(lookup(l).value));
    assert Elements(explicit) + (found + Elements(lookup(l).value)) == Elements(explicit) + found;
  }

  // ---------------------------------------------------------------------
  // get_address_balances

  /**
   * `Client::get_address_balances`: the balance of every address, paired
   * with it, in the given order; the first failing query aborts with its
   * error. `queried` lists the addresses whose balance was asked for.
   */
  method GetAddressBalances(api: LedgerApi, addresses: seq<Address>)
    returns (r: Result<seq<AddressBalancePair>>, ghost queried: seq<Address>)
    ensures queried <= addresses
    ensures r.Ok? <==> forall i :: 0 <= i < |addresses| ==> api.balance(addresses[i]).Ok?
    ensures r.Ok? ==> queried == addresses && |r.value| == |addresses|
    ensures r.Ok? ==> forall i :: 0 <= i < |addresses| ==>
              r.value[i] == AddressBalancePair(addresses[i], api.balance(addresses[i]).value)
    ensures r.Err? ==> |queried| > 0 && api.balance(queried[|queried| - 1]) == Err(r.error)
    ensures r.Err? ==> forall i :: 0 <= i < |queried| - 1 ==> api.balance(queried[i]).Ok?
  {
    var pairs: seq<AddressBalancePair> := [];
    queried := [];
    for i := 0 to |addresses|
      invariant queried == addresses[..i] && |pairs| == i
      invariant forall j :: 0 <= j < i ==> api.balance(addresses[j]).Ok?
      invariant forall j :: 0 <= j < i ==> pairs[j] == AddressBalancePair(addresses[j], api.balance(addresses[j]).value)
    {
      queried := queried + [addresses[i]];
      match api.balance(addresses[i]) {
        case Err(e) =>
          return Err(e), queried;
        case Ok(balance) =>
          pairs := pairs + [AddressBalancePair(addresses[i], balance)];
      }
    }
    r := Ok(pairs);
  }
}

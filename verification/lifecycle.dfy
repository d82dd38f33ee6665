// Message lifecycle operations of the client (iota-client/src/client.rs):
// `promote` attaches a new zero-value message on top of a stuck one,
// `reattach` re-sends a stuck message's payload on fresh tips, and `retry`
// asks the node's metadata which of the two is wanted. The node endpoints
// and the message builder are parameters; `calls` records, in order, the
// requests each operation sends to the node.

module Lifecycle {
  import opened Types
  import opened NetworkId

  /** The part of `MessageMetadata` that `retry` reads. */
  datatype Metadata = Metadata(shouldPromote: Option<bool>, shouldReattach: Option<bool>)

  /** A request sent to the node. */
  datatype Call =
    | GetMetadata(id: MessageId)   // GET /api/v1/messages/{id}/metadata
    | GetMessage(id: MessageId)    // GET /api/v1/messages/{id}
    | GetTips                      // GET /api/v1/tips
    | GetInfo                      // GET /api/v1/info, for the network id
    | PostMessage(message: Message) // POST /api/v1/messages

  /** A result together with the requests made to reach it. */
  datatype Outcome<T> = Outcome(result: Result<T>, calls: seq<Call>)

  /**
   * What the node answers (a fixed snapshot for one operation), the
   * BLAKE2b hash, and whether `Message::builder().finish()` accepts a
   * message with the given fields.
   */
  datatype NodeApi = NodeApi(
    metadata: MessageId -> Result<Metadata>,
    message: MessageId -> Result<Message>,
    tips: Result<(MessageId, MessageId)>,
    info: Result<NodeInfo>,
    blake2b: seq<Byte> -> Digest,
    post: Message -> Result<MessageId>,
    accepts: Message -> bool)

  /** `Message::builder()…finish().map_err(|_| Error::TransactionError)`. */
  function Build(api: NodeApi, m: Message): (r: Result<Message>)
    ensures r.Ok? <==> api.accepts(m)
    ensures r.Ok? ==> r.value == m
    ensures r.Err? ==> r.error == TransactionError
  {
    if api.accepts(m) then Ok(m) else Err(TransactionError)
  }

  /**
   * Build the message, then post it; the posted id and the message are the
   * result. A message the builder refuses is never posted.
   */
  function BuildAndPost(api: NodeApi, m: Message, calls: seq<Call>): (o: Outcome<(MessageId, Message)>)
    ensures !api.accepts(m) ==> o == Outcome(Err(TransactionError), calls)
    ensures api.accepts(m) ==> o.calls == calls + [PostMessage(m)]
    ensures o.result.Ok? ==> api.post(m).Ok? && o.result.value == (api.post(m).value, m)
    ensures api.accepts(m) && api.post(m).Err? ==> o.result == Err(api.post(m).error)
  {
    match Build(api, m)
    case Err(e) => Outcome(Err(e), calls)
    case Ok(built) =>
      var posted := calls + [PostMessage(built)];
      match api.post(built)
      case Err(e) => Outcome(Err(e), posted)
      case Ok(newId) => Outcome(Ok((newId, built)), posted)
  }

  /**
   * `Client::promote`: fetch tips, fetch the network id, build a message
   * without payload whose parents are the first tip and the promoted
   * message, and post it.
   */
  function Promote(api: NodeApi, id: MessageId): (o: Outcome<(MessageId, Message)>)
    ensures |o.calls| > 0 && o.calls[0] == GetTips
    ensures api.tips.Err? ==> o == Outcome(Err(api.tips.error), [GetTips])
    ensures api.tips.Ok? && api.info.Err? ==> o == Outcome(Err(api.info.error), [GetTips, GetInfo])
    ensures o.result.Ok? ==> o.result.value.1.parent2 == id && o.result.value.1.payload.None?
  {
    match api.tips
    case Err(e) => Outcome(Err(e), [GetTips])
    case Ok(tips) =>
      match GetNetworkId(api.info, api.blake2b)
      case Err(e) => Outcome(Err(e), [GetTips, GetInfo])
      case Ok(networkId) =>
        BuildAndPost(api, Message(networkId, tips.0, id, None), [GetTips, GetInfo])
  }

  /**
   * `Client::reattach`: fetch the message, fetch tips and the network id,
   * and post a copy of the message's payload on the two tips. A message
   * without payload stops at the `unwrap`, after those requests and before
   * anything is built or posted; the model returns `MissingPayload` there.
   */
  function Reattach(api: NodeApi, id: MessageId): (o: Outcome<(MessageId, Message)>)
    ensures |o.calls| > 0 && o.calls[0] == GetMessage(id)
    ensures api.message(id).Err? ==> o == Outcome(Err(api.message(id).error), [GetMessage(id)])
    ensures api.message(id).Ok? && api.tips.Err? ==> o == Outcome(Err(api.tips.error), [GetMessage(id), GetTips])
    ensures api.message(id).Ok? && api.tips.Ok? && api.info.Err? ==>
              o == Outcome(Err(api.info.error), [GetMessage(id), GetTips, GetInfo])
    ensures o.result.Ok? ==> api.message(id).Ok? && o.result.value.1.payload == api.message(id).value.payload
  {
    match api.message(id)
    case Err(e) => Outcome(Err(e), [GetMessage(id)])
    case Ok(original) =>
      match api.tips
      case Err(e) => Outcome(Err(e), [GetMessage(id), GetTips])
      case Ok(tips) =>
        var calls := [GetMessage(id), GetTips, GetInfo];
        match GetNetworkId(api.info, api.blake2b)
        case Err(e) => Outcome(Err(e), calls)
        case Ok(networkId) =>
          match original.payload
          case None => Outcome(Err(MissingPayload), calls)
          case Some(p) => BuildAndPost(api, Message(networkId, tips.0, tips.1, Some(p)), calls)
  }

  /** `Option::unwrap_or(false)`. */
  function IsTrue(flag: Option<bool>): bool {
    flag == Some(true)
  }

  /**
   * `Client::retry`: read the message's metadata; promote if it says so,
   * otherwise reattach if it says so, otherwise fail with
   * `NoNeedPromoteOrReattach`.
   */
  function Retry(api: NodeApi, id: MessageId): (o: Outcome<(MessageId, Message)>)
    ensures |o.calls| > 0 && o.calls[0] == GetMetadata(id)
    ensures api.metadata(id).Err? ==> o == Outcome(Err(api.metadata(id).error), [GetMetadata(id)])
    ensures o.result.Ok? ==>
              api.metadata(id).Ok?
              && (IsTrue(api.metadata(id).value.shouldPromote) || IsTrue(api.metadata(id).value.shouldReattach))
  {
    match api.metadata(id)
    case Err(e) => Outcome(Err(e), [GetMetadata(id)])
    case Ok(meta) =>
      if IsTrue(meta.shouldPromote) then
        var o := Promote(api, id);
        Outcome(o.result, [GetMetadata(id)] + o.calls)
      else if IsTrue(meta.shouldReattach) then
        var o := Reattach(api, id);
        Outcome(o.result, [GetMetadata(id)] + o.calls)
      else
        Outcome(Err(NoNeedPromoteOrReattach(id)), [GetMetadata(id)])
  }

  // ---------------------------------------------------------------------
  // Properties.

  /** At most one message is posted, and posting is the last request. */
  predicate PostsOnlyLast(calls: seq<Call>) {
    forall i :: 0 <= i < |calls| - 1 ==> !calls[i].PostMessage?
  }

  /** No message is posted. */
  predicate NoPost(calls: seq<Call>) {
    forall i :: 0 <= i < |calls| ==> !calls[i].PostMessage?
  }

  /**
   * What an operation that succeeds did: its last request posted exactly
   * the message it returns, and the id it returns is the one the node
   * assigned to that message.
   */
  predicate PostedResult(api: NodeApi, o: Outcome<(MessageId, Message)>) {
    o.result.Ok? ==>
      && |o.calls| > 0
      && o.calls[|o.calls| - 1] == PostMessage(o.result.value.1)
      && api.post(o.result.value.1) == Ok(o.result.value.0)
      && api.accepts(o.result.value.1)
  }

  lemma BuildAndPostDiscipline(api: NodeApi, m: Message, calls: seq<Call>)
    requires NoPost(calls)
    ensures var o := BuildAndPost(api, m, calls);
            PostsOnlyLast(o.calls) && PostedResult(api, o)
            && (o.result.Ok? || o.result.error != TransactionError ==> |o.calls| == |calls| + 1)
  {
  }

  /**
   * A promotion that succeeds posts a message without payload on the
   * first tip and the promoted message, on the node's network, after
   * fetching the tips and the network id, and posts nothing else.
   */
  lemma PromoteShape(api: NodeApi, id: MessageId)
    ensures var o := Promote(api, id);
            && PostsOnlyLast(o.calls) && PostedResult(api, o)
            && (o.result.Ok? ==>
                  && api.tips.Ok? && api.info.Ok?
                  && o.result.value.1 == Message(GetNetworkId(api.info, api.blake2b).value, api.tips.value.0, id, None)
                  && o.calls == [GetTips, GetInfo, PostMessage(o.result.value.1)])
  {
    if api.tips.Ok? && GetNetworkId(api.info, api.blake2b).Ok? {
      BuildAndPostDiscipline(api, Message(GetNetworkId(api.info, api.blake2b).value, api.tips.value.0, id, None), [GetTips, GetInfo]);
    }
  }

  /** A promotion whose message the builder refuses fails with `TransactionError` and posts nothing. */
  lemma PromoteBuildRefused(api: NodeApi, id: MessageId)
    requires api.tips.Ok? && api.info.Ok?
    requires !api.accepts(Message(GetNetworkId(api.info, api.blake2b).value, api.tips.value.0, id, None))
    ensures Promote(api, id) == Outcome(Err(TransactionError), [GetTips, GetInfo])
  {
  }

  /**
   * A reattachment that succeeds posts the original message's payload,
   * unchanged, on the two fresh tips, on the node's network.
   */
  lemma ReattachShape(api: NodeApi, id: MessageId)
    ensures var o := Reattach(api, id);
            && PostsOnlyLast(o.calls) && PostedResult(api, o)
            && (o.result.Ok? ==>
                  && api.message(id).Ok? && api.tips.Ok? && api.info.Ok?
                  && api.message(id).value.payload.Some?
                  && o.result.value.1 == Message(GetNetworkId(api.info, api.blake2b).value,
                                                 api.tips.value.0, api.tips.value.1, api.message(id).value.payload)
                  && o.calls == [GetMessage(id), GetTips, GetInfo, PostMessage(o.result.value.1)])
  {
    if api.message(id).Ok? && api.tips.Ok? && GetNetworkId(api.info, api.blake2b).Ok? && api.message(id).value.payload.Some? {
      var calls := [GetMessage(id), GetTips, GetInfo];
      BuildAndPostDiscipline(api, Message(GetNetworkId(api.info, api.blake2b).value,
                                          api.tips.value.0, api.tips.value.1, api.message(id).value.payload), calls);
    }
  }

  /**
   * Reattaching a message without payload fails with `MissingPayload`
   * once the message, the tips and the network id are fetched, and
   * nothing is posted.
   */
  lemma ReattachWithoutPayload(api: NodeApi, id: MessageId)
    requires api.message(id).Ok? && api.message(id).value.payload.None?
    requires api.tips.Ok? && api.info.Ok?
    ensures Reattach(api, id) == Outcome(Err(MissingPayload), [GetMessage(id), GetTips, GetInfo])
    ensures NoPost(Reattach(api, id).calls)
  {
  }

  /**
   * When the builder refuses the reattachment message, the result is
   * `TransactionError` after the three fetches, and nothing is posted.
   */
  lemma ReattachBuildRefused(api: NodeApi, id: MessageId)
    requires api.message(id).Ok? && api.message(id).value.payload.Some?
    requires api.tips.Ok? && api.info.Ok?
    requires !api.accepts(Message(GetNetworkId(api.info, api.blake2b).value, api.tips.value.0, api.tips.value.1,
                                  api.message(id).value.payload))
    ensures Reattach(api, id) == Outcome(Err(TransactionError), [GetMessage(id), GetTips, GetInfo])
  {
  }

  /** Promotion wins: metadata asking to promote promotes, whatever it says about reattaching. */
  lemma RetryPromotesFirst(api: NodeApi, id: MessageId)
    requires api.metadata(id).Ok? && api.metadata(id).value.shouldPromote == Some(true)
    ensures Retry(api, id).result == Promote(api, id).result
    ensures Retry(api, id).calls == [GetMetadata(id)] + Promote(api, id).calls
  {
  }

  /** Without a request to promote (absent counts as no), a request to reattach reattaches. */
  lemma RetryReattaches(api: NodeApi, id: MessageId)
    requires api.metadata(id).Ok? && api.metadata(id).value.shouldPromote != Some(true)
    requires api.metadata(id).value.shouldReattach == Some(true)
    ensures Retry(api, id).result == Reattach(api, id).result
    ensures Retry(api, id).calls == [GetMetadata(id)] + Reattach(api, id).calls
  {
  }

  /**
   * With neither flag set to `Some(true)`, retry fails with
   * `NoNeedPromoteOrReattach` for that message after reading its metadata
   * only: no tips are fetched and nothing is posted.
   */
  lemma RetryNoNeed(api: NodeApi, id: MessageId)
    requires api.metadata(id).Ok?
    requires api.metadata(id).value.shouldPromote != Some(true)
    requires api.metadata(id).value.shouldReattach != Some(true)
    ensures Retry(api, id) == Outcome(Err(NoNeedPromoteOrReattach(id)), [GetMetadata(id)])
  {
  }

  /** Every retry posts at most once, as its last request, and returns what it posted. */
  lemma RetryPostsOnlyLast(api: NodeApi, id: MessageId)
    ensures PostsOnlyLast(Retry(api, id).calls) && PostedResult(api, Retry(api, id))
  {
    PromoteShape(api, id);
    ReattachShape(api, id);
    var o := Retry(api, id);
    if api.metadata(id).Ok? && (IsTrue(api.metadata(id).value.shouldPromote) || IsTrue(api.metadata(id).value.shouldReattach)) {
      var inner := if IsTrue(api.metadata(id).value.shouldPromote) then Promote(api, id) else Reattach(api, id);
      assert o.calls == [GetMetadata(id)] + inner.calls;
      forall i | 0 <= i < |o.calls| - 1
        ensures !o.calls[i].PostMessage?
      {
        if i > 0 {
          assert o.calls[i] == inner.calls[i - 1];
        }
      }
    }
  }
}

// The proof-of-work provider the client hands to the message builder
// (`ClientMinerBuilder`, `ClientMiner` in iota-client/src/client.rs): in
// remote mode the nonce is left at zero for the node to fill in; in local
// mode the nonce comes from a multi-threaded miner outside the crate.

module Pow {
  import opened Types

  /** `ClientMinerBuilder`; its derived `Default` leaves local PoW off. */
  datatype ClientMinerBuilder = ClientMinerBuilder(localPow: bool)
  {
    /** `with_local_pow`. */
    function WithLocalPow(value: bool): ClientMinerBuilder {
      this.(localPow := value)
    }

    /** `finish`: the miner carries the builder's flag. */
    function Finish(): ClientMiner {
      ClientMiner(localPow)
    }
  }

  /** `PowProviderBuilder::new` for `ClientMinerBuilder`: the default builder. */
  function NewMinerBuilder(): ClientMinerBuilder {
    ClientMinerBuilder(false)
  }

  /** `ClientMiner`: whether the nonce is mined here or left to the node. */
  datatype ClientMiner = ClientMiner(localPow: bool)

  /** What the foreign miner reports: a nonce, or the text of its error. */
  datatype MinerOutcome = Found(nonce: U64) | Failed(reason: string)

  /**
   * The foreign miner (`MinerBuilder` over all CPUs) and the PoW score it
   * searches against: the score of `bytes` with a nonce appended.
   */
  datatype LocalMiner = LocalMiner(
    mine: (seq<Byte>, real) -> MinerOutcome,
    score: (seq<Byte>, U64) -> real)

  /** The miner keeps its promise: every nonce it reports reaches the target. */
  ghost predicate Sound(miner: LocalMiner) {
    forall bytes, target :: miner.mine(bytes, target).Found? ==>
      miner.score(bytes, miner.mine(bytes, target).nonce) >= target
  }

  /**
   * `ClientMiner::nonce`. In remote mode the answer is `Ok(0)` whatever
   * the bytes and target. In local mode it is the foreign miner's nonce,
   * and its failure becomes `Error::Pow` with the miner's message.
   */
  function Nonce(miner: ClientMiner, bytes: seq<Byte>, targetScore: real, local: LocalMiner): (r: Result<U64>)
    ensures !miner.localPow ==> r == Ok(0)
    ensures miner.localPow ==> (r.Err? <==> local.mine(bytes, targetScore).Failed?)
    ensures miner.localPow && local.mine(bytes, targetScore).Found? ==>
              r == Ok(local.mine(bytes, targetScore).nonce)
  {
    if miner.localPow then
      match local.mine(bytes, targetScore)
      case Found(n) => Ok(n)
      case Failed(reason) => Err(Error.Pow(reason))
    else
      Ok(0)
  }

  /** A miner built from the default builder mines remotely. */
  lemma DefaultIsRemote()
    ensures !NewMinerBuilder().Finish().localPow
  {
  }

  /** The built miner carries the last flag given to the builder. */
  lemma FinishKeepsFlag(b: ClientMinerBuilder, value: bool)
    ensures b.WithLocalPow(value).Finish().localPow == value
  {
  }

  /**
   * With a sound miner, a nonce produced in local mode reaches the target
   * score for exactly those bytes; a failure is reported as `Pow`.
   */
  lemma LocalNonceMeetsTarget(miner: ClientMiner, bytes: seq<Byte>, targetScore: real, local: LocalMiner)
    requires miner.localPow && Sound(local)
    ensures Nonce(miner, bytes, targetScore, local).Ok? ==>
              local.score(bytes, Nonce(miner, bytes, targetScore, local).value) >= targetScore
    ensures Nonce(miner, bytes, targetScore, local).Err? ==> Nonce(miner, bytes, targetScore, local).error.Pow?
  {
  }
}

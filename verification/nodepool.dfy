// The client's pool of synced nodes (iota-client/src/client.rs): the shared
// set `Client::sync` that `sync_nodes` rebuilds from the health of the
// configured nodes and from which `get_node` picks the node every request
// goes to, together with the PoW setting the client hands to its miner.

module NodePool {
  import opened Types
  import opened Pow

  /** A node URL. */
  type Url = string

  /**
   * `Client::get_node_health` against one node: `Ok(true)` for an HTTP 200
   * on `/health`, `Ok(false)` for any other status, an error when the
   * request itself fails.
   */
  type HealthProbe = Url -> Result<bool>

  /** The configured nodes that answered their health check with `Ok(true)`. */
  ghost function Healthy(nodes: seq<Url>, health: HealthProbe): set<Url> {
    set n | n in nodes && health(n) == Ok(true)
  }

  /**
   * The loop of `sync_nodes`: probe every configured node in order and
   * keep those that answer healthy; a probe error counts as unhealthy
   * (`unwrap_or(false)`). `probed` lists the probes in the order they were
   * made.
   */
  method ProbeNodes(nodes: seq<Url>, health: HealthProbe) returns (synced: set<Url>, ghost probed: seq<Url>)
    ensures synced == Healthy(nodes, health)
    ensures probed == nodes
  {
    synced := {};
    probed := [];
    for i := 0 to |nodes|
      invariant synced == Healthy(nodes[..i], health)
      invariant probed == nodes[..i]
    {
      var healthy := match health(nodes[i]) case Ok(b) => b case Err(_) => false;
      if healthy {
        synced := synced + {nodes[i]};
      }
      probed := probed + [nodes[i]];
    }
    assert nodes[..|nodes|] == nodes;
  }

  /** Only configured nodes enter the pool, and a node whose probe failed never does. */
  lemma HealthyIsSafe(nodes: seq<Url>, health: HealthProbe)
    ensures Healthy(nodes, health) <= Elements(nodes)
    ensures forall n :: n in nodes && health(n) != Ok(true) ==> n !in Healthy(nodes, health)
  {
  }

  /**
   * The pool does not depend on the order of the configured nodes or on
   * duplicates among them: the same set of nodes gives the same pool.
   */
  lemma HealthyOrderIrrelevant(nodes1: seq<Url>, nodes2: seq<Url>, health: HealthProbe)
    requires Elements(nodes1) == Elements(nodes2)
    ensures Healthy(nodes1, health) == Healthy(nodes2, health)
  {
    assert forall n :: n in nodes1 <==> n in Elements(nodes1);
    assert forall n :: n in nodes2 <==> n in Elements(nodes2);
  }

  /** The part of `Client` the model keeps: the synced node pool and the PoW setting. */
  class Client {
    /** `sync`: the synced node pool. */
    var pool: set<Url>
    /** `local_pow`. */
    const localPow: bool

    /** A client whose pool has not been synced yet. */
    constructor(localPow: bool)
      ensures this.localPow == localPow && pool == {}
    {
      this.localPow := localPow;
      pool := {};
    }

    /**
     * `Client::sync_nodes`: the pool becomes exactly the healthy configured
     * nodes. The old pool is discarded, even when no node is healthy.
     */
    method SyncNodes(nodes: seq<Url>, health: HealthProbe) returns (ghost probed: seq<Url>)
      modifies this
      ensures pool == Healthy(nodes, health)
      ensures probed == nodes
    {
      var synced;
      synced, probed := ProbeNodes(nodes, health);
      pool := synced;
    }

    /**
     * `Client::get_node`: some member of the pool, or `SyncedNodePoolEmpty`
     * when the pool is empty. Which member is not specified (the first in
     * the hash set's iteration order). The pool is only read.
     */
    method GetNode() returns (r: Result<Url>)
      ensures r.Ok? <==> pool != {}
      ensures r.Ok? ==> r.value in pool
      ensures r.Err? ==> r.error == SyncedNodePoolEmpty
    {
      if pool == {} {
        return Err(SyncedNodePoolEmpty);
      }
      var node :| node in pool;
      return Ok(node);
    }

    /**
     * `Client::get_pow_provider`: a miner from the default builder with
     * the client's PoW setting.
     */
    function GetPowProvider(): (miner: ClientMiner)
      ensures miner.localPow == localPow
    {
      NewMinerBuilder().WithLocalPow(localPow).Finish()
    }
  }

  /**
   * A client without local PoW hands out a miner whose nonce is always 0:
   * the node does the proof of work.
   */
  lemma RemoteProviderNonceIsZero(c: Client, bytes: seq<Byte>, targetScore: real, local: LocalMiner)
    requires !c.localPow
    ensures Nonce(c.GetPowProvider(), bytes, targetScore, local) == Ok(0)
  {
  }

  /** After a sync, the node `get_node` picks answered its health check with `Ok(true)`. */
  method SyncThenGetNode(c: Client, nodes: seq<Url>, health: HealthProbe) returns (r: Result<Url>)
    modifies c
    ensures r.Ok? ==> r.value in nodes && health(r.value) == Ok(true)
    ensures r.Err? <==> (forall n :: n in nodes ==> health(n) != Ok(true))
  {
    var _ := c.SyncNodes(nodes, health);
    r := c.GetNode();
    if r.Ok? {
      assert r.value in Healthy(nodes, health);
    }
    forall n | n in nodes && health(n) == Ok(true)
      ensures n in c.pool
    {
      assert n in Healthy(nodes, health);
    }
  }
}

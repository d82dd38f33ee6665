// The byte-level part of `Client::get_network_id` (iota-client/src/client.rs):
// the network id string reported by the node is hashed with BLAKE2b to 32
// bytes, and the first 8 bytes of the digest are read as a little-endian
// u64. The hash itself belongs to the blake2 crate and is a parameter here.

module NetworkId {
  import opened Types

  /** A BLAKE2b-256 digest (RFC 7693 with a 32-byte output). */
  type Digest = d: seq<Byte> | |d| == 32 witness seq(32, _ => 0)

  /** `256^k`. */
  function Pow256(k: nat): (p: nat)
    ensures p > 0
  {
    if k == 0 then 1 else 256 * Pow256(k - 1)
  }

  /**
   * The value of `bytes` read little-endian, as `u64::from_le_bytes`
   * computes it: the first byte is the least significant.
   */
  function FromLe(bytes: seq<Byte>): nat
  {
    if bytes == [] then 0 else bytes[0] + 256 * FromLe(bytes[1..])
  }

  /**
   * The same value written as the positional sum `sum_{k < n} b[k] * 256^k`,
   * added up from the most significant byte.
   */
  function LeSum(bytes: seq<Byte>): nat
  {
    if bytes == [] then 0
    else LeSum(bytes[..|bytes| - 1]) + bytes[|bytes| - 1] * Pow256(|bytes| - 1)
  }

  /** `u64::to_le_bytes` generalised to `n` bytes: `x` as `n` little-endian digits. */
  function ToLe(x: nat, n: nat): (bytes: seq<Byte>)
    ensures |bytes| == n
  {
    if n == 0 then [] else [x % 256] + ToLe(x / 256, n - 1)
  }

  /** `n` little-endian bytes hold a value below `256^n`. */
  lemma {:induction false} FromLeBound(bytes: seq<Byte>)
    ensures FromLe(bytes) < Pow256(|bytes|)
  {
    if bytes != [] {
      FromLeBound(bytes[1..]);
      var rest := FromLe(bytes[1..]);
      assert rest + 1 <= Pow256(|bytes| - 1);
      assert 256 * (rest + 1) <= 256 * Pow256(|bytes| - 1);
    }
  }

  /** A byte below a multiple of 256 is its remainder, the multiple its quotient. */
  lemma DivMod256(b: nat, q: nat)
    requires b < 256
    ensures (b + 256 * q) % 256 == b && (b + 256 * q) / 256 == q
  {
  }

  /** A value is its low byte plus 256 times the rest, and the rest shrinks by a factor 256. */
  lemma SplitLowByte(x: nat, p: nat)
    requires x < 256 * p
    ensures x == x % 256 + 256 * (x / 256) && x / 256 < p
  {
  }

  /** Reading bytes, then writing the value back, gives the same bytes. */
  lemma {:induction false} ToLeFromLe(bytes: seq<Byte>)
    ensures ToLe(FromLe(bytes), |bytes|) == bytes
  {
    if bytes != [] {
      DivMod256(bytes[0], FromLe(bytes[1..]));
      ToLeFromLe(bytes[1..]);
    }
  }

  /** Writing a value below `256^n` as `n` bytes, then reading them, gives the value. */
  lemma {:induction false} FromLeToLe(x: nat, n: nat)
    requires x < Pow256(n)
    ensures FromLe(ToLe(x, n)) == x
  {
    if n > 0 {
      var bytes := ToLe(x, n);
      SplitLowByte(x, Pow256(n - 1));
      FromLeToLe(x / 256, n - 1);
      assert bytes[1..] == ToLe(x / 256, n - 1);
      assert bytes[0] == x % 256;
    }
  }

  /** Appending a most significant byte adds it at weight `256^n`. */
  lemma {:induction false} FromLeSnoc(bytes: seq<Byte>, b: Byte)
    ensures FromLe(bytes + [b]) == FromLe(bytes) + b * Pow256(|bytes|)
  {
    if bytes != [] {
      var n := |bytes|;
      var a, c, p := FromLe(bytes[1..]), b, Pow256(n - 1);
      assert (bytes + [b])[1..] == bytes[1..] + [b];
      FromLeSnoc(bytes[1..], b);
      calc {
        FromLe(bytes + [b]);
        bytes[0] + 256 * FromLe(bytes[1..] + [b]);
        bytes[0] + 256 * (a + c * p);
        { Distribute(a, c, p); }
        bytes[0] + 256 * a + c * (256 * p);
      }
    } else {
      assert FromLe([b]) == b + 256 * FromLe([]);
    }
  }

  lemma Distribute(a: nat, c: nat, p: nat)
    ensures 256 * (a + c * p) == 256 * a + c * (256 * p)
  {
  }

  /** The Horner form read by `from_le_bytes` equals the positional sum. */
  lemma {:induction false} FromLeIsSum(bytes: seq<Byte>)
    ensures FromLe(bytes) == LeSum(bytes)
    decreases |bytes|
  {
    if bytes != [] {
      var init := bytes[..|bytes| - 1];
      FromLeIsSum(init);
      assert init + [bytes[|bytes| - 1]] == bytes;
      FromLeSnoc(init, bytes[|bytes| - 1]);
    }
  }

  /**
   * `u64::from_le_bytes` on the first 8 bytes of the digest. The result
   * is the positional sum of those bytes and fits in a `u64`.
   */
  function NetworkIdOf(digest: Digest): (id: U64)
    ensures id == LeSum(digest[..8])
  {
    FromLeBound(digest[..8]);
    assert Pow256(8) == U64_BOUND;
    FromLeIsSum(digest[..8]);
    FromLe(digest[..8])
  }

  /**
   * `Client::get_network_id`: a failed `get_info` is passed on; otherwise
   * the id is decoded from the hash of the UTF-8 bytes of the network id
   * string the node reported.
   */
  function GetNetworkId(info: Result<NodeInfo>, blake2b: seq<Byte> -> Digest): (r: Result<U64>)
    ensures info.Err? ==> r == Err(info.error)
    ensures info.Ok? ==> r.Ok? && r.value == LeSum(blake2b(info.value.networkId)[..8])
  {
    match info
    case Err(e) => Err(e)
    case Ok(i) => Ok(NetworkIdOf(blake2b(i.networkId)))
  }

  /**
   * The id depends on the network id string only: two nodes reporting the
   * same string give the same id.
   */
  lemma NetworkIdDeterministic(i1: NodeInfo, i2: NodeInfo, blake2b: seq<Byte> -> Digest)
    requires i1.networkId == i2.networkId
    ensures GetNetworkId(Ok(i1), blake2b) == GetNetworkId(Ok(i2), blake2b)
  {
  }

  /** The id written back as 8 little-endian bytes is the first 8 bytes of the digest. */
  lemma NetworkIdEncodesDigest(digest: Digest)
    ensures ToLe(NetworkIdOf(digest), 8) == digest[..8]
  {
    ToLeFromLe(digest[..8]);
  }
}

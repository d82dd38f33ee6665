// The unspent-address scan of `GetUnspentAddressBuilder::get`
// (iota-client/src/api/unspent.rs): starting at a cursor, derive the next
// batch of 20 addresses of the wallet chain, query their balances in order,
// and stop at the first address whose balance is zero.

module Unspent {
  import opened Types

  /** Size of every derivation batch (`index..index + 20`). */
  const BATCH: nat := 20

  /** One segment of a BIP-0032 derivation path. */
  datatype Segment = Segment(index: nat, hardened: bool)

  type Bip32Path = seq<Segment>

  type Seed = seq<Byte>

  /** A wallet chain: the seed together with the base derivation path. */
  datatype Chain = Chain(seed: Seed, path: Bip32Path)

  /**
   * The collaborators of the scan: local address derivation from
   * (seed, path, index), and the node's balance endpoint. Both may fail.
   */
  datatype AddressApi = AddressApi(
    derive: (Seed, Bip32Path, nat) -> Result<Address>,
    balance: Address -> Result<U64>)

  /**
   * One pass of the scan as the node and the key store see it: the batch
   * of addresses `lo..lo + 20` was derived, then the balances of the
   * indices in `queried` were requested, in that order.
   */
  datatype Batch = Batch(lo: nat, queried: seq<nat>)

  /** The builder `GetUnspentAddressBuilder`: a seed, an optional path, an optional start index. */
  datatype UnspentAddressQuery = UnspentAddressQuery(seed: Seed, path: Option<Bip32Path>, index: Option<nat>)
  {
    function WithPath(p: Bip32Path): UnspentAddressQuery {
      this.(path := Some(p))
    }

    function WithIndex(i: nat): UnspentAddressQuery {
      this.(index := Some(i))
    }
  }

  /** `GetUnspentAddressBuilder::new`: neither a path nor an index is set. */
  function NewQuery(seed: Seed): UnspentAddressQuery {
    UnspentAddressQuery(seed, None, None)
  }

  /** The first index the scan looks at. */
  function StartIndex(index: Option<nat>): nat {
    match index
    case Some(i) => i
    case None => 0
  }

  /**
   * A new builder has neither a path nor a start index, so the scan starts
   * at 0 unless `index` is given; `path` and `index` each set only their
   * own field.
   */
  lemma BuilderDefaults(seed: Seed, p: Bip32Path, i: nat)
    ensures NewQuery(seed).path.None? && StartIndex(NewQuery(seed).index) == 0
    ensures NewQuery(seed).WithPath(p) == UnspentAddressQuery(seed, Some(p), None)
    ensures StartIndex(NewQuery(seed).WithPath(p).WithIndex(i).index) == i
    ensures NewQuery(seed).WithIndex(i).path.None?
  {
  }

  function AddressAt(api: AddressApi, chain: Chain, k: nat): Result<Address> {
    api.derive(chain.seed, chain.path, k)
  }

  function BalanceOf(api: AddressApi, a: Address): Result<U64> {
    api.balance(a)
  }

  /**
   * The address at `k` is one the scan moves past: it derives and its
   * balance query answers with a non-zero amount.
   */
  predicate Busy(api: AddressApi, chain: Chain, k: nat) {
    && AddressAt(api, chain, k).Ok?
    && BalanceOf(api, AddressAt(api, chain, k).value).Ok?
    && BalanceOf(api, AddressAt(api, chain, k).value).value > 0
  }

  /**
   * Derivation of the `n` addresses `lo..lo + n`, in order; the first
   * failing derivation aborts the whole range with its error.
   */
  function DeriveRange(api: AddressApi, chain: Chain, lo: nat, n: nat): (r: Result<seq<Address>>)
    ensures r.Ok? ==> |r.value| == n
    ensures r.Ok? ==> forall k :: lo <= k < lo + n ==> AddressAt(api, chain, k) == Ok(r.value[k - lo])
    decreases n
  {
    if n == 0 then Ok([])
    else
      match AddressAt(api, chain, lo)
      case Err(e) => Err(e)
      case Ok(a) =>
        match DeriveRange(api, chain, lo + 1, n - 1)
        case Err(e) => Err(e)
        case Ok(rest) => Ok([a] + rest)
  }

  /**
   * A range that fails to derive fails with the error of its lowest index
   * that does not derive; all indices below that one derive.
   */
  lemma {:induction false} DeriveRangeFails(api: AddressApi, chain: Chain, lo: nat, n: nat) returns (bad: nat)
    requires DeriveRange(api, chain, lo, n).Err?
    ensures lo <= bad < lo + n && AddressAt(api, chain, bad) == Err(DeriveRange(api, chain, lo, n).error)
    ensures forall j :: lo <= j < bad ==> AddressAt(api, chain, j).Ok?
    decreases n
  {
    if AddressAt(api, chain, lo).Err? {
      bad := lo;
    } else {
      bad := DeriveRangeFails(api, chain, lo + 1, n - 1);
    }
  }

  /**
   * The lowest index at or above `k` that the scan does not move past.
   * `stop` is any index known not to be busy; it bounds the search.
   */
  function FirstStop(api: AddressApi, chain: Chain, k: nat, stop: nat): (r: nat)
    requires k <= stop && !Busy(api, chain, stop)
    ensures k <= r <= stop && !Busy(api, chain, r)
    ensures forall j :: k <= j < r ==> Busy(api, chain, j)
    decreases stop - k
  {
    if Busy(api, chain, k) then FirstStop(api, chain, k + 1, stop) else k
  }

  /** `lo` is a batch start of a scan begun at `start`: `start + 20 * m` for some `m`. */
  predicate Aligned(start: nat, lo: nat)
    decreases lo
  {
    lo == start || (lo >= start + BATCH && Aligned(start, lo - BATCH))
  }

  /** The start of the batch that holds index `k` in a scan begun at `start`. */
  function BatchOf(start: nat, k: nat): (b: nat)
    requires start <= k
    ensures start <= b <= k < b + BATCH && Aligned(start, b)
    decreases k
  {
    if k < start + BATCH then start else BatchOf(start, k - BATCH) + BATCH
  }

  /** The indices `lo..hi`, ascending. */
  function Range(lo: nat, hi: nat): (r: seq<nat>)
    ensures |r| == if lo <= hi then hi - lo else 0
    decreases hi
  {
    if hi <= lo then [] else Range(lo, hi - 1) + [hi - 1]
  }

  /**
   * The passes of a scan from `start` that has moved past every index
   * below the batch start `lo`: each whole batch derived and all 20 of its
   * balances queried.
   */
  function FullBatches(start: nat, lo: nat): seq<Batch>
    decreases lo
  {
    if lo < start + BATCH then []
    else FullBatches(start, lo - BATCH) + [Batch(lo - BATCH, Range(lo - BATCH, lo))]
  }

  /**
   * The outcome of a scan from `start` and the steps it takes, stated
   * without the loop: everything hinges on the first index `k` the scan
   * cannot move past. Its batch is derived; if that derivation fails the
   * scan fails with it; otherwise the balance of `k` is queried, and it is
   * either an error, which ends the scan, or zero, and `k` is the answer.
   */
  function ScanSpec(api: AddressApi, chain: Chain, start: nat, stop: nat): (Result<(Address, nat)>, seq<Batch>)
    requires start <= stop && !Busy(api, chain, stop)
  {
    var k := FirstStop(api, chain, start, stop);
    ScanAt(api, chain, start, BatchOf(start, k), k)
  }

  /** The outcome and steps of a scan from `start` that stops at `k`, in the batch at `b`. */
  function ScanAt(api: AddressApi, chain: Chain, start: nat, b: nat, k: nat): (Result<(Address, nat)>, seq<Batch>)
    requires b <= k < b + BATCH
  {
    match DeriveRange(api, chain, b, BATCH)
    case Err(e) => (Err(e), FullBatches(start, b) + [Batch(b, [])])
    case Ok(_) =>
      var a := AddressAt(api, chain, k).value;
      var steps := FullBatches(start, b) + [Batch(b, Range(b, k + 1))];
      match BalanceOf(api, a)
      case Err(e) => (Err(e), steps)
      case Ok(_) => (Ok((a, k)), steps)
  }

  /** An index that is not busy, reached through busy indices only, is the first stop. */
  lemma FirstStopIs(api: AddressApi, chain: Chain, start: nat, stop: nat, k: nat)
    requires start <= k && start <= stop && !Busy(api, chain, stop)
    requires !Busy(api, chain, k)
    requires forall j :: start <= j < k ==> Busy(api, chain, j)
    ensures FirstStop(api, chain, start, stop) == k
  {
  }

  /** An index `k` within the batch that starts at `b` belongs to that batch. */
  lemma {:induction false} BatchOfWithin(start: nat, b: nat, k: nat)
    requires start <= b <= k < b + BATCH && Aligned(start, b)
    ensures BatchOf(start, k) == b
    decreases b
  {
    if b != start {
      BatchOfWithin(start, b - BATCH, k - BATCH);
    }
  }

  /**
   * A scan that moves past every index in `start..k`, stops at `k`, and
   * whose batches start every 20 indices from `start` with `b` the one
   * holding `k`, is the scan of `ScanAt`.
   */
  lemma ScanSpecAt(api: AddressApi, chain: Chain, start: nat, stop: nat, b: nat, k: nat)
    requires start <= b <= k < b + BATCH && Aligned(start, b)
    requires start <= stop && !Busy(api, chain, stop)
    requires !Busy(api, chain, k) && forall j :: start <= j < k ==> Busy(api, chain, j)
    ensures ScanSpec(api, chain, start, stop) == ScanAt(api, chain, start, b, k)
  {
    FirstStopIs(api, chain, start, stop, k);
    BatchOfWithin(start, b, k);
  }

  /** A scan whose batch at `b` fails to derive ends there, with that error. */
  lemma ScanSpecDeriveFails(api: AddressApi, chain: Chain, start: nat, stop: nat, b: nat)
    requires start <= b <= stop && !Busy(api, chain, stop) && Aligned(start, b)
    requires forall j :: start <= j < b ==> Busy(api, chain, j)
    requires DeriveRange(api, chain, b, BATCH).Err?
    ensures ScanSpec(api, chain, start, stop) == ScanAt(api, chain, start, b, b)
  {
    var k := FirstStop(api, chain, start, stop);
    var bad := DeriveRangeFails(api, chain, b, BATCH);
    assert !Busy(api, chain, bad);
    ScanSpecAt(api, chain, start, stop, b, k);
  }

  /**
   * The inner loop of `GetUnspentAddressBuilder::get` over one derived
   * batch whose first address has index `index`: query each balance in
   * order, bump the cursor past every non-zero balance, stop at the first
   * zero. The result is the cursor and the zero-balance address, if any;
   * a failed balance query aborts with its error. `steps` are the queries.
   */
  method QueryBatch(api: AddressApi, addresses: seq<Address>, index: nat)
    returns (r: Result<(nat, Option<Address>)>, ghost steps: seq<nat>)
    ensures 0 < |steps| <= |addresses| || (steps == [] && addresses == [] && r == Ok((index, None)))
    ensures steps == Range(index, index + |steps|)
    ensures forall i :: 0 <= i < |steps| - 1 ==> BalanceOf(api, addresses[i]).Ok? && BalanceOf(api, addresses[i]).value > 0
    ensures r.Err? ==> BalanceOf(api, addresses[|steps| - 1]) == Err(r.error)
    ensures r.Ok? && r.value.1.Some? ==>
              r.value == (index + |steps| - 1, Some(addresses[|steps| - 1]))
              && BalanceOf(api, addresses[|steps| - 1]) == Ok(0)
    ensures r.Ok? && r.value.1.None? ==> |steps| == |addresses|
    ensures r.Ok? && r.value.1.None? ==>
              r.value.0 == index + |addresses|
              && forall i :: 0 <= i < |addresses| ==> BalanceOf(api, addresses[i]).Ok? && BalanceOf(api, addresses[i]).value > 0
    ensures r.Ok? && r.value.1.Some? ==>
              && index <= r.value.0 < index + |addresses|
              && r.value.1.value == addresses[r.value.0 - index]
              && BalanceOf(api, addresses[r.value.0 - index]) == Ok(0)
              && forall i :: 0 <= i < r.value.0 - index ==> BalanceOf(api, addresses[i]).Ok? && BalanceOf(api, addresses[i]).value > 0
    ensures r.Err? ==> exists i :: 0 <= i < |addresses| && BalanceOf(api, addresses[i]) == Err(r.error)
  {
    var cursor := index;
    var address: Option<Address> := None;
    steps := [];
    for j := 0 to |addresses|
      invariant cursor == index + j
      invariant steps == Range(index, index + j)
      invariant forall i :: 0 <= i < j ==> BalanceOf(api, addresses[i]).Ok? && BalanceOf(api, addresses[i]).value > 0
    {
      var balance := BalanceOf(api, addresses[j]);
      steps := steps + [cursor];
      if balance.Err? {
        return Err(balance.error), steps;
      }
      if balance.value == 0 {
        address := Some(addresses[j]);
        break;
      }
      cursor := cursor + 1;
    }
    r := Ok((cursor, address));
  }

  /**
   * One pass of the outer loop of `GetUnspentAddressBuilder::get`: derive
   * the batch of 20 addresses starting at the cursor `index` and query their
   * balances. Either the scan ends here (`Some`), with the scan's result,
   * or every address of the batch is busy (`None`) and the next batch
   * starts at `next`.
   */
  method ScanBatch(api: AddressApi, chain: Chain, ghost start: nat, index: nat)
    returns (r: Option<Result<(Address, nat)>>, next: nat, ghost batch: Batch, ghost k: nat)
    ensures r.Some? ==> index <= k < index + BATCH
    ensures r.Some? ==> (r.value, FullBatches(start, index) + [batch]) == ScanAt(api, chain, start, index, k)
    ensures r.Some? && DeriveRange(api, chain, index, BATCH).Ok? ==>
              !Busy(api, chain, k) && forall j :: index <= j < k ==> Busy(api, chain, j)
    ensures r.None? ==> next == index + BATCH && batch == Batch(index, Range(index, next))
    ensures r.None? ==> forall j :: index <= j < next ==> Busy(api, chain, j)
  {
    var addresses := DeriveRange(api, chain, index, BATCH);
    if addresses.Err? {
      ScanAtDeriveFails(api, chain, start, index, index);
      return Some(Err(addresses.error)), index, Batch(index, []), index;
    }
    var outcome, queried := QueryBatch(api, addresses.value, index);
    batch := Batch(index, queried);
    BatchAllBusy(api, chain, addresses.value, index, |queried| - 1);
    if outcome.Err? || outcome.value.1.Some? {
      k := index + |queried| - 1;
      ScanAtStops(api, chain, start, index, k, addresses.value);
      if outcome.Err? {
        return Some(Err(outcome.error)), index, batch, k;
      }
      return Some(Ok((outcome.value.1.value, outcome.value.0))), index, batch, k;
    }
    BatchAllBusy(api, chain, addresses.value, index, BATCH);
    return None, outcome.value.0, batch, index;
  }

  /** A scan whose batch at `b` fails to derive fails with that error. */
  lemma ScanAtDeriveFails(api: AddressApi, chain: Chain, start: nat, b: nat, k: nat)
    requires b <= k < b + BATCH && DeriveRange(api, chain, b, BATCH).Err?
    ensures ScanAt(api, chain, start, b, k) == (Err(DeriveRange(api, chain, b, BATCH).error), FullBatches(start, b) + [Batch(b, [])])
  {
  }

  /** A scan whose batch at `b` derives as `addresses` and which stops at `k` in it. */
  lemma ScanAtStops(api: AddressApi, chain: Chain, start: nat, b: nat, k: nat, addresses: seq<Address>)
    requires b <= k < b + BATCH && DeriveRange(api, chain, b, BATCH) == Ok(addresses)
    ensures AddressAt(api, chain, k) == Ok(addresses[k - b])
    ensures ScanAt(api, chain, start, b, k).1 == FullBatches(start, b) + [Batch(b, Range(b, k + 1))]
    ensures BalanceOf(api, addresses[k - b]).Err? ==> ScanAt(api, chain, start, b, k).0 == Err(BalanceOf(api, addresses[k - b]).error)
    ensures BalanceOf(api, addresses[k - b]).Ok? ==> ScanAt(api, chain, start, b, k).0 == Ok((addresses[k - b], k))
  {
  }

  /**
   * `GetUnspentAddressBuilder::get`. `stop` is a ghost witness that the scan
   * ends: some index at or after the start is not busy (the source loops
   * forever otherwise). `log` records the derivations and balance queries.
   */
  method GetUnspentAddress(api: AddressApi, q: UnspentAddressQuery, ghost stop: nat)
    returns (r: Result<(Address, nat)>, ghost log: seq<Batch>)
    requires q.path.Some? ==> StartIndex(q.index) <= stop && !Busy(api, Chain(q.seed, q.path.value), stop)
    ensures q.path.None? ==> r == Err(MissingParameter("BIP32 path")) && log == []
    ensures q.path.Some? ==> r == ScanSpec(api, Chain(q.seed, q.path.value), StartIndex(q.index), stop).0
    ensures q.path.Some? ==> log == ScanSpec(api, Chain(q.seed, q.path.value), StartIndex(q.index), stop).1
  {
    if q.path.None? {
      return Err(MissingParameter("BIP32 path")), [];
    }
    var chain := Chain(q.seed, q.path.value);
    var start := StartIndex(q.index);
    var index := start;
    log := [];
    while true
      invariant start <= index <= stop
      invariant Aligned(start, index)
      invariant forall j :: start <= j < index ==> Busy(api, chain, j)
      invariant log == FullBatches(start, index)
      decreases stop - index
    {
      var outcome, next, batch, k := ScanBatch(api, chain, start, index);
      if outcome.Some? {
        if DeriveRange(api, chain, index, BATCH).Err? {
          ScanSpecDeriveFails(api, chain, start, stop, index);
        } else {
          ScanSpecAt(api, chain, start, stop, index, k);
        }
        return outcome.value, log + [batch];
      }
      log := log + [batch];
      index := next;
    }
  }

  /** Addresses of a derived batch whose balances are non-zero are busy. */
  lemma BatchAllBusy(api: AddressApi, chain: Chain, addresses: seq<Address>, lo: nat, n: nat)
    requires n <= |addresses|
    requires forall k :: lo <= k < lo + |addresses| ==> AddressAt(api, chain, k) == Ok(addresses[k - lo])
    requires forall i :: 0 <= i < n ==> BalanceOf(api, addresses[i]).Ok? && BalanceOf(api, addresses[i]).value > 0
    ensures forall k :: lo <= k < lo + n ==> Busy(api, chain, k)
  {
    forall k | lo <= k < lo + n ensures Busy(api, chain, k) {
      assert AddressAt(api, chain, k) == Ok(addresses[k - lo]);
    }
  }

  // ---------------------------------------------------------------------
  // What a scan does, read off its passes.

  /**
   * The passes start at `start` and each batch begins exactly where the
   * one before it ends: no gap and no overlap.
   */
  predicate Contiguous(log: seq<Batch>, start: nat) {
    && (|log| > 0 ==> log[0].lo == start)
    && forall t :: 0 < t < |log| ==> log[t].lo == log[t - 1].lo + BATCH
  }

  /** Every address of the batch had its balance queried, in order. */
  predicate Exhausted(batch: Batch) {
    batch.queried == Range(batch.lo, batch.lo + BATCH)
  }

  /** The indices of `Range(lo, hi)` are those from `lo` up to, not including, `hi`. */
  lemma {:induction false} RangeMembers(lo: nat, hi: nat)
    ensures forall i :: i in Range(lo, hi) <==> lo <= i < hi
    decreases hi
  {
    if lo < hi {
      RangeMembers(lo, hi - 1);
    }
  }

  /**
   * The whole batches below an aligned `lo` are contiguous from `start`,
   * each exhausted, and the last of them ends at `lo`.
   */
  lemma {:induction false} FullBatchesShape(start: nat, lo: nat)
    requires start <= lo && Aligned(start, lo)
    ensures Contiguous(FullBatches(start, lo), start)
    ensures forall t :: 0 <= t < |FullBatches(start, lo)| ==> Exhausted(FullBatches(start, lo)[t])
    ensures |FullBatches(start, lo)| == 0 <==> lo == start
    ensures |FullBatches(start, lo)| > 0 ==> FullBatches(start, lo)[|FullBatches(start, lo)| - 1].lo + BATCH == lo
    decreases lo
  {
    if lo != start {
      FullBatchesShape(start, lo - BATCH);
    }
  }

  /**
   * The passes of every scan. Let `k` be the first index the scan cannot
   * move past and `b` the start of its batch. The batches derived are those
   * from `start` to `b`, one after the other; every batch before `b` had all
   * its balances queried; in the batch at `b` the balances of `b..k + 1`
   * were queried, in order, when it derived, and none when it did not.
   */
  lemma ScanSpecSteps(api: AddressApi, chain: Chain, start: nat, stop: nat)
    requires start <= stop && !Busy(api, chain, stop)
    ensures var k := FirstStop(api, chain, start, stop);
            var b := BatchOf(start, k);
            var log := ScanSpec(api, chain, start, stop).1;
            && |log| > 0 && Contiguous(log, start) && log[|log| - 1].lo == b
            && (forall t :: 0 <= t < |log| - 1 ==> Exhausted(log[t]))
            && (DeriveRange(api, chain, b, BATCH).Ok? ==> log[|log| - 1].queried == Range(b, k + 1))
            && (DeriveRange(api, chain, b, BATCH).Err? ==> log[|log| - 1].queried == [])
  {
    var k := FirstStop(api, chain, start, stop);
    var b := BatchOf(start, k);
    var last := Batch(b, if DeriveRange(api, chain, b, BATCH).Ok? then Range(b, k + 1) else []);
    if DeriveRange(api, chain, b, BATCH).Ok? {
      ScanAtStops(api, chain, start, b, k, DeriveRange(api, chain, b, BATCH).value);
    } else {
      ScanAtDeriveFails(api, chain, start, b, k);
    }
    assert ScanSpec(api, chain, start, stop).1 == FullBatches(start, b) + [last];
    LogShape(start, b, last);
  }

  /** The whole batches below `b` followed by any pass at `b` form a contiguous log. */
  lemma LogShape(start: nat, b: nat, last: Batch)
    requires start <= b && Aligned(start, b) && last.lo == b
    ensures var log := FullBatches(start, b) + [last];
            && Contiguous(log, start) && log[|log| - 1] == last
            && forall t :: 0 <= t < |log| - 1 ==> Exhausted(log[t])
  {
    FullBatchesShape(start, b);
  }

  /**
   * No scan looks past the first index it cannot move past: every batch
   * it derives starts at or below `k`, and every balance it queries is of
   * an index in `start..k + 1`.
   */
  lemma ScanSpecLooksNoFurther(api: AddressApi, chain: Chain, start: nat, stop: nat)
    requires start <= stop && !Busy(api, chain, stop)
    ensures var k := FirstStop(api, chain, start, stop);
            var log := ScanSpec(api, chain, start, stop).1;
            forall t, i :: 0 <= t < |log| && i in log[t].queried ==> log[t].lo <= k && start <= i <= k
  {
    var k := FirstStop(api, chain, start, stop);
    ScanSpecSteps(api, chain, start, stop);
    LogBounded(ScanSpec(api, chain, start, stop).1, start, BatchOf(start, k), k);
  }

  /**
   * A contiguous log from `start` whose last batch, at `b`, queried at
   * most `b..k + 1` and whose earlier batches were exhausted never touched
   * an index outside `start..k + 1`.
   */
  lemma LogBounded(log: seq<Batch>, start: nat, b: nat, k: nat)
    requires |log| > 0 && Contiguous(log, start) && log[|log| - 1].lo == b && b <= k
    requires forall t :: 0 <= t < |log| - 1 ==> Exhausted(log[t])
    requires log[|log| - 1].queried == Range(b, k + 1) || log[|log| - 1].queried == []
    ensures forall t, i :: 0 <= t < |log| && i in log[t].queried ==> log[t].lo <= k && start <= i <= k
  {
    LogWithin(log, start, b);
    forall t, i | 0 <= t < |log| && i in log[t].queried
      ensures log[t].lo <= k && start <= i <= k
    {
      RangeMembers(log[t].lo, log[t].lo + BATCH);
      RangeMembers(b, k + 1);
    }
  }

  /**
   * In a contiguous log whose last batch starts at `b`, every pass starts
   * at or above `start`, and every batch before the last ends by `b`.
   */
  lemma {:induction false} LogWithin(log: seq<Batch>, start: nat, b: nat)
    requires |log| > 0 && Contiguous(log, start) && log[|log| - 1].lo == b
    ensures start <= b
    ensures forall t :: 0 <= t < |log| - 1 ==> start <= log[t].lo && log[t].lo + BATCH <= b
    decreases |log|
  {
    if |log| > 1 {
      var init := log[..|log| - 1];
      assert Contiguous(init, start);
      LogWithin(init, start, log[|log| - 2].lo);
    }
  }

  /**
   * A scan that succeeds with `(a, i)` found the lowest index at or above
   * `start` whose address has a zero balance: `a` is derived at `i`, its
   * balance is zero, and every address in `start..i` derived with a
   * non-zero balance.
   */
  lemma ScanSpecFound(api: AddressApi, chain: Chain, start: nat, stop: nat)
    requires start <= stop && !Busy(api, chain, stop)
    requires ScanSpec(api, chain, start, stop).0.Ok?
    ensures var (a, i) := ScanSpec(api, chain, start, stop).0.value;
            && start <= i
            && AddressAt(api, chain, i) == Ok(a)
            && BalanceOf(api, a) == Ok(0)
            && forall j :: start <= j < i ==> Busy(api, chain, j)
  {
    var k := FirstStop(api, chain, start, stop);
    var b := BatchOf(start, k);
    ScanAtStops(api, chain, start, b, k, DeriveRange(api, chain, b, BATCH).value);
  }

  /**
   * A scan that fails reports an error that a derivation in the batch of
   * `k` or the balance query of `k` itself returned.
   */
  lemma ScanSpecFails(api: AddressApi, chain: Chain, start: nat, stop: nat)
    requires start <= stop && !Busy(api, chain, stop)
    requires ScanSpec(api, chain, start, stop).0.Err?
    ensures var k := FirstStop(api, chain, start, stop);
            var b := BatchOf(start, k);
            var e := ScanSpec(api, chain, start, stop).0.error;
            || (exists j :: b <= j < b + BATCH && AddressAt(api, chain, j) == Err(e))
            || (AddressAt(api, chain, k).Ok? && BalanceOf(api, AddressAt(api, chain, k).value) == Err(e))
  {
    var k := FirstStop(api, chain, start, stop);
    var b := BatchOf(start, k);
    if DeriveRange(api, chain, b, BATCH).Ok? {
      ScanAtStops(api, chain, start, b, k, DeriveRange(api, chain, b, BATCH).value);
    } else {
      var bad := DeriveRangeFails(api, chain, b, BATCH);
      ScanAtDeriveFails(api, chain, start, b, k);
    }
  }

  /** The witness `stop` only bounds the search: any two give the same scan. */
  lemma ScanSpecWitnessIrrelevant(api: AddressApi, chain: Chain, start: nat, stop1: nat, stop2: nat)
    requires start <= stop1 && !Busy(api, chain, stop1)
    requires start <= stop2 && !Busy(api, chain, stop2)
    ensures ScanSpec(api, chain, start, stop1) == ScanSpec(api, chain, start, stop2)
  {
  }
}

/** The post-fetch half of the chain client (internal/client/client.go):
    the range guard, the collection of fetched blocks, the exchange sort by
    height and the conversion to `BlockInfo` with per-block gaps, plus the
    constructor's defaults. The concurrent fan-out is modelled as a
    sequential pass over the heights. */
module Client {
  import opened Errors
  import opened Types
  import opened Ordering
  import Calculator

  /** The fields of a node block the client reads. */
  datatype RawBlock = RawBlock(height: int, time: real, hash: string, proposer: string, txCount: nat)

  /** The node's answer for one height: an error, a nil block, or a block. */
  datatype FetchOutcome = Failed(error: Error) | Missing | Fetched(block: RawBlock)

  // ---------------------------------------------------------------------
  // Constructor

  /** The connection settings a new client runs with: an empty endpoint is
      rejected; a zero timeout, retry count or retry delay gets its default
      (30 s, 3, 1 s) and every other setting is kept. */
  function NewCosmosSDKClient(config: ChainConfig): (r: Result<ChainConfig>)
    ensures r.Err? <==> config.rpcEndpoint == ""
    ensures r.Err? ==> r.error == MissingEndpoint
    ensures r.Ok? ==>
      && r.value.timeout == (if config.timeout == 0 then 30 * Second else config.timeout)
      && r.value.maxRetries == (if config.maxRetries == 0 then 3 else config.maxRetries)
      && r.value.retryDelay == (if config.retryDelay == 0 then Second else config.retryDelay)
      && r.value.rpcEndpoint == config.rpcEndpoint
      && r.value.grpcEndpoint == config.grpcEndpoint
      && r.value.chainId == config.chainId
  {
    if config.rpcEndpoint == "" then Err(MissingEndpoint)
    else
      var c := config;
      var c := if c.timeout == 0 then c.(timeout := 30 * Second) else c;
      var c := if c.maxRetries == 0 then c.(maxRetries := 3) else c;
      var c := if c.retryDelay == 0 then c.(retryDelay := Second) else c;
      Ok(c)
  }

  /** Applying the defaults twice changes nothing. */
  lemma NewCosmosSDKClientIdempotent(config: ChainConfig)
    requires NewCosmosSDKClient(config).Ok?
    ensures NewCosmosSDKClient(NewCosmosSDKClient(config).value) == NewCosmosSDKClient(config)
  {
  }

  // ---------------------------------------------------------------------
  // Collecting a range

  /** The blocks of heights startHeight..endHeight, or the wrapped error of
      a failed height. Nil blocks are dropped without an error. */
  function Collect(startHeight: int, endHeight: int, fetch: int -> FetchOutcome): (r: Result<seq<RawBlock>>)
    ensures r.Ok? <==> forall h :: startHeight <= h <= endHeight ==> !fetch(h).Failed?
    ensures r.Err? ==> exists h :: (startHeight <= h <= endHeight && fetch(h).Failed?
      && r.error == Wrapped(BlockQuery(h), fetch(h).error))
    ensures r.Ok? ==> forall b :: b in r.value <==>
      exists h :: startHeight <= h <= endHeight && fetch(h) == Fetched(b)
    ensures r.Ok? ==> |r.value| <= (if startHeight <= endHeight then endHeight - startHeight + 1 else 0)
    decreases endHeight - startHeight
  {
    if startHeight > endHeight then Ok([])
    else
      var rest := Collect(startHeight + 1, endHeight, fetch);
      match fetch(startHeight)
      case Failed(e) => Err(Wrapped(BlockQuery(startHeight), e))
      case Missing => rest
      case Fetched(b) =>
        if rest.Err? then rest else Ok([b] + rest.value)
  }

  /** The heights of the range whose fetch returned block `b`. */
  function FetchedHeights(b: RawBlock, startHeight: int, endHeight: int, fetch: int -> FetchOutcome): set<int> {
    set h | startHeight <= h <= endHeight && fetch(h) == Fetched(b)
  }

  /** A collected range holds each block once for every height that
      returned it, and nothing else. */
  lemma {:induction false} CollectCounts(startHeight: int, endHeight: int, fetch: int -> FetchOutcome)
    requires Collect(startHeight, endHeight, fetch).Ok?
    ensures forall b ::
      multiset(Collect(startHeight, endHeight, fetch).value)[b] == |FetchedHeights(b, startHeight, endHeight, fetch)|
    decreases endHeight - startHeight
  {
    if startHeight > endHeight {
      forall b ensures FetchedHeights(b, startHeight, endHeight, fetch) == {} {
      }
    } else {
      var r := Collect(startHeight, endHeight, fetch);
      var rest := Collect(startHeight + 1, endHeight, fetch);
      assert rest.Ok?;
      CollectCounts(startHeight + 1, endHeight, fetch);
      forall b ensures multiset(r.value)[b] == |FetchedHeights(b, startHeight, endHeight, fetch)| {
        FetchedHeightsStep(b, startHeight, endHeight, fetch);
        if fetch(startHeight).Fetched? {
          assert r.value == [fetch(startHeight).block] + rest.value;
        } else {
          assert r.value == rest.value;
        }
      }
    }
  }

  /** Peeling the first height off the range. */
  lemma FetchedHeightsStep(b: RawBlock, startHeight: int, endHeight: int, fetch: int -> FetchOutcome)
    requires startHeight <= endHeight
    ensures |FetchedHeights(b, startHeight, endHeight, fetch)|
      == (if fetch(startHeight) == Fetched(b) then 1 else 0) + |FetchedHeights(b, startHeight + 1, endHeight, fetch)|
  {
    var rest := FetchedHeights(b, startHeight + 1, endHeight, fetch);
    var here: set<int> := if fetch(startHeight) == Fetched(b) then {startHeight} else {};
    assert FetchedHeights(b, startHeight, endHeight, fetch) == here + rest;
    assert here !! rest;
  }

  /** A node that has no block at any height yields an empty collection. */
  lemma NilBlocksCollectNothing(startHeight: int, endHeight: int, fetch: int -> FetchOutcome)
    requires forall h :: startHeight <= h <= endHeight ==> fetch(h) == Missing
    ensures Collect(startHeight, endHeight, fetch) == Ok([])
  {
    var r := Collect(startHeight, endHeight, fetch);
    CollectCounts(startHeight, endHeight, fetch);
    forall b ensures multiset(r.value)[b] == 0 {
      assert FetchedHeights(b, startHeight, endHeight, fetch) == {};
    }
    assert multiset(r.value) == multiset{};
  }

  // ---------------------------------------------------------------------
  // Exchange sort by height

  predicate HeightOrdered(s: seq<RawBlock>) {
    forall i, j :: 0 <= i < j < |s| ==> s[i].height <= s[j].height
  }

  /** The source's nested exchange loop: for each position i, swap any later
      block of lower height into it. */
  method SortByHeight(blocks: seq<RawBlock>) returns (sorted: seq<RawBlock>)
    ensures HeightOrdered(sorted)
    ensures multiset(sorted) == multiset(blocks)
  {
    var a := new RawBlock[|blocks|](k requires 0 <= k < |blocks| => blocks[k]);
    assert a[..] == blocks;
    var i := 0;
    while i < a.Length - 1
      invariant 0 <= i <= a.Length
      invariant multiset(a[..]) == multiset(blocks)
      invariant forall p, q :: 0 <= p < i && p < q < a.Length ==> a[p].height <= a[q].height
    {
      var j := i + 1;
      while j < a.Length
        invariant i + 1 <= j <= a.Length
        invariant multiset(a[..]) == multiset(blocks)
        invariant forall p, q :: 0 <= p < i && p < q < a.Length ==> a[p].height <= a[q].height
        invariant forall q :: i < q < j ==> a[i].height <= a[q].height
      {
        if a[i].height > a[j].height {
          Swap(a, i, j);
        }
        j := j + 1;
      }
      i := i + 1;
    }
    sorted := a[..];
  }

  /** Exchanges two entries; the blocks as a bag are unchanged. */
  method Swap(a: array<RawBlock>, i: int, j: int)
    requires 0 <= i < j < a.Length
    modifies a
    ensures a[i] == old(a[j]) && a[j] == old(a[i])
    ensures forall k :: 0 <= k < a.Length && k != i && k != j ==> a[k] == old(a[k])
    ensures multiset(a[..]) == multiset(old(a[..]))
  {
    ghost var before := a[..];
    a[i], a[j] := a[j], a[i];
    assert a[..] == before[i := before[j]][j := before[i]];
  }

  // ---------------------------------------------------------------------
  // Conversion

  function Raw(b: BlockInfo): RawBlock {
    RawBlock(b.height, b.time, b.hash, b.proposer, b.txCount)
  }

  function RawAll(s: seq<BlockInfo>): (r: seq<RawBlock>)
    ensures |r| == |s|
  {
    seq(|s|, i requires 0 <= i < |s| => Raw(s[i]))
  }

  function BlockTimes(s: seq<BlockInfo>): (r: seq<real>)
    ensures |r| == |s|
    ensures forall i :: 0 <= i < |s| ==> r[i] == s[i].blockTime
  {
    seq(|s|, i requires 0 <= i < |s| => s[i].blockTime)
  }

  /** One `BlockInfo` per block, fields copied; the block time is the gap to
      the previous block of the list, 0 for the first, and may be ≤ 0. */
  function ToBlockInfos(sorted: seq<RawBlock>): (r: seq<BlockInfo>)
    ensures RawAll(r) == sorted
    ensures |r| == |sorted|
    ensures forall i :: 0 <= i < |r| ==> r[i].time == sorted[i].time
    ensures |r| > 0 ==> r[0].blockTime == 0.0
    ensures forall i :: 0 < i < |r| ==> r[i].blockTime == sorted[i].time - sorted[i - 1].time
  {
    seq(|sorted|, i requires 0 <= i < |sorted| =>
      var b := sorted[i];
      BlockInfo(b.height, b.time, b.hash, b.proposer, b.txCount,
        if i > 0 then b.time - sorted[i - 1].time else 0.0))
  }

  /** The block times of a converted list add up to the time spanned from
      its first block to its last. */
  lemma {:induction false} BlockTimesTelescope(sorted: seq<RawBlock>, n: nat)
    requires 0 < n <= |sorted|
    ensures Sum(BlockTimes(ToBlockInfos(sorted))[..n]) == sorted[n - 1].time - sorted[0].time
  {
    var bt := BlockTimes(ToBlockInfos(sorted));
    if n == 1 {
      assert bt[..1] == [0.0];
      assert Sum([0.0]) == 0.0 + Sum([]);
    } else {
      BlockTimesTelescope(sorted, n - 1);
      assert bt[n - 1] == sorted[n - 1].time - sorted[n - 2].time;
      SumOfLongerPrefix(bt, n);
    }
  }

  /** The calculator's series recomputed from the times of a converted list
      is exactly its positive block times after the first: the client's
      `BlockTime` and the calculator's deltas agree. */
  lemma DeltasMatchBlockTimes(sorted: seq<RawBlock>)
    requires |sorted| > 0
    ensures Calculator.Deltas(ToBlockInfos(sorted))
      == Filter(BlockTimes(ToBlockInfos(sorted))[1..], Calculator.Positive)
  {
    var infos := ToBlockInfos(sorted);
    Calculator.DeltasArePositiveGaps(infos);
    GapsAreBlockTimes(sorted);
  }

  lemma GapsAreBlockTimes(sorted: seq<RawBlock>)
    requires |sorted| > 0
    ensures Calculator.Gaps(ToBlockInfos(sorted)) == BlockTimes(ToBlockInfos(sorted))[1..]
  {
    var infos := ToBlockInfos(sorted);
    var g := Calculator.Gaps(infos);
    var times := BlockTimes(infos);
    var bt := times[1..];
    assert |g| == |bt|;
    forall i | 0 <= i < |g| ensures g[i] == bt[i] {
      calc {
        g[i];
        infos[i + 1].time - infos[i].time;
        sorted[i + 1].time - sorted[i].time;
        infos[i + 1].blockTime;
        times[i + 1];
        bt[i];
      }
    }
  }

  // ---------------------------------------------------------------------
  // GetBlockRange

  /** `GetBlockRange`: rejects start > end before any request, fails if any
      height fails, otherwise returns the fetched blocks in ascending height
      order with their block times. */
  method GetBlockRange(startHeight: int, endHeight: int, fetch: int -> FetchOutcome) returns (r: Result<seq<BlockInfo>>)
    ensures startHeight > endHeight ==> r == Err(InvalidRange(startHeight, endHeight))
    ensures startHeight <= endHeight && Collect(startHeight, endHeight, fetch).Err? ==>
      r == Err(Collect(startHeight, endHeight, fetch).error)
    ensures r.Ok? <==> startHeight <= endHeight && Collect(startHeight, endHeight, fetch).Ok?
    ensures r.Ok? ==>
      && multiset(RawAll(r.value)) == multiset(Collect(startHeight, endHeight, fetch).value)
      && HeightOrdered(RawAll(r.value))
      && (|r.value| > 0 ==> r.value[0].blockTime == 0.0)
      && (forall i :: 0 < i < |r.value| ==> r.value[i].blockTime == r.value[i].time - r.value[i - 1].time)
  {
    if startHeight > endHeight {
      return Err(InvalidRange(startHeight, endHeight));
    }
    var collected := Collect(startHeight, endHeight, fetch);
    if collected.Err? {
      return Err(collected.error);
    }
    var sorted := SortByHeight(collected.value);
    r := Ok(ToBlockInfos(sorted));
  }

  /** When every height of a valid range comes back as a nil block, the
      range is returned as an empty list without an error: the input on
      which the calculator's series buffer is allocated with capacity −1. */
  method AllNilRange(startHeight: int, endHeight: int) returns (r: Result<seq<BlockInfo>>)
    requires startHeight <= endHeight
    ensures r == Ok([])
  {
    var fetch := (h: int) => Missing;
    NilBlocksCollectNothing(startHeight, endHeight, fetch);
    r := GetBlockRange(startHeight, endHeight, fetch);
    assert multiset(RawAll(r.value)) == multiset{};
    assert |RawAll(r.value)| == |multiset(RawAll(r.value))| == 0;
  }
}

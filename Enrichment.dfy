/**
 * `enrich_trades_with_asset_metadata` of data_handler.py: every trade that
 * has a (truthy) `pair` receives `base` and `wsname`, taken from the cached
 * asset-pair document and normalised through two fixed maps, or, when no
 * document is cached for the pair, both set to the pair itself. The trades
 * are updated in place; a warning is issued once per distinct missing pair.
 */
module Enrichment {
  import opened Wrappers
  import opened PyValues
  import opened MongoDb

  /** Raw base asset codes and their common names. */
  const BaseTransformMap: map<string, string> := map[
    "XXDG" := "DOGE",
    "XETC" := "ETC",
    "XETH" := "ETH",
    "XLTC" := "LTC",
    "XMLN" := "MLN",
    "XREP" := "REP",
    "XXBT" := "BTC",
    "XXLM" := "XLM",
    "XXMR" := "XMR",
    "XXRP" := "XRP",
    "XZEC" := "ZEC"
  ]

  /** Raw websocket pair names and their common names. */
  const WsnameTransformMap: map<string, string> := map[
    "XCN/USD" := "XCN/USD",
    "XDG/USD" := "DOGE/USD",
    "XRT/USD" := "XRT/USD",
    "XTZ/USD" := "XTZ/USD",
    "XLM/USD" := "XLM/USD",
    "XMR/USD" := "XMR/USD",
    "XRP/USD" := "XRP/USD",
    "XBT/USD" := "BTC/USD"
  ]

  /** `m.get(v, v)`: a string the map knows is replaced, any other value passes through. */
  function Normalize(m: map<string, string>, v: Value): (r: Value)
    ensures v.Str? && v.s in m ==> r == Str(m[v.s])
    ensures v.Str? && v.s in m ==> r.Str? && r.s in m.Values
    ensures !(v.Str? && v.s in m) ==> r == v
  {
    if v.Str? && v.s in m then Str(m[v.s]) else v
  }

  /** The trade's `pair` field, None when absent. */
  function PairOf(rec: Record): Value {
    Get(rec, "pair")
  }

  /** `if not pair: continue` skips the trade unless this holds. */
  predicate HasPair(rec: Record) {
    Truthy(PairOf(rec))
  }

  /** `if asset_info:`: a document was returned and it is not empty. */
  predicate Found(info: Option<Record>) {
    info.Some? && |info.value| > 0
  }

  /** What one iteration of the loop does to one trade. */
  function EnrichRecord(rec: Record, assetPairs: map<Value, Record>): (r: Record)
    ensures !HasPair(rec) ==> r == rec
    ensures HasPair(rec) ==> "base" in r && "wsname" in r
    ensures r - {"base", "wsname"} == rec - {"base", "wsname"}
    ensures HasPair(rec) && !Found(Lookup(assetPairs, PairOf(rec))) ==>
      r["base"] == PairOf(rec) && r["wsname"] == PairOf(rec)
    ensures HasPair(rec) && Found(Lookup(assetPairs, PairOf(rec))) ==>
      var info := Lookup(assetPairs, PairOf(rec)).value;
      && r["base"] == Normalize(BaseTransformMap, GetOr(info, "base", PairOf(rec)))
      && r["wsname"] == Normalize(WsnameTransformMap, GetOr(info, "wsname", PairOf(rec)))
  {
    var pair := PairOf(rec);
    if !Truthy(pair) then rec
    else
      var info := Lookup(assetPairs, pair);
      if Found(info) then
        rec["base" := Normalize(BaseTransformMap, GetOr(info.value, "base", pair))]
           ["wsname" := Normalize(WsnameTransformMap, GetOr(info.value, "wsname", pair))]
      else
        rec["wsname" := pair]["base" := pair]
  }

  function EnrichItem(item: Item, assetPairs: map<Value, Record>): Item {
    Item(item.id, EnrichRecord(item.data, assetPairs))
  }

  /** The whole trade dictionary after enrichment: same ids in the same order. */
  function EnrichAll(items: seq<Item>, assetPairs: map<Value, Record>): (r: seq<Item>)
    ensures |r| == |items|
    ensures forall i :: 0 <= i < |items| ==> r[i].id == items[i].id
    ensures forall i :: 0 <= i < |items| && HasPair(items[i].data) ==>
      "base" in r[i].data && "wsname" in r[i].data
    ensures forall i :: 0 <= i < |items| && !HasPair(items[i].data) ==> r[i] == items[i]
  {
    seq(|items|, i requires 0 <= i < |items| => EnrichItem(items[i], assetPairs))
  }

  /** `enriched_count` after the loop over these trades. */
  function CountWithPair(items: seq<Item>): (r: nat)
    ensures r <= |items|
    ensures r == 0 <==> forall i :: 0 <= i < |items| ==> !HasPair(items[i].data)
  {
    if items == [] then 0
    else CountWithPair(items[..|items| - 1]) + (if HasPair(items[|items| - 1].data) then 1 else 0)
  }

  /** The pair of a trade for which no metadata is found. */
  predicate IsMissingPair(item: Item, assetPairs: map<Value, Record>) {
    HasPair(item.data) && !Found(Lookup(assetPairs, PairOf(item.data)))
  }

  /** `seen_missing_pairs` after the loop over these trades. */
  function MissingPairs(items: seq<Item>, assetPairs: map<Value, Record>): (r: set<Value>)
    ensures forall p :: p in r ==> Truthy(p) && !Found(Lookup(assetPairs, p))
  {
    if items == [] then {}
    else
      var last := items[|items| - 1];
      MissingPairs(items[..|items| - 1], assetPairs)
        + (if IsMissingPair(last, assetPairs) then {PairOf(last.data)} else {})
  }

  predicate NoDuplicates(s: seq<Value>) {
    forall i, j :: 0 <= i < j < |s| ==> s[i] != s[j]
  }

  /** What one more trade adds to the count and to the missing pairs. */
  lemma EnrichStep(items: seq<Item>, i: nat, assetPairs: map<Value, Record>)
    requires i < |items|
    ensures CountWithPair(items[..i + 1])
         == CountWithPair(items[..i]) + (if HasPair(items[i].data) then 1 else 0)
    ensures MissingPairs(items[..i + 1], assetPairs)
         == MissingPairs(items[..i], assetPairs)
            + (if IsMissingPair(items[i], assetPairs) then {PairOf(items[i].data)} else {})
  {
    assert items[..i + 1][..i] == items[..i];
  }

  /** Enriching trade `i` of a half-enriched dictionary extends the enriched prefix by one. */
  lemma EnrichPrefixStep(items: seq<Item>, i: nat, assetPairs: map<Value, Record>)
    requires i < |items|
    ensures (EnrichAll(items[..i], assetPairs) + items[i..])[i := EnrichItem(items[i], assetPairs)]
         == EnrichAll(items[..i + 1], assetPairs) + items[i + 1..]
  {
    var before := EnrichAll(items[..i], assetPairs) + items[i..];
    var after := EnrichAll(items[..i + 1], assetPairs) + items[i + 1..];
    assert forall j :: 0 <= j < |items| ==> before[i := EnrichItem(items[i], assetPairs)][j] == after[j];
  }

  /** Warning about a pair not yet seen keeps the warnings free of repeats. */
  lemma WarnOnce(warned: seq<Value>, seen: set<Value>, pair: Value)
    requires NoDuplicates(warned)
    requires forall p :: p in warned <==> p in seen
    requires pair !in seen
    ensures NoDuplicates(warned + [pair])
    ensures forall p :: p in warned + [pair] <==> p in seen + {pair}
  {
  }

  // ---------------------------------------------------------------------
  // The in-place operation

  /**
   * One iteration of the loop, on the trade at position `i`: it is enriched in
   * place, and a missing pair not seen before is warned about and remembered.
   */
  method EnrichTradeAt(trades: RecordDict, i: nat, client: MongoDbClient, seenMissingPairs: set<Value>)
    returns (seen: set<Value>, enriched: bool, ghost warning: Option<Value>)
    requires i < |trades.items|
    modifies trades
    ensures trades.items == old(trades.items)[i := EnrichItem(old(trades.items)[i], client.assetPairs)]
    ensures enriched == HasPair(old(trades.items)[i].data)
    ensures seen == seenMissingPairs
      + (if IsMissingPair(old(trades.items)[i], client.assetPairs) then {PairOf(old(trades.items)[i].data)} else {})
    ensures warning == if IsMissingPair(old(trades.items)[i], client.assetPairs) && PairOf(old(trades.items)[i].data) !in seenMissingPairs
      then Some(PairOf(old(trades.items)[i].data)) else None
  {
    var item := trades.items[i];
    seen, enriched, warning := seenMissingPairs, false, None;
    var pair := Get(item.data, "pair");
    if !Truthy(pair) {
      return;
    }
    var assetInfo := client.GetAssetPairMetadata(pair);
    var data := item.data;
    if Found(assetInfo) {
      var baseRaw := GetOr(assetInfo.value, "base", pair);
      var wsnameRaw := GetOr(assetInfo.value, "wsname", pair);
      data := data["base" := Normalize(BaseTransformMap, baseRaw)];
      data := data["wsname" := Normalize(WsnameTransformMap, wsnameRaw)];
    } else {
      if pair !in seen {
        warning := Some(pair);
        seen := seen + {pair};
      }
      data := data["wsname" := pair];
      data := data["base" := pair];
    }
    trades.items := trades.items[i := Item(item.id, data)];
    enriched := true;
  }

  /**
   * Enriches `trades` in place. `enrichedCount` is the count logged at the
   * end; `warned` lists the pairs warned about, in order.
   */
  method EnrichTradesWithAssetMetadata(trades: RecordDict, client: MongoDbClient?)
    returns (enrichedCount: nat, ghost warned: seq<Value>)
    requires trades.Valid()
    modifies trades
    ensures trades.Valid()
    ensures client == null ==> trades.items == old(trades.items) && enrichedCount == 0 && warned == []
    ensures client != null ==>
      && trades.items == EnrichAll(old(trades.items), client.assetPairs)
      && enrichedCount == CountWithPair(old(trades.items))
      && NoDuplicates(warned)
      && forall p :: p in warned <==> p in MissingPairs(old(trades.items), client.assetPairs)
  {
    enrichedCount, warned := 0, [];
    if |trades.items| == 0 {
      return;
    }
    if client == null {
      return;
    }
    ghost var original := trades.items;
    var n := |trades.items|;
    var seenMissingPairs: set<Value> := {};
    for i := 0 to n
      invariant |trades.items| == n
      invariant trades.items == EnrichAll(original[..i], client.assetPairs) + original[i..]
      invariant enrichedCount == CountWithPair(original[..i])
      invariant seenMissingPairs == MissingPairs(original[..i], client.assetPairs)
      invariant NoDuplicates(warned)
      invariant forall p :: p in warned <==> p in seenMissingPairs
    {
      EnrichStep(original, i, client.assetPairs);
      EnrichPrefixStep(original, i, client.assetPairs);
      var enriched: bool;
      ghost var warning: Option<Value>;
      ghost var seenBefore := seenMissingPairs;
      seenMissingPairs, enriched, warning := EnrichTradeAt(trades, i, client, seenMissingPairs);
      if warning.Some? {
        WarnOnce(warned, seenBefore, warning.value);
        warned := warned + [warning.value];
      }
      if enriched {
        enrichedCount := enrichedCount + 1;
      }
    }
    assert original[..n] == original && original[n..] == [];
    EnrichAllKeepsDistinctIds(original, client.assetPairs);
  }

  // ---------------------------------------------------------------------
  // Properties of enrichment

  /** A trade's pair is never changed by enrichment. */
  lemma EnrichKeepsPair(rec: Record, assetPairs: map<Value, Record>)
    ensures PairOf(EnrichRecord(rec, assetPairs)) == PairOf(rec)
  {
  }

  /** Enriching an already enriched trade changes nothing. */
  lemma EnrichRecordIdempotent(rec: Record, assetPairs: map<Value, Record>)
    ensures EnrichRecord(EnrichRecord(rec, assetPairs), assetPairs) == EnrichRecord(rec, assetPairs)
  {
  }

  /** Enrichment keeps the dictionary's keys unique: it never changes an id. */
  lemma EnrichAllKeepsDistinctIds(items: seq<Item>, assetPairs: map<Value, Record>)
    requires DistinctIds(items)
    ensures DistinctIds(EnrichAll(items, assetPairs))
  {
  }

  /** Running the enrichment twice over the same cache is the same as running it once. */
  lemma EnrichAllIdempotent(items: seq<Item>, assetPairs: map<Value, Record>)
    ensures EnrichAll(EnrichAll(items, assetPairs), assetPairs) == EnrichAll(items, assetPairs)
  {
    var once := EnrichAll(items, assetPairs);
    var twice := EnrichAll(once, assetPairs);
    forall i | 0 <= i < |items|
      ensures twice[i] == once[i]
    {
      EnrichRecordIdempotent(items[i].data, assetPairs);
    }
  }

  /** Both maps are idempotent: a normalised name is already in normal form. */
  lemma NormalizeIdempotent(v: Value)
    ensures Normalize(BaseTransformMap, Normalize(BaseTransformMap, v)) == Normalize(BaseTransformMap, v)
    ensures Normalize(WsnameTransformMap, Normalize(WsnameTransformMap, v)) == Normalize(WsnameTransformMap, v)
  {
  }

  /**
   * When metadata is found, the stored `base` and `wsname` are already in
   * normal form: normalising them again changes nothing.
   */
  lemma MappedNamesAreNormal(rec: Record, assetPairs: map<Value, Record>)
    requires HasPair(rec) && Found(Lookup(assetPairs, PairOf(rec)))
    ensures var r := EnrichRecord(rec, assetPairs);
      && Normalize(BaseTransformMap, r["base"]) == r["base"]
      && Normalize(WsnameTransformMap, r["wsname"]) == r["wsname"]
  {
    var info := Lookup(assetPairs, PairOf(rec)).value;
    NormalizeIdempotent(GetOr(info, "base", PairOf(rec)));
    NormalizeIdempotent(GetOr(info, "wsname", PairOf(rec)));
  }

  /** The count is the number of trades that carry a pair. */
  lemma {:induction false} CountWithPairIsCardinality(items: seq<Item>)
    ensures CountWithPair(items) == |set i | 0 <= i < |items| && HasPair(items[i].data)|
    decreases |items|
  {
    if items != [] {
      CountWithPairIsCardinality(items[..|items| - 1]);
      PairIndicesStep(items);
    }
  }

  /** The indices of trades with a pair, for a sequence and for all but its last trade. */
  lemma PairIndicesStep(items: seq<Item>)
    requires items != []
    ensures var n := |items| - 1;
      |set i | 0 <= i < |items| && HasPair(items[i].data)|
      == |set i | 0 <= i < n && HasPair(items[..n][i].data)| + (if HasPair(items[n].data) then 1 else 0)
  {
    var n := |items| - 1;
    var init := items[..n];
    var before := set i | 0 <= i < n && HasPair(init[i].data);
    var after := set i | 0 <= i < |items| && HasPair(items[i].data);
    assert after == before + (if HasPair(items[n].data) then {n} else {});
    assert n !in before;
  }

  /** A pair is warned about exactly when some trade carries it and no metadata is found for it. */
  lemma {:induction false} MissingPairsSpec(items: seq<Item>, assetPairs: map<Value, Record>, p: Value)
    ensures p in MissingPairs(items, assetPairs) <==>
      exists i :: 0 <= i < |items| && IsMissingPair(items[i], assetPairs) && PairOf(items[i].data) == p
    decreases |items|
  {
    if items != [] {
      var n := |items| - 1;
      MissingPairsSpec(items[..n], assetPairs, p);
      if exists i :: 0 <= i < |items| && IsMissingPair(items[i], assetPairs) && PairOf(items[i].data) == p {
        var i :| 0 <= i < |items| && IsMissingPair(items[i], assetPairs) && PairOf(items[i].data) == p;
        if i < n {
          assert items[..n][i] == items[i];
        }
      }
    }
  }
}

/**
 * The MongoDB client as data_handler.py uses it: `store_data(collection, doc)`
 * appends a document to a collection, and `get_asset_pair_metadata(pair)`
 * reads the cached asset-pair document for a pair. The `MongoDBClient` of
 * src/api/mongodb_client.py defines neither method (it has
 * `store_trade_data` and `store_staking_data`), so both are modelled
 * abstractly. The store is an append-only log of the writes issued, in order.
 */
module MongoDb {
  import opened Wrappers
  import opened PyValues

  /** One `store_data(collection, document)` call; `document` is None when the caller passed None. */
  datatype StoreWrite = StoreWrite(collection: string, document: Option<Record>)

  /** `get_asset_pair_metadata(pair)` over the cached asset pairs: None when nothing is cached. */
  function Lookup(assetPairs: map<Value, Record>, pair: Value): (r: Option<Record>)
    ensures r.Some? <==> pair in assetPairs
    ensures r.Some? ==> r.value == assetPairs[pair]
  {
    if pair in assetPairs then Some(assetPairs[pair]) else None
  }

  class MongoDbClient {
    /** Every write issued so far, oldest first. */
    var log: seq<StoreWrite>
    /** The cached asset-pair metadata, keyed by pair. */
    var assetPairs: map<Value, Record>

    constructor (assetPairs: map<Value, Record>)
      ensures log == [] && this.assetPairs == assetPairs
    {
      log := [];
      this.assetPairs := assetPairs;
    }

    /** Appends one document to a collection; nothing already stored changes. */
    method StoreData(collection: string, document: Option<Record>)
      modifies this`log
      ensures log == old(log) + [StoreWrite(collection, document)]
    {
      log := log + [StoreWrite(collection, document)];
    }

    /** The client's own lookup is `Lookup` over its cache. */
    function GetAssetPairMetadata(pair: Value): (r: Option<Record>)
      reads this
      ensures r.Some? <==> pair in assetPairs
      ensures r.Some? ==> r.value == assetPairs[pair]
    {
      Lookup(assetPairs, pair)
    }
  }
}

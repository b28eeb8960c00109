# Record post-processing of the Kraken trade-history exporter, in Dafny

This project models the record post-processing of `src/api/data_handler.py`. That file is what the exporter runs on trade and staking-reward records once they have been fetched from the exchange. The model covers four things:

- **Watermark timestamps.** `extract_record_timestamps` computes the earliest and latest `int()`-converted timestamp over a list of records.
- **Asset-metadata enrichment.** `enrich_trades_with_asset_metadata` gives every trade that has a `pair` a `base` and a `wsname`, updating the trades in place. The names come from the cached asset-pair document, normalised through `BASE_TRANSFORM_MAP` and `WSNAME_TRANSFORM_MAP`. When nothing is cached for the pair, both fall back to the pair itself.
- **Output naming.** `_generate_filename` builds `outputs/<custom>_<type>.<ext>` or `outputs/<type>_<unix time>.<ext>`.
- **Storage dispatch.** `save_trades` and `save_staking_rewards` either save to a local file (`_save_to_local`, with its empty-data and format guards) or write each record to MongoDB. Each record write is followed by a write of the run's metadata document. So a save of `n` records writes `n` copies of the metadata.

Files and modules:

- `Wrappers.dfy`: `Option` and `Result`.
- `PyValues.dfy`: the Python semantics the code relies on. This covers record values, truthiness, `dict.get`, `int()` (float truncation toward zero, decimal strings), `f"{n}"` for an int, and the insertion-ordered dict of records. That dict is the class `RecordDict`, whose `items` field the in-place operations reassign.
- `MongoDb.dfy`: the MongoDB client as this code uses it. `MongoDbClient.log` is the append-only log of `(collection, document)` writes. `MongoDbClient.assetPairs` is the cached asset-pair metadata, a partial map from pair to document. An absent client is `null`.
- `Timestamps.dfy`: `extract_record_timestamps`.
- `Enrichment.dfy`: the two transform maps and the enrichment loop, proved against the function `EnrichAll`.
- `Output.dfy`: `_generate_filename`, `_save_to_local` and the two save functions.

The clock (`time.time()`) is passed in as the parameter `now`. Whether the file system raises on `open`/`write` is the parameter `ioFails`. Python raising in `int()` is a `Failure` carrying the rejected value.

Timestamp conversion is done in two different ways in the repository. `normalize_timestamp` in `src/api/utils.py` (lines 5-24) truncates with `int(float(value))`. Its docstring notes that Kraken may send timestamps as stringified floats. `extract_record_timestamps` does not use it: it calls `int()` directly (`src/api/data_handler.py:122`). `int()` truncates a numeric float but rejects a string such as `"1688667796.6"`, so such a record makes the extraction fail. The model follows `data_handler.py`, and `Timestamps.StringifiedFloatIsRejected` states that failure for this exact string.

## Model

| member | source | states |
|---|---|---|
| `PyValues.TruncateToInt` | src/api/data_handler.py:51 | `int()` of a float truncates toward zero: the result has the float's sign and lies within one unit of it, never further from zero |
| `PyValues.ParseInt` | src/api/data_handler.py:122 | `int()` of a string succeeds exactly on a non-empty digit string, or on one with a single leading `-` or `+`; the value is the base-ten value, negated after `-`; everything else, empty and fractional strings included, is rejected |
| `PyValues.ToInt` | src/api/data_handler.py:122 | `int()` rejects `None` and strings `ParseInt` rejects, and nothing else; a bool gives 0 or 1, an int itself, a float its truncation toward zero, a string whatever `ParseInt` gives (`int("5")` is 5) |
| `PyValues.FormatInt` | src/api/data_handler.py:54 | `f"{n}"` of an int is a digit string when `n ≥ 0`, and `-` followed by a digit string when `n < 0`; there is never a leading zero, except in `0` itself |
| `PyValues.FormatIntRoundTrip` | src/api/data_handler.py:51-54 | the decimal text that the f-string writes for an int parses back to that same int |
| `Timestamps.KeyedTimestamps` | src/api/data_handler.py:122 | the comprehension yields at most one timestamp per record; when it raises, the rejected value is the value under the key of the first record whose value `int()` rejects, and every earlier record that has the key converts |
| `Timestamps.StringifiedFloatIsRejected` | src/api/data_handler.py:122 | a record whose timestamp is the string `"1688667796.6"` makes the extraction fail with that value |
| `Timestamps.Min` | src/api/data_handler.py:127 | `min` returns an element of the list that is no larger than any element |
| `Timestamps.Max` | src/api/data_handler.py:127 | `max` returns an element of the list that is no smaller than any element |
| `Timestamps.ExtractRecordTimestamps` | src/api/data_handler.py:109-127 | an empty list gives `(None, None)`; on success start and end are both present or both absent, and start ≤ end |
| `Timestamps.KeyedTimestampsFailure` | src/api/data_handler.py:122 | the list comprehension raises exactly when some record has the key and `int()` rejects its value |
| `Timestamps.KeyedTimestampsMembers` | src/api/data_handler.py:122 | the converted list holds exactly the converted timestamps of the records that have the key |
| `Timestamps.KeyedTimestampsSkip` | src/api/data_handler.py:122 | a record without the key contributes nothing to the converted list |
| `Timestamps.ExtractFailsIff` | src/api/data_handler.py:122 | extraction fails exactly when some record has the key with a value `int()` rejects |
| `Timestamps.ExtractNoneIff` | src/api/data_handler.py:119-125 | a successful result is `(None, None)` exactly when no record has the key, which includes the empty list |
| `Timestamps.ExtractBounds` | src/api/data_handler.py:122-127 | otherwise start and end are each the timestamp of some record that has the key, and every such timestamp lies between them |
| `Timestamps.ExtractIgnoresRecordsWithoutKey` | src/api/data_handler.py:122 | inserting or removing a record that lacks the key anywhere in the list leaves the result, an error included, unchanged |
| `Enrichment.Normalize` | src/api/data_handler.py:170-171 | `MAP.get(v, v)`: a string key of the map becomes its image, which is one of the map's values; any other value is returned unchanged |
| `Enrichment.NormalizeIdempotent` | src/api/data_handler.py:11-34 | a name that either transform map produced is left unchanged when normalised again |
| `Enrichment.EnrichRecord` | src/api/data_handler.py:157-177 | a trade without a truthy `pair` is unchanged; otherwise it gains `base` and `wsname` and no other field changes; with no (or an empty) cached document both equal the pair; otherwise each is the document's value, or the pair when the document lacks it, put through its transform map, with unknown values passed through |
| `Enrichment.EnrichAll` | src/api/data_handler.py:157-177 | the ids and their order are kept; every trade with a pair has `base` and `wsname`; every trade without one is left as it was |
| `Enrichment.EnrichTradesWithAssetMetadata` | src/api/data_handler.py:129-181 | with no client the trades are unchanged and nothing is counted or warned; otherwise the trades become `EnrichAll` of the old trades, the logged count is the number of trades with a pair, and the warned pairs have no repeats and are exactly the missing pairs |
| `Enrichment.MappedNamesAreNormal` | src/api/data_handler.py:165-171 | when a non-empty document is cached, the `base` and `wsname` written are fixed points of their transform maps |
| `Enrichment.CountWithPair` | src/api/data_handler.py:157-179 | the count never exceeds the number of trades, and is zero exactly when no trade has a truthy `pair` |
| `Enrichment.MissingPairs` | src/api/data_handler.py:172-175 | every pair in the set is truthy and has no non-empty cached document |
| `Enrichment.EnrichStep` | src/api/data_handler.py:157-179 | one more trade adds one to the count exactly when it has a truthy `pair`, and adds its pair to the missing pairs exactly when nothing (or an empty document) is cached for it |
| `Enrichment.EnrichPrefixStep` | src/api/data_handler.py:157-177 | enriching trade `i` of a dictionary whose first `i` trades are enriched gives one whose first `i+1` trades are enriched and whose remaining trades are untouched |
| `Enrichment.WarnOnce` | src/api/data_handler.py:173-175 | warning only about a pair not already seen keeps the warnings free of repeats and equal, as a set, to `seen_missing_pairs` |
| `Enrichment.EnrichTradeAt` | src/api/data_handler.py:158-179 | one loop iteration: trade `i` becomes `EnrichItem` of itself and no other trade changes; it counts exactly when it has a pair; its pair joins the seen set exactly when it is missing, and is warned about exactly when it was not seen before |
| `Enrichment.EnrichKeepsPair` | src/api/data_handler.py:158-177 | enrichment never changes a trade's `pair` |
| `Enrichment.EnrichRecordIdempotent` | src/api/data_handler.py:157-177 | enriching an already enriched trade against the same cache changes nothing |
| `Enrichment.EnrichAllKeepsDistinctIds` | src/api/data_handler.py:157-177 | enrichment writes into the existing trade dicts only, so the trade ids stay unique |
| `Enrichment.EnrichAllIdempotent` | src/api/data_handler.py:157-177 | running the enrichment twice over the same cache gives the same trades as running it once |
| `Enrichment.CountWithPairIsCardinality` | src/api/data_handler.py:155-179 | the enriched count equals the number of trades whose `pair` is truthy |
| `Enrichment.MissingPairsSpec` | src/api/data_handler.py:172-175 | a pair is in `seen_missing_pairs` exactly when some trade carries it and no non-empty document is cached for it |
| `Output.GenerateFilename` | src/api/data_handler.py:40-54 | a non-empty custom name gives `outputs/<custom>_<type>.<ext>`; no custom name, or an empty one, gives `outputs/<type>_<int(now)>.<ext>` |
| `Output.FilenameRecordsTimestamp` | src/api/data_handler.py:51-54 | a timestamped name starts with `outputs/<type>_` and ends with `.<ext>`, and the text between them parses back to `int(now)` |
| `Output.CustomFilenameIgnoresClock` | src/api/data_handler.py:52-53 | with a non-empty custom name the file name does not depend on the clock |
| `Output.SaveToLocal` | src/api/data_handler.py:56-79 | a file is written exactly when the data is non-empty, the format is `json` or `csv` and no I/O error occurs, and then at the given path; empty data, an unsupported format and an I/O error each give their own reason |
| `Output.StoreWrites` | src/api/data_handler.py:88-91 | the record loop makes two writes per record, and each goes either to the record collection or is the metadata document written to `metadata` |
| `Output.StoreWritesAppend` | src/api/data_handler.py:88-91 | the writes for two runs of records, one after the other, are the writes for each run concatenated |
| `Output.StoreWritesAt` | src/api/data_handler.py:88-91 | for record `k`, write `2k` stores the record in the record collection and write `2k+1` stores the metadata in `metadata` |
| `Output.StoreWritesShape` | src/api/data_handler.py:88-91 | there are 2·n writes: write `2k` stores record `k` in the record collection and write `2k+1` stores the metadata in `metadata` |
| `Output.StoreWritesDocuments` | src/api/data_handler.py:88-91 | the record collection receives each record exactly once, in dictionary order, and `metadata` receives one copy of the metadata per record |
| `Output.StoreWritesStep` | src/api/data_handler.py:88-91 | one more record appends exactly its own write and one metadata write to the writes of the loop |
| `Output.StoreRecords` | src/api/data_handler.py:88-91 | the store log grows by exactly the writes of the record loop; the cached asset pairs are untouched |
| `Output.SaveRecords` | src/api/data_handler.py:81-107 | `local` saves to the generated file name and leaves the store alone; `mongodb` with a client appends the record/metadata writes; anything else, or `mongodb` without a client, is an unsupported location and writes nothing |
| `Output.SaveTrades` | src/api/data_handler.py:81-93 | `SaveRecords` for the `trades` file type and collection; the cached asset pairs are untouched |
| `Output.SaveStakingRewards` | src/api/data_handler.py:95-107 | `SaveRecords` for the `rewards` file type and collection; the cached asset pairs are untouched |
| `MongoDb.Lookup` | src/api/data_handler.py:163 | the lookup in the cached asset pairs returns a document exactly when one is cached for the pair, and then that document |
| `MongoDb.MongoDbClient.GetAssetPairMetadata` | src/api/data_handler.py:163 | returns a document exactly when one is cached for the pair, and then that document |
| `MongoDb.MongoDbClient.StoreData` | src/api/data_handler.py:90-91 | `store_data` appends one `(collection, document)` entry to the log; earlier entries and the asset-pair cache stay as they were |

## Left out

- Logging: the messages themselves and the logger are not modelled. Two exceptions are kept: the enriched count is returned, and the pairs warned about are returned as a ghost sequence.
- `_ensure_output_directory`: creating `outputs/` is a file-system side effect. It is not modelled. It runs before the `try` of `_save_to_local` (`src/api/data_handler.py:58`), so an `os.makedirs` failure escapes uncaught; the model does not capture that exception.
- The contents of the JSON and CSV files written by `json.dump` and `csv.writer` are not modelled. Whether a file is written is.
- A `json.dump` failure on a value it cannot serialise is not modelled. That `TypeError` is not caught by `_save_to_local`.
- Floats are modelled as exact reals. Rounding, NaN and infinities are not modelled. That includes the `ValueError`/`OverflowError` that `int()` raises on NaN and infinities.
- PyValues.ParseInt: does not accept the surrounding whitespace, the `_` digit separators or the non-ASCII digits that Python's `int()` also accepts, because timestamps in this system are numbers or plain digit strings.
- `ConversionError` does not separate `TypeError` (for `None`) from `ValueError` (for a bad string). Both are one error carrying the value.
- Record values that are lists or nested dicts are not modelled, so neither is the `TypeError` they would raise as lookup keys.
- Key order inside a record: records are maps, so the model does not capture the order in which `base` and `wsname` are added to a dict.
- Aliasing: two trade ids sharing one dict object is not modelled. Each trade's record is a separate value in `RecordDict.items`.
- `store_data` and `get_asset_pair_metadata`: the `MongoDBClient` of `src/api/mongodb_client.py` defines neither (it has `store_trade_data` and `store_staking_data`). Both are modelled abstractly: an unconditional append to the log, and a lookup in a fixed map.
- Python's equality of mixed numeric keys: in Python's sets and dicts, `1`, `1.0` and `True` are one key. The model compares pairs as `Value`s, where they differ. Pairs are strings in practice, so `seen_missing_pairs` and the cache lookup are unaffected.
- Connection handling and pymongo errors are not part of this model.
- The rest of the repository is not part of this model:
  - request signing and HTTP calls (`src/api/api_client.py`);
  - `normalize_timestamp` (`src/api/utils.py`);
  - configuration;
  - the trigger service;
  - the dashboard;
  - the entry point.

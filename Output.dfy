/**
 * Output naming and storage dispatch of data_handler.py: `_generate_filename`,
 * the empty-data and format guards of `_save_to_local`, and `save_trades` /
 * `save_staking_rewards`, which either save the records to a local file or
 * write each record, followed by the run's metadata document, to MongoDB.
 */
module Output {
  import opened Wrappers
  import opened PyValues
  import opened MongoDb

  const OutputDirectory: string := "outputs/"

  /**
   * `_generate_filename(file_type, extension, custom_filename)` with the clock
   * reading `now` passed in (`time.time()`); an empty custom name counts as none.
   */
  function GenerateFilename(fileType: string, extension: string, customFilename: Option<string>, now: real): (r: string)
    ensures customFilename.Some? && customFilename.value != "" ==>
      r == OutputDirectory + customFilename.value + "_" + fileType + "." + extension
    ensures customFilename.None? || customFilename.value == "" ==>
      r == OutputDirectory + fileType + "_" + FormatInt(TruncateToInt(now)) + "." + extension
  {
    var timestamp := TruncateToInt(now);
    if customFilename.Some? && customFilename.value != "" then
      OutputDirectory + customFilename.value + "_" + fileType + "." + extension
    else
      OutputDirectory + fileType + "_" + FormatInt(timestamp) + "." + extension
  }

  /**
   * A generated name without a custom part records the clock reading: the text
   * between `outputs/<file_type>_` and `.<extension>` parses back to `int(now)`.
   */
  lemma FilenameRecordsTimestamp(fileType: string, extension: string, now: real)
    ensures var name := GenerateFilename(fileType, extension, None, now);
      var prefix := OutputDirectory + fileType + "_";
      var suffix := "." + extension;
      && |prefix| + |suffix| <= |name|
      && name[..|prefix|] == prefix
      && name[|name| - |suffix|..] == suffix
      && ParseInt(name[|prefix|..|name| - |suffix|]) == Some(TruncateToInt(now))
  {
    var name := GenerateFilename(fileType, extension, None, now);
    var prefix := OutputDirectory + fileType + "_";
    var digits := FormatInt(TruncateToInt(now));
    var suffix := "." + extension;
    assert name == prefix + digits + suffix;
    assert name[|prefix|..|name| - |suffix|] == digits;
    FormatIntRoundTrip(TruncateToInt(now));
  }

  /** A custom name does not depend on the clock. */
  lemma CustomFilenameIgnoresClock(fileType: string, extension: string, custom: string, now: real, later: real)
    requires custom != ""
    ensures GenerateFilename(fileType, extension, Some(custom), now)
         == GenerateFilename(fileType, extension, Some(custom), later)
  {
  }

  // ---------------------------------------------------------------------
  // Local files

  datatype LocalFailure = NoData | UnsupportedFormat | WriteError

  /** Whether `_save_to_local` produced a file; its contents are not modelled. */
  datatype FileOutcome = FileWritten(path: string) | FileNotWritten(reason: LocalFailure)

  /**
   * `_save_to_local(data, format, filename)`. `ioFails` says whether opening or
   * writing the file raises IOError/OSError in the environment.
   */
  function SaveToLocal(data: seq<Item>, format: string, filename: string, ioFails: bool): (r: FileOutcome)
    ensures r.FileWritten? <==> data != [] && (format == "json" || format == "csv") && !ioFails
    ensures r.FileWritten? ==> r.path == filename
    ensures data == [] ==> r == FileNotWritten(NoData)
    ensures data != [] && format != "json" && format != "csv" ==> r == FileNotWritten(UnsupportedFormat)
    ensures data != [] && (format == "json" || format == "csv") && ioFails ==> r == FileNotWritten(WriteError)
  {
    if data == [] then FileNotWritten(NoData)
    else if format != "json" && format != "csv" then FileNotWritten(UnsupportedFormat)
    else if ioFails then FileNotWritten(WriteError)
    else FileWritten(filename)
  }

  // ---------------------------------------------------------------------
  // MongoDB writes

  /** The writes of the mongodb branch: each record, then the metadata document. */
  function StoreWrites(collection: string, items: seq<Item>, metadata: Option<Record>): (r: seq<StoreWrite>)
    ensures |r| == 2 * |items|
    ensures forall k :: 0 <= k < |r| ==> r[k].collection == collection || r[k] == StoreWrite("metadata", metadata)
  {
    if items == [] then []
    else [StoreWrite(collection, Some(items[0].data)), StoreWrite("metadata", metadata)]
         + StoreWrites(collection, items[1..], metadata)
  }

  /** The documents a log holds for one collection, in write order. */
  function DocumentsIn(log: seq<StoreWrite>, collection: string): seq<Option<Record>> {
    if log == [] then []
    else (if log[0].collection == collection then [log[0].document] else [])
         + DocumentsIn(log[1..], collection)
  }

  lemma {:induction false} StoreWritesAppend(collection: string, a: seq<Item>, b: seq<Item>, metadata: Option<Record>)
    ensures StoreWrites(collection, a + b, metadata)
         == StoreWrites(collection, a, metadata) + StoreWrites(collection, b, metadata)
    decreases |a|
  {
    if a == [] {
      assert a + b == b;
    } else {
      assert (a + b)[1..] == a[1..] + b;
      StoreWritesAppend(collection, a[1..], b, metadata);
    }
  }

  /** Write `2k` stores record `k` in the record collection, write `2k + 1` the metadata in `metadata`. */
  lemma {:induction false} StoreWritesAt(collection: string, items: seq<Item>, metadata: Option<Record>, k: nat)
    requires k < |items|
    ensures StoreWrites(collection, items, metadata)[2 * k] == StoreWrite(collection, Some(items[k].data))
    ensures StoreWrites(collection, items, metadata)[2 * k + 1] == StoreWrite("metadata", metadata)
    decreases k
  {
    if k > 0 {
      StoreWritesAt(collection, items[1..], metadata, k - 1);
      assert items[1..][k - 1] == items[k];
    }
  }

  /** Two writes per record: record `k` is write `2k`, the metadata document write `2k + 1`. */
  lemma StoreWritesShape(collection: string, items: seq<Item>, metadata: Option<Record>)
    ensures |StoreWrites(collection, items, metadata)| == 2 * |items|
    ensures forall k :: 0 <= k < |items| ==>
      && StoreWrites(collection, items, metadata)[2 * k] == StoreWrite(collection, Some(items[k].data))
      && StoreWrites(collection, items, metadata)[2 * k + 1] == StoreWrite("metadata", metadata)
  {
    forall k | 0 <= k < |items| {
      StoreWritesAt(collection, items, metadata, k);
    }
  }

  /**
   * The record collection receives every record exactly once, in dictionary
   * order, and the metadata collection one copy of the metadata per record.
   */
  lemma {:induction false} StoreWritesDocuments(collection: string, items: seq<Item>, metadata: Option<Record>)
    requires collection != "metadata"
    ensures DocumentsIn(StoreWrites(collection, items, metadata), collection)
         == seq(|items|, i requires 0 <= i < |items| => Some(items[i].data))
    ensures DocumentsIn(StoreWrites(collection, items, metadata), "metadata")
         == seq(|items|, i => metadata)
    decreases |items|
  {
    if items != [] {
      var w := StoreWrites(collection, items, metadata);
      var rest := StoreWrites(collection, items[1..], metadata);
      StoreWritesDocuments(collection, items[1..], metadata);
      assert w[1..][1..] == rest;
    }
  }

  /** One more record adds its own write and a metadata write at the end. */
  lemma StoreWritesStep(collection: string, items: seq<Item>, i: nat, metadata: Option<Record>)
    requires i < |items|
    ensures StoreWrites(collection, items[..i + 1], metadata)
         == StoreWrites(collection, items[..i], metadata)
            + [StoreWrite(collection, Some(items[i].data)), StoreWrite("metadata", metadata)]
  {
    assert items[..i + 1] == items[..i] + [items[i]];
    StoreWritesAppend(collection, items[..i], [items[i]], metadata);
    assert StoreWrites(collection, [items[i]], metadata)
        == [StoreWrite(collection, Some(items[i].data)), StoreWrite("metadata", metadata)];
  }

  /** `for id, data in records.items(): store_data(collection, data); store_data("metadata", metadata)`. */
  method StoreRecords(client: MongoDbClient, collection: string, items: seq<Item>, metadata: Option<Record>)
    modifies client
    ensures client.log == old(client.log) + StoreWrites(collection, items, metadata)
    ensures client.assetPairs == old(client.assetPairs)
  {
    for i := 0 to |items|
      invariant client.log == old(client.log) + StoreWrites(collection, items[..i], metadata)
      invariant client.assetPairs == old(client.assetPairs)
    {
      client.StoreData(collection, Some(items[i].data));
      client.StoreData("metadata", metadata);
      StoreWritesStep(collection, items, i, metadata);
    }
    assert items[..|items|] == items;
  }

  // ---------------------------------------------------------------------
  // Dispatch on the storage location

  datatype SaveResult =
    | SavedLocally(file: FileOutcome)
    | SavedToStore
    | UnsupportedLocation(location: string)

  /**
   * Shared dispatch of `save_trades` and `save_staking_rewards`; `kind` is
   * both the file type in the name and the record collection.
   */
  method SaveRecords(kind: string, records: RecordDict, format: string, location: string,
                     client: MongoDbClient?, metadata: Option<Record>, filename: Option<string>,
                     now: real, ioFails: bool)
    returns (result: SaveResult)
    modifies client
    ensures location == "local" ==>
      && result == SavedLocally(SaveToLocal(records.items, format, GenerateFilename(kind, format, filename, now), ioFails))
      && (client != null ==> client.log == old(client.log))
    ensures location == "mongodb" && client != null ==>
      && result == SavedToStore
      && client.log == old(client.log) + StoreWrites(kind, records.items, metadata)
    ensures location != "local" && (location != "mongodb" || client == null) ==>
      && result == UnsupportedLocation(location)
      && (client != null ==> client.log == old(client.log))
    ensures client != null ==> client.assetPairs == old(client.assetPairs)
  {
    if location == "local" {
      var filePath := GenerateFilename(kind, format, filename, now);
      result := SavedLocally(SaveToLocal(records.items, format, filePath, ioFails));
    } else if location == "mongodb" && client != null {
      StoreRecords(client, kind, records.items, metadata);
      result := SavedToStore;
    } else {
      result := UnsupportedLocation(location);
    }
  }

  /** `save_trades`: files are named `..._trades...`, records go to the `trades` collection. */
  method SaveTrades(trades: RecordDict, format: string, location: string,
                    client: MongoDbClient?, metadata: Option<Record>, filename: Option<string>,
                    now: real, ioFails: bool)
    returns (result: SaveResult)
    modifies client
    ensures location == "local" ==>
      && result == SavedLocally(SaveToLocal(trades.items, format, GenerateFilename("trades", format, filename, now), ioFails))
      && (client != null ==> client.log == old(client.log))
    ensures location == "mongodb" && client != null ==>
      && result == SavedToStore
      && client.log == old(client.log) + StoreWrites("trades", trades.items, metadata)
    ensures location != "local" && (location != "mongodb" || client == null) ==>
      && result == UnsupportedLocation(location)
      && (client != null ==> client.log == old(client.log))
    ensures client != null ==> client.assetPairs == old(client.assetPairs)
  {
    result := SaveRecords("trades", trades, format, location, client, metadata, filename, now, ioFails);
  }

  /** `save_staking_rewards`: files are named `..._rewards...`, records go to the `rewards` collection. */
  method SaveStakingRewards(stakingData: RecordDict, format: string, location: string,
                            client: MongoDbClient?, metadata: Option<Record>, filename: Option<string>,
                            now: real, ioFails: bool)
    returns (result: SaveResult)
    modifies client
    ensures location == "local" ==>
      && result == SavedLocally(SaveToLocal(stakingData.items, format, GenerateFilename("rewards", format, filename, now), ioFails))
      && (client != null ==> client.log == old(client.log))
    ensures location == "mongodb" && client != null ==>
      && result == SavedToStore
      && client.log == old(client.log) + StoreWrites("rewards", stakingData.items, metadata)
    ensures location != "local" && (location != "mongodb" || client == null) ==>
      && result == UnsupportedLocation(location)
      && (client != null ==> client.log == old(client.log))
    ensures client != null ==> client.assetPairs == old(client.assetPairs)
  {
    result := SaveRecords("rewards", stakingData, format, location, client, metadata, filename, now, ioFails);
  }
}

/**
 * `extract_record_timestamps` of data_handler.py: the earliest and latest
 * timestamp over a list of records, read from the field `timestamp_key` and
 * converted with `int()`. Records without the field are skipped; an empty
 * list, or one where no record has the field, gives `(None, None)`; a field
 * value `int()` rejects raises, modelled as a Failure carrying that value.
 */
module Timestamps {
  import opened Wrappers
  import opened PyValues

  /** The pair `(record_timestamp_start, record_timestamp_end)`. */
  datatype TimestampRange = TimestampRange(start: Option<int>, end: Option<int>)

  /** `int()` raised on this field value. */
  datatype ConversionError = ConversionError(value: Value)

  /** `t` is the converted timestamp of some record that has the field `key`. */
  ghost predicate IsTimestampOf(records: seq<Record>, key: string, t: int) {
    exists i :: 0 <= i < |records| && key in records[i] && ToInt(records[i][key]) == Some(t)
  }

  /** Some record has the field `key` but `int()` rejects its value. */
  ghost predicate HasBadTimestamp(records: seq<Record>, key: string) {
    exists i :: 0 <= i < |records| && key in records[i] && ToInt(records[i][key]).None?
  }

  /**
   * `[int(record[key]) for record in records if key in record]`, evaluated
   * left to right: the first value `int()` rejects is the error raised.
   */
  function KeyedTimestamps(records: seq<Record>, key: string): (r: Result<seq<int>, ConversionError>)
    ensures r.Success? ==> |r.value| <= |records|
    ensures r.Failure? ==>
      exists i ::
        && 0 <= i < |records| && key in records[i]
        && records[i][key] == r.error.value && ToInt(r.error.value).None?
        && forall j :: 0 <= j < i && key in records[j] ==> ToInt(records[j][key]).Some?
    decreases |records|
  {
    if records == [] then Success([])
    else
      var rest := KeyedTimestamps(records[1..], key);
      assert forall i :: 0 < i < |records| ==> records[i] == records[1..][i - 1];
      if key !in records[0] then rest
      else match ToInt(records[0][key])
        case None => Failure(ConversionError(records[0][key]))
        case Some(t) => if rest.Failure? then rest else Success([t] + rest.value)
  }

  /** Python's `min` over a non-empty list. */
  function Min(s: seq<int>): (m: int)
    requires |s| > 0
    ensures m in s
    ensures forall x :: x in s ==> m <= x
  {
    if |s| == 1 then s[0]
    else
      var m' := Min(s[1..]);
      assert forall x :: x in s ==> x == s[0] || x in s[1..];
      if s[0] <= m' then s[0] else m'
  }

  /** Python's `max` over a non-empty list. */
  function Max(s: seq<int>): (m: int)
    requires |s| > 0
    ensures m in s
    ensures forall x :: x in s ==> x <= m
  {
    if |s| == 1 then s[0]
    else
      var m' := Max(s[1..]);
      assert forall x :: x in s ==> x == s[0] || x in s[1..];
      if s[0] >= m' then s[0] else m'
  }

  function ExtractRecordTimestamps(records: seq<Record>, key: string): (r: Result<TimestampRange, ConversionError>)
    ensures records == [] ==> r == Success(TimestampRange(None, None))
    ensures r.Success? ==> (r.value.start.None? <==> r.value.end.None?)
    ensures r.Success? && r.value.start.Some? && r.value.end.Some? ==> r.value.start.value <= r.value.end.value
  {
    if records == [] then Success(TimestampRange(None, None))
    else match KeyedTimestamps(records, key)
      case Failure(e) => Failure(e)
      case Success(ts) =>
        if ts == [] then Success(TimestampRange(None, None))
        else Success(TimestampRange(Some(Min(ts)), Some(Max(ts))))
  }

  // ---------------------------------------------------------------------
  // The converted list in terms of the records

  lemma {:induction false} KeyedTimestampsFailure(records: seq<Record>, key: string)
    ensures KeyedTimestamps(records, key).Failure? <==> HasBadTimestamp(records, key)
    decreases |records|
  {
    if records != [] {
      KeyedTimestampsFailure(records[1..], key);
      if HasBadTimestamp(records[1..], key) {
        var i :| 0 <= i < |records[1..]| && key in records[1..][i] && ToInt(records[1..][i][key]).None?;
        assert records[i + 1] == records[1..][i];
      }
      if HasBadTimestamp(records, key) {
        var i :| 0 <= i < |records| && key in records[i] && ToInt(records[i][key]).None?;
        if i > 0 {
          assert records[1..][i - 1] == records[i];
        }
      }
    }
  }

  lemma {:induction false} KeyedTimestampsMembers(records: seq<Record>, key: string)
    requires KeyedTimestamps(records, key).Success?
    ensures forall t :: t in KeyedTimestamps(records, key).value <==> IsTimestampOf(records, key, t)
    decreases |records|
  {
    if records != [] {
      var rest := KeyedTimestamps(records[1..], key);
      assert rest.Success?;
      KeyedTimestampsMembers(records[1..], key);
      var ts := KeyedTimestamps(records, key).value;
      forall t
        ensures t in ts <==> IsTimestampOf(records, key, t)
      {
        if IsTimestampOf(records[1..], key, t) {
          var i :| 0 <= i < |records[1..]| && key in records[1..][i] && ToInt(records[1..][i][key]) == Some(t);
          assert records[i + 1] == records[1..][i];
        }
        if IsTimestampOf(records, key, t) {
          var i :| 0 <= i < |records| && key in records[i] && ToInt(records[i][key]) == Some(t);
          if i > 0 {
            assert records[1..][i - 1] == records[i];
          }
        }
      }
    }
  }

  lemma {:induction false} KeyedTimestampsSkip(a: seq<Record>, rec: Record, b: seq<Record>, key: string)
    requires key !in rec
    ensures KeyedTimestamps(a + [rec] + b, key) == KeyedTimestamps(a + b, key)
    decreases |a|
  {
    if a == [] {
      assert (a + [rec] + b)[1..] == a + b;
    } else {
      KeyedTimestampsSkip(a[1..], rec, b, key);
      assert (a + [rec] + b)[1..] == a[1..] + [rec] + b;
      assert (a + b)[1..] == a[1..] + b;
    }
  }

  // ---------------------------------------------------------------------
  // What the extracted range means

  /** The result is an error exactly when a record has the field with a value `int()` rejects. */
  lemma ExtractFailsIff(records: seq<Record>, key: string)
    ensures ExtractRecordTimestamps(records, key).Failure? <==> HasBadTimestamp(records, key)
  {
    KeyedTimestampsFailure(records, key);
  }

  /** A successful result is `(None, None)` exactly when no record has the field. */
  lemma ExtractNoneIff(records: seq<Record>, key: string)
    requires ExtractRecordTimestamps(records, key).Success?
    ensures ExtractRecordTimestamps(records, key).value.start.None?
            <==> forall i :: 0 <= i < |records| ==> key !in records[i]
  {
    KeyedTimestampsFailure(records, key);
    if records != [] {
      KeyedTimestampsMembers(records, key);
      var ts := KeyedTimestamps(records, key).value;
      if ts == [] {
        forall i | 0 <= i < |records|
          ensures key !in records[i]
        {
          if key in records[i] {
            var t := ToInt(records[i][key]).value;
            assert IsTimestampOf(records, key, t);
          }
        }
      } else {
        assert IsTimestampOf(records, key, ts[0]);
      }
    }
  }

  /** Otherwise the range is the minimum and the maximum of the records' timestamps. */
  lemma ExtractBounds(records: seq<Record>, key: string)
    requires ExtractRecordTimestamps(records, key).Success?
    requires ExtractRecordTimestamps(records, key).value.start.Some?
    ensures var r := ExtractRecordTimestamps(records, key).value;
      && IsTimestampOf(records, key, r.start.value)
      && IsTimestampOf(records, key, r.end.value)
      && forall t :: IsTimestampOf(records, key, t) ==> r.start.value <= t <= r.end.value
  {
    KeyedTimestampsMembers(records, key);
  }

  /** Adding or removing a record that lacks the field leaves the result unchanged. */
  lemma ExtractIgnoresRecordsWithoutKey(a: seq<Record>, rec: Record, b: seq<Record>, key: string)
    requires key !in rec
    ensures ExtractRecordTimestamps(a + [rec] + b, key) == ExtractRecordTimestamps(a + b, key)
  {
    KeyedTimestampsSkip(a, rec, b, key);
    if a + b == [] {
      assert a + [rec] + b == [rec];
    }
  }

  /**
   * `int()` does not truncate a stringified float: a record whose timestamp is
   * the string "1688667796.6" makes the extraction raise.
   */
  lemma StringifiedFloatIsRejected()
    ensures ExtractRecordTimestamps([map["time" := Str("1688667796.6")]], "time")
         == Failure(ConversionError(Str("1688667796.6")))
  {
    var s := "1688667796.6";
    assert !IsDigit(s[10]);
    assert ParseInt(s) == None;
  }
}

/**
 * The success and failure handlers of the Manager's reads and the process*
 * methods they call: a response's buckets, data sets, points and fields are
 * flattened, in the order the store returned them, into one array of
 * {startDate, endDate, quantity} records.
 */
module Normalization {

  import opened Wrappers
  import opened GoogleFit

  /** How a field value becomes the record's quantity: `asInt()` for steps, `asFloat()` otherwise. */
  datatype Coercion = AsInt | AsFloat

  /** A record's quantity: the field value and the coercion applied to it (the number itself is not modelled). */
  datatype Quantity = Quantity(coercion: Coercion, value: Value)

  /** One pushed map: the point's formatted start and end and one field's quantity. */
  datatype Record = Record(startDate: string, endDate: string, quantity: Quantity)

  /** What a reader finally does with its promise; Pending when it never settles it. */
  datatype Completion<T> = Resolved(value: T) | Rejected(code: Option<string>, error: Option<Error>) | Pending

  /** The records one data point contributes: one per field, in field order, all with the point's dates. */
  function PointRecords(dp: DataPoint, c: Coercion, format: int -> string): (rs: seq<Record>)
    ensures |rs| == |dp.values|
  {
    seq(|dp.values|, j requires 0 <= j < |dp.values| => Record(format(dp.startMillis), format(dp.endMillis), Quantity(c, dp.values[j])))
  }

  /** The records of a data set's points, point by point. */
  function DataSetRecords(ps: seq<DataPoint>, c: Coercion, format: int -> string): seq<Record>
  {
    if ps == [] then [] else DataSetRecords(ps[..|ps| - 1], c, format) + PointRecords(ps[|ps| - 1], c, format)
  }

  /** The records of a bucket's data sets, data set by data set. */
  function BucketRecords(dss: seq<DataSet>, c: Coercion, format: int -> string): seq<Record>
  {
    if dss == [] then [] else BucketRecords(dss[..|dss| - 1], c, format) + DataSetRecords(dss[|dss| - 1].points, c, format)
  }

  /** The records of a whole response, bucket by bucket. */
  function ResponseRecords(bs: seq<Bucket>, c: Coercion, format: int -> string): seq<Record>
  {
    if bs == [] then [] else ResponseRecords(bs[..|bs| - 1], c, format) + BucketRecords(bs[|bs| - 1].dataSets, c, format)
  }

  /** The number of fields over a list of points. */
  function FieldCount(ps: seq<DataPoint>): nat
  {
    if ps == [] then 0 else FieldCount(ps[..|ps| - 1]) + |ps[|ps| - 1].values|
  }

  /** A data set yields as many records as its points have fields. */
  lemma {:induction false} DataSetRecordCount(ps: seq<DataPoint>, c: Coercion, format: int -> string)
    ensures |DataSetRecords(ps, c, format)| == FieldCount(ps)
    decreases |ps|
  {
    if ps != [] {
      DataSetRecordCount(ps[..|ps| - 1], c, format);
    }
  }

  lemma {:induction false} DataSetRecordsAppend(ps: seq<DataPoint>, qs: seq<DataPoint>, c: Coercion, format: int -> string)
    ensures DataSetRecords(ps + qs, c, format) == DataSetRecords(ps, c, format) + DataSetRecords(qs, c, format)
    decreases |qs|
  {
    if qs == [] {
      assert ps + qs == ps;
    } else {
      var n := |qs| - 1;
      var last := qs[n];
      assert (ps + qs)[..|ps + qs| - 1] == ps + qs[..n];
      assert (ps + qs)[|ps + qs| - 1] == last;
      DataSetRecordsAppend(ps, qs[..n], c, format);
      calc {
        DataSetRecords(ps + qs, c, format);
        DataSetRecords(ps + qs[..n], c, format) + PointRecords(last, c, format);
        DataSetRecords(ps, c, format) + DataSetRecords(qs[..n], c, format) + PointRecords(last, c, format);
        DataSetRecords(ps, c, format) + (DataSetRecords(qs[..n], c, format) + PointRecords(last, c, format));
        DataSetRecords(ps, c, format) + DataSetRecords(qs, c, format);
      }
    }
  }

  /** Field j of one point gives the record with the point's dates and that field's value. */
  lemma PointRecordAt(dp: DataPoint, j: nat, c: Coercion, format: int -> string)
    requires j < |dp.values|
    ensures |PointRecords(dp, c, format)| == |dp.values|
    ensures PointRecords(dp, c, format)[j] == Record(format(dp.startMillis), format(dp.endMillis), Quantity(c, dp.values[j]))
  {
  }

  /**
   * Field j of point i lands at position FieldCount(ps[..i]) + j, carrying
   * point i's dates and that field's value.
   */
  lemma {:induction false} DataSetRecordAt(ps: seq<DataPoint>, i: nat, j: nat, c: Coercion, format: int -> string)
    requires i < |ps| && j < |ps[i].values|
    ensures FieldCount(ps[..i]) + j < |DataSetRecords(ps, c, format)|
    ensures DataSetRecords(ps, c, format)[FieldCount(ps[..i]) + j] ==
            Record(format(ps[i].startMillis), format(ps[i].endMillis), Quantity(c, ps[i].values[j]))
    decreases |ps|
  {
    var n := |ps| - 1;
    var init := ps[..n];
    var front := DataSetRecords(init, c, format);
    var back := PointRecords(ps[n], c, format);
    var rs := DataSetRecords(ps, c, format);
    var pos := FieldCount(ps[..i]) + j;
    assert rs == front + back;
    DataSetRecordCount(init, c, format);
    if i == n {
      assert ps[..i] == init;
      assert pos == |front| + j;
      PointRecordAt(ps[n], j, c, format);
      assert rs[pos] == back[j];
    } else {
      assert init[..i] == ps[..i];
      assert init[i] == ps[i];
      DataSetRecordAt(init, i, j, c, format);
      assert pos < |front|;
      assert rs[pos] == front[pos];
    }
  }

  lemma {:induction false} ResponseRecordsAppend(bs: seq<Bucket>, cs: seq<Bucket>, c: Coercion, format: int -> string)
    ensures ResponseRecords(bs + cs, c, format) == ResponseRecords(bs, c, format) + ResponseRecords(cs, c, format)
    decreases |cs|
  {
    if cs == [] {
      assert bs + cs == bs;
    } else {
      var n := |cs| - 1;
      var last := cs[n];
      assert (bs + cs)[..|bs + cs| - 1] == bs + cs[..n];
      assert (bs + cs)[|bs + cs| - 1] == last;
      ResponseRecordsAppend(bs, cs[..n], c, format);
      calc {
        ResponseRecords(bs + cs, c, format);
        ResponseRecords(bs + cs[..n], c, format) + BucketRecords(last.dataSets, c, format);
        ResponseRecords(bs, c, format) + ResponseRecords(cs[..n], c, format) + BucketRecords(last.dataSets, c, format);
        ResponseRecords(bs, c, format) + (ResponseRecords(cs[..n], c, format) + BucketRecords(last.dataSets, c, format));
        ResponseRecords(bs, c, format) + ResponseRecords(cs, c, format);
      }
    }
  }

  /** A bucket with one data set of one point with one field. */
  predicate SingleValueBucket(b: Bucket)
  {
    |b.dataSets| == 1 && |b.dataSets[0].points| == 1 && |b.dataSets[0].points[0].values| == 1
  }

  /** Such a bucket yields exactly one record, carrying its point's dates. */
  lemma SingleValueBucketRecord(b: Bucket, c: Coercion, format: int -> string)
    requires SingleValueBucket(b)
    ensures var dp := b.dataSets[0].points[0];
            BucketRecords(b.dataSets, c, format) == [Record(format(dp.startMillis), format(dp.endMillis), Quantity(c, dp.values[0]))]
  {
    var ds := b.dataSets[0];
    var dp := ds.points[0];
    assert b.dataSets[..0] == [];
    assert ds.points[..0] == [];
    assert DataSetRecords([], c, format) == [];
    assert DataSetRecords(ds.points, c, format) == [] + PointRecords(dp, c, format);
    assert BucketRecords([], c, format) == [];
    assert BucketRecords(b.dataSets, c, format) == [] + DataSetRecords(ds.points, c, format);
  }

  /**
   * Hour buckets holding one value each (24 of them for a day read by the
   * hour) yield one record per bucket, in bucket order.
   */
  lemma {:induction false} OneRecordPerBucket(bs: seq<Bucket>, c: Coercion, format: int -> string)
    requires forall k :: 0 <= k < |bs| ==> SingleValueBucket(bs[k])
    ensures |ResponseRecords(bs, c, format)| == |bs|
    ensures forall k :: 0 <= k < |bs| ==>
              (SingleValueBucket(bs[k]) &&
               ResponseRecords(bs, c, format)[k].startDate == format(bs[k].dataSets[0].points[0].startMillis) &&
               ResponseRecords(bs, c, format)[k].endDate == format(bs[k].dataSets[0].points[0].endMillis))
    decreases |bs|
  {
    if bs != [] {
      var n := |bs| - 1;
      OneRecordPerBucket(bs[..n], c, format);
      SingleValueBucketRecord(bs[n], c, format);
      assert forall k :: 0 <= k < n ==> bs[..n][k] == bs[k];
    }
  }

  /** One bucket, one data set, one point with two fields: exactly two records with the same dates. */
  lemma TwoFieldPointScenario(dp: DataPoint, c: Coercion, format: int -> string)
    requires |dp.values| == 2
    ensures var rs := ResponseRecords([Bucket([DataSet([dp])])], c, format);
            |rs| == 2 && rs[0].startDate == rs[1].startDate && rs[0].endDate == rs[1].endDate
  {
    var b := Bucket([DataSet([dp])]);
    assert [b][..0] == [];
    assert b.dataSets[..0] == [];
    assert [dp][..0] == [];
    assert DataSetRecords([dp], c, format) == PointRecords(dp, c, format);
    assert BucketRecords(b.dataSets, c, format) == PointRecords(dp, c, format);
    assert ResponseRecords([b], c, format) == PointRecords(dp, c, format);
    PointRecordAt(dp, 0, c, format);
    PointRecordAt(dp, 1, c, format);
  }

  /** React Native's WritableArray of maps; each push is taken as an independent snapshot. */
  class WritableArray {
    var items: seq<Record>

    constructor ()
      ensures items == []
    {
      items := [];
    }

    method PushMap(r: Record)
      modifies this
      ensures items == old(items) + [r]
    {
      items := items + [r];
    }
  }

  /** The inner loop of the process* methods: one record per field of one point, in field order. */
  method PushPoint(dp: DataPoint, records: WritableArray, c: Coercion, format: int -> string)
    modifies records
    ensures records.items == old(records.items) + PointRecords(dp, c, format)
  {
    var j := 0;
    while j < |dp.values|
      invariant 0 <= j <= |dp.values|
      invariant records.items == old(records.items) + PointRecords(dp, c, format)[..j]
    {
      records.PushMap(Record(format(dp.startMillis), format(dp.endMillis), Quantity(c, dp.values[j])));
      assert PointRecords(dp, c, format)[..j + 1] == PointRecords(dp, c, format)[..j] + [PointRecords(dp, c, format)[j]];
      j := j + 1;
    }
    assert PointRecords(dp, c, format)[..j] == PointRecords(dp, c, format);
  }

  /** The loop shared by the process* methods: for each point, for each of its fields, push one record. */
  method PushDataSet(dataSet: DataSet, records: WritableArray, c: Coercion, format: int -> string)
    modifies records
    ensures records.items == old(records.items) + DataSetRecords(dataSet.points, c, format)
  {
    var ps := dataSet.points;
    var i := 0;
    while i < |ps|
      invariant 0 <= i <= |ps|
      invariant records.items == old(records.items) + DataSetRecords(ps[..i], c, format)
    {
      PushPoint(ps[i], records, c, format);
      assert ps[..i + 1][..i] == ps[..i];
      i := i + 1;
    }
    assert ps[..i] == ps;
  }

  /** processStep: values taken with asInt(). */
  method ProcessStep(dataSet: DataSet, records: WritableArray, format: int -> string)
    modifies records
    ensures records.items == old(records.items) + DataSetRecords(dataSet.points, AsInt, format)
  {
    PushDataSet(dataSet, records, AsInt, format);
  }

  /** processDistance: values taken with asFloat(); getCalories uses it too. */
  method ProcessDistance(dataSet: DataSet, records: WritableArray, format: int -> string)
    modifies records
    ensures records.items == old(records.items) + DataSetRecords(dataSet.points, AsFloat, format)
  {
    PushDataSet(dataSet, records, AsFloat, format);
  }

  /** processHeartRate: values taken with asFloat(). */
  method ProcessHeartRate(dataSet: DataSet, records: WritableArray, format: int -> string)
    modifies records
    ensures records.items == old(records.items) + DataSetRecords(dataSet.points, AsFloat, format)
  {
    PushDataSet(dataSet, records, AsFloat, format);
  }

  /** Which process* method a reader's success handler calls. */
  datatype Processor = ProcessStepFn | ProcessDistanceFn | ProcessHeartRateFn

  function CoercionOf(p: Processor): (c: Coercion)
    ensures c == AsInt <==> p == ProcessStepFn
  {
    if p == ProcessStepFn then AsInt else AsFloat
  }

  /** Calls the process* method a reader names. */
  method Process(processor: Processor, dataSet: DataSet, records: WritableArray, format: int -> string)
    modifies records
    ensures records.items == old(records.items) + DataSetRecords(dataSet.points, CoercionOf(processor), format)
  {
    match processor {
      case ProcessStepFn => ProcessStep(dataSet, records, format);
      case ProcessDistanceFn => ProcessDistance(dataSet, records, format);
      case ProcessHeartRateFn => ProcessHeartRate(dataSet, records, format);
    }
  }

  /** The inner loop of a success handler: every data set of one bucket, in order. */
  method ProcessBucket(bucket: Bucket, records: WritableArray, processor: Processor, format: int -> string)
    modifies records
    ensures records.items == old(records.items) + BucketRecords(bucket.dataSets, CoercionOf(processor), format)
  {
    var dataSets := bucket.dataSets;
    var m := 0;
    while m < |dataSets|
      invariant 0 <= m <= |dataSets|
      invariant records.items == old(records.items) + BucketRecords(dataSets[..m], CoercionOf(processor), format)
    {
      Process(processor, dataSets[m], records, format);
      assert dataSets[..m + 1][..m] == dataSets[..m];
      m := m + 1;
    }
    assert dataSets[..m] == dataSets;
  }

  /**
   * A bucketed reader's success handler: with at least one bucket it
   * flattens every bucket's data sets into a new array and resolves with it;
   * with none it never settles the promise.
   */
  method OnReadSuccess(response: DataReadResponse, processor: Processor, format: int -> string)
      returns (c: Completion<seq<Record>>)
    ensures |response.buckets| > 0 ==> c == Resolved(ResponseRecords(response.buckets, CoercionOf(processor), format))
    ensures |response.buckets| == 0 ==> c == Pending
  {
    var bs := response.buckets;
    if |bs| > 0 {
      var records := new WritableArray();
      var k := 0;
      while k < |bs|
        invariant 0 <= k <= |bs|
        invariant records.items == ResponseRecords(bs[..k], CoercionOf(processor), format)
      {
        ProcessBucket(bs[k], records, processor, format);
        assert bs[..k + 1][..k] == bs[..k];
        k := k + 1;
      }
      assert bs[..k] == bs;
      c := Resolved(records.items);
    } else {
      c := Pending;
    }
  }

  /** What a bucketed reader's listeners do with its promise, given how the read task ended. */
  function ReadCompletion(outcome: TaskOutcome<DataReadResponse>, c: Coercion, format: int -> string): Completion<seq<Record>>
  {
    match outcome
    case Succeeded(response) =>
      if |response.buckets| > 0 then Resolved(ResponseRecords(response.buckets, c, format)) else Pending
    case Failed(e) => Rejected(None, Some(e))
    case Canceled => Pending
  }

  /** A reader's listeners: success as above, failure rejects with the exception, cancellation settles nothing. */
  method HandleRead(outcome: TaskOutcome<DataReadResponse>, processor: Processor, format: int -> string)
      returns (c: Completion<seq<Record>>)
    ensures c == ReadCompletion(outcome, CoercionOf(processor), format)
    ensures outcome.Succeeded? && |outcome.value.buckets| > 0 ==>
              c == Resolved(ResponseRecords(outcome.value.buckets, CoercionOf(processor), format))
    ensures outcome.Succeeded? && |outcome.value.buckets| == 0 ==> c == Pending
    ensures outcome.Failed? ==> c == Rejected(None, Some(outcome.error))
    ensures outcome.Canceled? ==> c == Pending
  {
    match outcome
    case Succeeded(response) =>
      c := OnReadSuccess(response, processor, format);
    case Failed(e) =>
      c := Rejected(None, Some(e));
    case Canceled =>
      c := Pending;
  }

  /** The most recent weight sample; grams and pounds are derived from kilograms and not modelled. */
  datatype WeightRecord = WeightRecord(kilograms: Value, startDate: int, endDate: int)

  /**
   * getWeight's success handler: a non-empty TYPE_WEIGHT data set resolves
   * with its first point's weight and raw millisecond times; an empty one
   * never settles the promise.
   */
  function OnWeightSuccess(response: DataReadResponse): (c: Completion<WeightRecord>)
    ensures c.Resolved? <==> (|response.weightDataSet.points| > 0 && |response.weightDataSet.points[0].values| > 0)
    ensures c.Resolved? ==>
              var dp := response.weightDataSet.points[0];
              c.value == WeightRecord(dp.values[0], dp.startMillis, dp.endMillis)
    ensures !c.Resolved? ==> c == Pending
  {
    var ps := response.weightDataSet.points;
    if |ps| > 0 && |ps[0].values| > 0 then
      Resolved(WeightRecord(ps[0].values[0], ps[0].startMillis, ps[0].endMillis))
    else
      Pending
  }

  /** getWeight's listeners: success as above, failure rejects with the exception, cancellation settles nothing. */
  function WeightCompletion(outcome: TaskOutcome<DataReadResponse>): (c: Completion<WeightRecord>)
    ensures outcome.Succeeded? ==> c == OnWeightSuccess(outcome.value)
    ensures outcome.Failed? ==> c == Rejected(None, Some(outcome.error))
    ensures outcome.Canceled? ==> c == Pending
    ensures c.Resolved? ==> outcome.Succeeded? && |outcome.value.weightDataSet.points| > 0
  {
    match outcome
    case Succeeded(response) => OnWeightSuccess(response)
    case Failed(e) => Rejected(None, Some(e))
    case Canceled => Pending
  }
}

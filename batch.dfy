/** A batch of metrics: the request body it is sent as, the two halves it is
    split into when that body is too large, and the metrics it hands on. */
module Batch {

  import opened Wrappers
  import opened Times
  import opened Json
  import opened Writer
  import opened Metrics
  import opened MetricWriters

  /** metricBatch: a start time and a length shared by all its metrics, raw
      attributes shared by all of them (None stands for a nil message), and
      the metrics in the order they were added. */
  datatype MetricBatch = MetricBatch(
    timestamp: Time,
    interval: Duration,
    attributesJSON: Option<string>,
    metrics: seq<Metric>)

  // ---------------------------------------------------------------------
  // The request body, as a JSON tree.

  /** The fields of the "common" object: the time fields, then the raw
      attributes when there are any. A batch has no attribute map. */
  function CommonFields(b: MetricBatch): seq<Field> {
    TimestampIntervalFields(b.timestamp, b.interval) + AttributeFields(None, b.attributesJSON)
  }

  /** Each metric's object, in the batch's order. */
  function MetricValues(ms: seq<Metric>): (vs: seq<Value>)
    ensures |vs| == |ms|
    ensures forall i :: 0 <= i < |ms| ==> vs[i] == Encoding(ms[i])
  {
    seq(|ms|, i requires 0 <= i < |ms| => Encoding(ms[i]))
  }

  /** The body: an array holding one object with "common" and "metrics". */
  function BatchValue(b: MetricBatch): Value {
    Array([Object(BodyFields(b))])
  }

  /** The two fields of the body object. */
  function BodyFields(b: MetricBatch): seq<Field> {
    [Field("common", Object(CommonFields(b))), Field("metrics", Array(MetricValues(b.metrics)))]
  }

  // ---------------------------------------------------------------------
  // The writers.

  /** A single item is written without any comma. */
  lemma RenderItemsOne(r: Renderer, v: Value)
    ensures RenderItems(r, [v]) == Render(r, v)
  {
  }

  lemma MetricValuesAppend(ms: seq<Metric>, m: Metric)
    ensures MetricValues(ms + [m]) == MetricValues(ms) + [Encoding(m)]
  {
  }

  /** The loop body of metricsArray.WriteJSON: a comma unless it is the
      first metric, then the metric itself. */
  method WriteSeparated(r: Renderer, m: Metric, first: bool, buf: Buffer)
    modifies buf
    ensures buf.bytes == old(buf.bytes) + Sep(!first) + Render(r, Encoding(m))
  {
    ghost var before := buf.bytes;
    if !first {
      buf.WriteByte(',');
    } else {
      AppendEmpty(before);
    }
    WriteJSON(r, m, buf);
  }

  /** The texts of the first metrics and of one more. */
  lemma MetricTextsStep(r: Renderer, ms: seq<Metric>, idx: nat)
    requires idx < |ms|
    ensures ItemTexts(r, MetricValues(ms[..idx + 1]))
         == ItemTexts(r, MetricValues(ms[..idx])) + [Render(r, Encoding(ms[idx]))]
  {
    assert ms[..idx + 1] == ms[..idx] + [ms[idx]];
    MetricValuesAppend(ms[..idx], ms[idx]);
    ItemTextsAppend(r, MetricValues(ms[..idx]), [Encoding(ms[idx])]);
  }

  /** metricsArray.WriteJSON: the metrics between brackets, a comma before
      each one but the first. */
  method WriteMetricsArray(r: Renderer, ms: seq<Metric>, buf: Buffer)
    modifies buf
    ensures buf.bytes == old(buf.bytes) + Render(r, Array(MetricValues(ms)))
  {
    ghost var start := buf.bytes;
    buf.WriteByte('[');
    assert ms[..0] == [];
    for idx := 0 to |ms|
      invariant buf.bytes == start + "[" + Join(ItemTexts(r, MetricValues(ms[..idx])))
    {
      ghost var done := ItemTexts(r, MetricValues(ms[..idx]));
      WriteSeparated(r, ms[idx], idx == 0, buf);
      JoinChain(start + "[", done, Render(r, Encoding(ms[idx])));
      MetricTextsStep(r, ms, idx);
    }
    assert ms[..|ms|] == ms;
    buf.WriteByte(']');
    ArrayTextAfter(r, start, MetricValues(ms));
  }

  /** The fields of the common object, by a fresh fields writer. */
  method WriteCommonFields(w: FieldsWriter, timestamp: Time, interval: Duration, attributesJSON: Option<string>)
    requires !w.needsComma
    modifies w, w.buf
    ensures w.buf.bytes == old(w.buf.bytes)
      + Continue(w.r, false, TimestampIntervalFields(timestamp, interval) + AttributeFields(None, attributesJSON))
  {
    ghost var b0 := w.buf.bytes;
    WriteTimestampInterval(w, timestamp, interval);
    WriteRawAttributes(w, attributesJSON);
    ContinueChain(w.r, b0, false, TimestampIntervalFields(timestamp, interval), AttributeFields(None, attributesJSON));
  }

  /** The raw attributes of the common object, when there are any. */
  method WriteRawAttributes(w: FieldsWriter, attributesJSON: Option<string>)
    modifies w, w.buf
    ensures w.needsComma == (old(w.needsComma) || attributesJSON.Some?)
    ensures w.buf.bytes == old(w.buf.bytes) + Continue(w.r, old(w.needsComma), AttributeFields(None, attributesJSON))
  {
    if attributesJSON.Some? {
      w.RawField("attributes", attributesJSON.value);
    } else {
      AppendEmpty(w.buf.bytes);
    }
  }

  /** commonAttributes.WriteJSON: the time fields and the raw attributes,
      between braces. */
  method WriteCommon(r: Renderer, b: MetricBatch, buf: Buffer)
    modifies buf
    ensures buf.bytes == old(buf.bytes) + Render(r, Object(CommonFields(b)))
  {
    ghost var start := buf.bytes;
    buf.WriteByte('{');
    var w := new FieldsWriter(buf, r);
    WriteCommonFields(w, b.timestamp, b.interval, b.attributesJSON);
    buf.WriteByte('}');
    ObjectText(r, start, CommonFields(b));
  }

  /** w.WriterField("common", commonAttributes(b)). WriterField is AddKey
      followed by the nested writer's WriteJSON. */
  method CommonField(w: FieldsWriter, b: MetricBatch)
    modifies w, w.buf
    ensures w.needsComma
    ensures w.buf.bytes == old(w.buf.bytes)
      + Continue(w.r, old(w.needsComma), [Field("common", Object(CommonFields(b)))])
  {
    ghost var b0 := w.buf.bytes;
    ghost var nc := w.needsComma;
    w.AddKey("common");
    WriteCommon(w.r, b, w.buf);
    FieldText(w.r, b0, nc, "common", Object(CommonFields(b)));
  }

  /** w.WriterField("metrics", metricsArray(ms)). */
  method MetricsField(w: FieldsWriter, ms: seq<Metric>)
    modifies w, w.buf
    ensures w.needsComma
    ensures w.buf.bytes == old(w.buf.bytes)
      + Continue(w.r, old(w.needsComma), [Field("metrics", Array(MetricValues(ms)))])
  {
    ghost var b0 := w.buf.bytes;
    ghost var nc := w.needsComma;
    w.AddKey("metrics");
    WriteMetricsArray(w.r, ms, w.buf);
    FieldText(w.r, b0, nc, "metrics", Array(MetricValues(ms)));
  }

  /** The two fields of the body object, by a fresh fields writer. */
  method WriteBody(w: FieldsWriter, b: MetricBatch)
    requires !w.needsComma
    modifies w, w.buf
    ensures w.buf.bytes == old(w.buf.bytes) + Continue(w.r, false, BodyFields(b))
  {
    ghost var b0 := w.buf.bytes;
    ghost var common := Field("common", Object(CommonFields(b)));
    ghost var metrics := Field("metrics", Array(MetricValues(b.metrics)));
    CommonField(w, b);
    MetricsField(w, b.metrics);
    ContinueChain(w.r, b0, false, [common], [metrics]);
    assert [common] + [metrics] == BodyFields(b);
  }

  /** metricBatch.writeJSON. */
  method WriteBatch(r: Renderer, b: MetricBatch, buf: Buffer)
    modifies buf
    ensures buf.bytes == old(buf.bytes) + Render(r, BatchValue(b))
  {
    ghost var start := buf.bytes;
    buf.WriteByte('[');
    buf.WriteByte('{');
    var w := new FieldsWriter(buf, r);
    WriteBody(w, b);
    buf.WriteByte('}');
    ObjectText(r, start + "[", BodyFields(b));
    buf.WriteByte(']');
    ghost var body := Object(BodyFields(b));
    RenderItemsOne(r, body);
    ArrayTextAfter(r, start, [body]);
  }

  lemma TwoFields(r: Renderer, a: Field, b: Field)
    ensures RenderFields(r, [a, b]) == RenderField(r, a) + "," + RenderField(r, b)
  {
    FieldsText(r, [a, b]);
    assert FieldTexts(r, [a, b])[1..] == [RenderField(r, b)];
  }

  /** metricBatch.makeBody: the bytes writeJSON leaves in a fresh buffer. */
  method MakeBody(r: Renderer, b: MetricBatch) returns (body: string)
    ensures body == Render(r, BatchValue(b))
  {
    var buf := new Buffer();
    WriteBatch(r, b, buf);
    body := buf.bytes;
  }

  // ---------------------------------------------------------------------
  // What the body looks like.

  /** The body is `[{"common":<common>,"metrics":[<metrics>]}]`. */
  lemma BodyShape(r: Renderer, b: MetricBatch)
    ensures Render(r, BatchValue(b)) ==
      "[{" + r.str("common") + ":" + Render(r, Object(CommonFields(b)))
      + "," + r.str("metrics") + ":[" + RenderItems(r, MetricValues(b.metrics)) + "]}]"
  {
    var common := Field("common", Object(CommonFields(b)));
    var metrics := Field("metrics", Array(MetricValues(b.metrics)));
    var body := Object([common, metrics]);
    var k1, c, k2, items := r.str("common"), Render(r, Object(CommonFields(b))), r.str("metrics"), RenderItems(r, MetricValues(b.metrics));
    var m := "[" + items + "]";
    var fields := k1 + ":" + c + "," + (k2 + ":" + m);
    TwoFields(r, common, metrics);
    ArrayText(r, MetricValues(b.metrics));
    assert RenderFields(r, [common, metrics]) == fields;
    RenderItemsOne(r, body);
    ArrayText(r, [body]);
    assert Render(r, BatchValue(b)) == "[" + ("{" + fields + "}") + "]";
    calc {
      "[" + ("{" + fields + "}") + "]";
      { Assoc("[", "{" + fields, "}"); Assoc("[", "{", fields); }
      "[" + "{" + fields + "}" + "]";
      { assert "[" + "{" == "[{"; Assoc("[{" + fields, "}", "]"); assert "}" + "]" == "}]"; }
      "[{" + fields + "}]";
      { Assoc("[{" + (k1 + ":" + c) + ",", k2 + ":", m);
        Assoc("[{" + (k1 + ":" + c) + ",", k2, ":");
        Assoc("[{" + (k1 + ":" + c), ",", k2 + ":" + m);
        Assoc("[{" + (k1 + ":"), c, ",");
        Assoc("[{" + k1, ":", c);
        Assoc("[{", k1, ":");
        Assoc("[{", k1 + ":", c);
        Assoc("[{", k1 + ":" + c, ",");
        Assoc("[{", k1 + ":" + c + ",", k2 + ":" + m); }
      "[{" + k1 + ":" + c + "," + k2 + ":" + m + "}]";
      { Assoc("[{" + k1 + ":" + c + "," + k2 + ":", "[" + items, "]");
        Assoc("[{" + k1 + ":" + c + "," + k2 + ":", "[", items);
        Assoc("[{" + k1 + ":" + c + "," + k2, ":", "[");
        assert ":" + "[" == ":[";
        Assoc("[{" + k1 + ":" + c + "," + k2 + ":[" + items, "]", "}]");
        assert "]" + "}]" == "]}]"; }
      "[{" + k1 + ":" + c + "," + k2 + ":[" + items + "]}]";
    }
  }

  /** The metrics' texts are joined in the batch's order with single commas:
      none for no metrics, none around a single one, and each further metric
      adds one comma and its own text at the end. */
  lemma MetricsInOrder(r: Renderer, ms: seq<Metric>, m: Metric)
    ensures RenderItems(r, MetricValues([])) == ""
    ensures RenderItems(r, MetricValues([m])) == Render(r, Encoding(m))
    ensures RenderItems(r, MetricValues(ms + [m])) ==
      RenderItems(r, MetricValues(ms)) + (if ms == [] then "" else ",") + Render(r, Encoding(m))
  {
    assert MetricValues([m]) == [Encoding(m)];
    RenderItemsOne(r, Encoding(m));
    MetricValuesAppend(ms, m);
    RenderItemsAppend(r, MetricValues(ms), [Encoding(m)]);
  }

  /** The common object only ever carries the raw attributes, verbatim. */
  lemma CommonAttributes(b: MetricBatch)
    ensures Lookup(CommonFields(b), "attributes") ==
      if b.attributesJSON.Some? then Some(Raw(b.attributesJSON.value)) else None
  {
    var ts := if b.timestamp.Some? then [Field("timestamp", Int(Millis(b.timestamp.value)))] else [];
    var iv := if b.interval != 0 then [Field("interval.ms", Int(Millis(b.interval)))] else [];
    var af := if b.attributesJSON.Some? then [Field("attributes", Raw(b.attributesJSON.value))] else [];
    assert CommonFields(b) == ts + iv + af;
    LookupAppend(ts + iv, af, "attributes");
    LookupAppend(ts, iv, "attributes");
  }

  /** The common object's time fields follow the same rule as a metric's. */
  lemma CommonTimes(b: MetricBatch)
    ensures Lookup(CommonFields(b), "timestamp") ==
      if b.timestamp.Some? then Some(Int(TruncDiv(b.timestamp.value as int, NanosPerMilli))) else None
    ensures Lookup(CommonFields(b), "interval.ms") ==
      if b.interval != 0 then Some(Int(TruncDiv(b.interval as int, NanosPerMilli))) else None
  {
    var ts := if b.timestamp.Some? then [Field("timestamp", Int(Millis(b.timestamp.value)))] else [];
    var iv := if b.interval != 0 then [Field("interval.ms", Int(Millis(b.interval)))] else [];
    var af := if b.attributesJSON.Some? then [Field("attributes", Raw(b.attributesJSON.value))] else [];
    assert CommonFields(b) == ts + iv + af;
    LookupAppend(ts + iv, af, "timestamp");
    LookupAppend(ts + iv, af, "interval.ms");
    LookupAppend(ts, iv, "timestamp");
    LookupAppend(ts, iv, "interval.ms");
  }

  // ---------------------------------------------------------------------
  // Splitting.

  /** metricBatch.split: nothing for fewer than two metrics, else two copies
      of the batch holding the front and the back half of the metrics. */
  function Split(b: MetricBatch): (parts: seq<MetricBatch>)
    ensures |b.metrics| < 2 <==> parts == []
    ensures parts != [] ==>
      && |parts| == 2
      && parts[0].metrics == b.metrics[..|b.metrics| / 2]
      && parts[1].metrics == b.metrics[|b.metrics| / 2..]
      && parts[0].metrics + parts[1].metrics == b.metrics
      && 0 < |parts[0].metrics| < |b.metrics|
      && 0 < |parts[1].metrics| < |b.metrics|
      && forall k :: 0 <= k < 2 ==>
           && parts[k].timestamp == b.timestamp
           && parts[k].interval == b.interval
           && parts[k].attributesJSON == b.attributesJSON
  {
    if |b.metrics| < 2 then []
    else
      var half := |b.metrics| / 2;
      [b.(metrics := b.metrics[..half]), b.(metrics := b.metrics[half..])]
  }

  /** The metrics of a list of batches, one batch after the other. */
  function AllMetrics(bs: seq<MetricBatch>): seq<Metric> {
    if bs == [] then [] else bs[0].metrics + AllMetrics(bs[1..])
  }

  lemma {:induction false} AllMetricsAppend(a: seq<MetricBatch>, b: seq<MetricBatch>)
    ensures AllMetrics(a + b) == AllMetrics(a) + AllMetrics(b)
  {
    if a == [] {
      assert a + b == b;
    } else {
      assert (a + b)[1..] == a[1..] + b;
      AllMetricsAppend(a[1..], b);
    }
  }

  /** Splitting again and again, until no batch can be split: what a sender
      that keeps halving a too-large body ends up with. */
  function SplitFully(b: MetricBatch): (leaves: seq<MetricBatch>)
    ensures AllMetrics(leaves) == b.metrics
    ensures forall k :: 0 <= k < |leaves| ==>
      && |leaves[k].metrics| <= 1
      && leaves[k].timestamp == b.timestamp
      && leaves[k].interval == b.interval
      && leaves[k].attributesJSON == b.attributesJSON
    ensures |b.metrics| > 0 ==> forall k :: 0 <= k < |leaves| ==> |leaves[k].metrics| == 1
    decreases |b.metrics|
  {
    var parts := Split(b);
    if parts == [] then
      assert [b][1..] == [];
      [b]
    else
      var front, back := SplitFully(parts[0]), SplitFully(parts[1]);
      AllMetricsAppend(front, back);
      front + back
  }

  /** The two halves' bodies together carry the original's metric objects:
      the original's metric text is the front half's, a comma, and the back
      half's. */
  lemma SplitMetricsText(r: Renderer, b: MetricBatch)
    requires |b.metrics| >= 2
    ensures RenderItems(r, MetricValues(b.metrics)) ==
      RenderItems(r, MetricValues(Split(b)[0].metrics)) + ","
      + RenderItems(r, MetricValues(Split(b)[1].metrics))
  {
    var parts := Split(b);
    assert MetricValues(b.metrics) == MetricValues(parts[0].metrics) + MetricValues(parts[1].metrics);
    RenderItemsAppend(r, MetricValues(parts[0].metrics), MetricValues(parts[1].metrics));
  }

  /** Both halves have the original's common object. */
  lemma SplitKeepsCommon(b: MetricBatch)
    requires |b.metrics| >= 2
    ensures CommonFields(Split(b)[0]) == CommonFields(b)
    ensures CommonFields(Split(b)[1]) == CommonFields(b)
  {
  }

  // ---------------------------------------------------------------------
  // The metrics as data types.

  /** metricBatch.GetDataTypes: a new array holding the batch's metrics in
      order. */
  method GetDataTypes(b: MetricBatch) returns (dataTypes: array<Metric>)
    ensures fresh(dataTypes)
    ensures dataTypes[..] == b.metrics
  {
    dataTypes := new Metric[|b.metrics|];
    for i := 0 to |b.metrics|
      invariant dataTypes[..i] == b.metrics[..i]
    {
      dataTypes[i] := b.metrics[i];
    }
    assert dataTypes[..] == dataTypes[..|b.metrics|];
  }
}

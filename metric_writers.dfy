/** The writeJSON methods of the three metric kinds: each appends one JSON
    object to the buffer, field by field, and leaves exactly the bytes of
    `Render(r, Encoding(m))` behind the bytes already there. */
module MetricWriters {

  import opened Wrappers
  import opened Times
  import opened Json
  import opened Writer
  import opened Metrics

  /** Writes the optional "timestamp" and "interval.ms" fields. */
  method WriteTimestampInterval(w: FieldsWriter, timestamp: Time, interval: Duration)
    modifies w, w.buf
    ensures w.needsComma == (old(w.needsComma) || TimestampIntervalFields(timestamp, interval) != [])
    ensures w.buf.bytes == old(w.buf.bytes) + Continue(w.r, old(w.needsComma), TimestampIntervalFields(timestamp, interval))
  {
    ghost var nc := w.needsComma;
    ghost var b0 := w.buf.bytes;
    ghost var ts := if timestamp.Some? then [Field("timestamp", Int(Millis(timestamp.value)))] else [];
    if timestamp.Some? {
      w.IntField("timestamp", Millis(timestamp.value) as int64);
    } else {
      AppendEmpty(b0);
    }
    ghost var b1 := w.buf.bytes;
    ghost var iv := if interval != 0 then [Field("interval.ms", Int(Millis(interval)))] else [];
    if interval != 0 {
      w.IntField("interval.ms", Millis(interval) as int64);
    } else {
      AppendEmpty(b1);
    }
    Assoc(b0, Continue(w.r, nc, ts), Continue(w.r, nc || ts != [], iv));
    ContinueAppend(w.r, nc, ts, iv);
  }

  /** Writes "attributes" from the map when there is one, else from the raw
      message when there is one (the same if/else ends all three writers). */
  method WriteAttributes(w: FieldsWriter, attributes: Option<Attributes>, attributesJSON: Option<string>)
    modifies w, w.buf
    ensures w.needsComma == (old(w.needsComma) || AttributeFields(attributes, attributesJSON) != [])
    ensures w.buf.bytes == old(w.buf.bytes) + Continue(w.r, old(w.needsComma), AttributeFields(attributes, attributesJSON))
  {
    if attributes.Some? {
      w.AttributesField("attributes", attributes.value);
    } else if attributesJSON.Some? {
      w.RawField("attributes", attributesJSON.value);
    } else {
      AppendEmpty(w.buf.bytes);
    }
  }

  /** The fields every writer ends with: the time fields, then the
      attributes. */
  method WriteTimesAndAttributes(w: FieldsWriter, timestamp: Time, interval: Duration,
                                 attributes: Option<Attributes>, attributesJSON: Option<string>)
    modifies w, w.buf
    ensures w.needsComma == (old(w.needsComma) || Tail(timestamp, interval, attributes, attributesJSON) != [])
    ensures w.buf.bytes == old(w.buf.bytes)
      + Continue(w.r, old(w.needsComma), Tail(timestamp, interval, attributes, attributesJSON))
  {
    ghost var nc := w.needsComma;
    ghost var b0 := w.buf.bytes;
    ghost var ti := TimestampIntervalFields(timestamp, interval);
    WriteTimestampInterval(w, timestamp, interval);
    WriteAttributes(w, attributes, attributesJSON);
    ContinueChain(w.r, b0, nc, ti, AttributeFields(attributes, attributesJSON));
  }

  /** The fields after "value", common to all three kinds. */
  function Tail(timestamp: Time, interval: Duration,
                attributes: Option<Attributes>, attributesJSON: Option<string>): seq<Field> {
    TimestampIntervalFields(timestamp, interval) + AttributeFields(attributes, attributesJSON)
  }

  /** The "name" and "type" fields every metric starts with. */
  method WriteHead(w: FieldsWriter, name: string, kind: string)
    requires !w.needsComma
    modifies w, w.buf
    ensures w.needsComma
    ensures w.buf.bytes == old(w.buf.bytes) + Continue(w.r, false, [Field("name", Str(name)), Field("type", Str(kind))])
  {
    ghost var base := w.buf.bytes;
    ghost var n, t := Field("name", Str(name)), Field("type", Str(kind));
    w.StringField("name", name);
    w.StringField("type", kind);
    ContinueChain(w.r, base, false, [n], [t]);
    assert [n] + [t] == [n, t];
  }

  /** The bytes of a writer that wrote the head, one more field and the
      tail between braces. */
  lemma Assembled(r: Renderer, start: string, head: seq<Field>, value: Field, tail: seq<Field>)
    requires head != []
    ensures start + "{" + Continue(r, false, head) + Continue(r, true, [value]) + Continue(r, true, tail) + "}"
         == start + Render(r, Object(head + [value] + tail))
  {
    ContinueChain(r, start + "{", false, head, [value]);
    ContinueChain(r, start + "{", false, head + [value], tail);
    ObjectText(r, start, head + [value] + tail);
  }

  /** Count.writeJSON */
  method WriteCount(r: Renderer, c: Count, buf: Buffer)
    modifies buf
    ensures buf.bytes == old(buf.bytes) + Render(r, Object(CountFields(c)))
  {
    ghost var start := buf.bytes;
    var w := new FieldsWriter(buf, r);
    w.buf.WriteByte('{');
    WriteHead(w, c.name, "count");
    w.FloatField("value", c.value);
    WriteTimesAndAttributes(w, c.timestamp, c.interval, c.attributes, c.attributesJSON);
    w.buf.WriteByte('}');
    ghost var head := [Field("name", Str(c.name)), Field("type", Str("count"))];
    ghost var tail := Tail(c.timestamp, c.interval, c.attributes, c.attributesJSON);
    Assembled(r, start, head, Field("value", Num(c.value)), tail);
    assert CountFields(c) == head + [Field("value", Num(c.value))] + tail;
  }

  /** Gauge.writeJSON: the interval handed on is always zero. */
  method WriteGauge(r: Renderer, g: Gauge, buf: Buffer)
    modifies buf
    ensures buf.bytes == old(buf.bytes) + Render(r, Object(GaugeFields(g)))
  {
    ghost var start := buf.bytes;
    var w := new FieldsWriter(buf, r);
    buf.WriteByte('{');
    WriteHead(w, g.name, "gauge");
    w.FloatField("value", g.value);
    WriteTimesAndAttributes(w, g.timestamp, 0, g.attributes, g.attributesJSON);
    buf.WriteByte('}');
    ghost var head := [Field("name", Str(g.name)), Field("type", Str("gauge"))];
    ghost var tail := Tail(g.timestamp, 0, g.attributes, g.attributesJSON);
    Assembled(r, start, head, Field("value", Num(g.value)), tail);
    assert GaugeFields(g) == head + [Field("value", Num(g.value))] + tail;
  }

  /** The fields of a summary's nested value object: `vw` is the nested
      writer, `w` the outer one, which writes a NaN minimum. */
  method WriteStats(w: FieldsWriter, vw: FieldsWriter, s: Summary)
    requires w != vw && w.buf == vw.buf && w.r == vw.r
    requires w.needsComma && !vw.needsComma
    modifies w, vw, w.buf
    ensures w.needsComma
    ensures w.buf.bytes == old(w.buf.bytes) + Continue(w.r, false, SummaryStats(s))
  {
    ghost var r := w.r;
    ghost var base := w.buf.bytes;
    ghost var sum := Field("sum", Num(s.sum));
    ghost var count := Field("count", Num(s.count));
    ghost var minField := Field("min", if s.min.IsNaN() then Null else Num(s.min));
    ghost var maxField := Field("max", if s.max.IsNaN() then Null else Num(s.max));
    vw.FloatField("sum", s.sum);
    vw.FloatField("count", s.count);
    ContinueChain(r, base, false, [sum], [count]);
    assert [sum] + [count] == [sum, count];
    WriteMin(w, vw, s);
    ContinueChain(r, base, false, [sum, count], [minField]);
    assert [sum, count] + [minField] == [sum, count, minField];
    WriteMax(vw, s);
    ContinueChain(r, base, false, [sum, count, minField], [maxField]);
    assert [sum, count, minField] + [maxField] == SummaryStats(s);
  }

  /** The "min" field: RawField("min", "null") on the outer writer when the
      minimum is NaN, FloatField on the nested one otherwise. Both writers
      have written a field before, so the bytes are the same either way. */
  method WriteMin(w: FieldsWriter, vw: FieldsWriter, s: Summary)
    requires w != vw && w.buf == vw.buf && w.r == vw.r
    requires w.needsComma && vw.needsComma
    modifies w, vw, w.buf
    ensures w.needsComma && vw.needsComma
    ensures w.buf.bytes == old(w.buf.bytes)
      + Continue(w.r, true, [Field("min", if s.min.IsNaN() then Null else Num(s.min))])
  {
    if s.min.IsNaN() {
      w.RawField("min", "null");
    } else {
      vw.FloatField("min", s.min);
    }
  }

  /** The "max" field, on the nested writer: null when the maximum is NaN. */
  method WriteMax(vw: FieldsWriter, s: Summary)
    requires vw.needsComma
    modifies vw, vw.buf
    ensures vw.needsComma
    ensures vw.buf.bytes == old(vw.buf.bytes)
      + Continue(vw.r, true, [Field("max", if s.max.IsNaN() then Null else Num(s.max))])
  {
    if s.max.IsNaN() {
      vw.RawField("max", "null");
    } else {
      vw.FloatField("max", s.max);
    }
  }

  /** Summary.writeJSON. The nested object is written by a second fields
      writer `vw` (see WriteMin for the one field that is not). */
  method WriteSummary(r: Renderer, s: Summary, buf: Buffer)
    modifies buf
    ensures buf.bytes == old(buf.bytes) + Render(r, Object(SummaryFields(s)))
  {
    ghost var start := buf.bytes;
    var w := new FieldsWriter(buf, r);
    buf.WriteByte('{');
    WriteHead(w, s.name, "summary");
    ghost var afterHead := buf.bytes;
    w.AddKey("value");
    buf.WriteByte('{');
    var vw := new FieldsWriter(buf, r);
    WriteStats(w, vw, s);
    buf.WriteByte('}');
    ghost var value := Field("value", Object(SummaryStats(s)));
    NestedObjectField(r, afterHead, "value", SummaryStats(s));
    assert buf.bytes == afterHead + Continue(r, true, [value]);
    WriteTimesAndAttributes(w, s.timestamp, s.interval, s.attributes, s.attributesJSON);
    buf.WriteByte('}');
    ghost var head := [Field("name", Str(s.name)), Field("type", Str("summary"))];
    ghost var tail := Tail(s.timestamp, s.interval, s.attributes, s.attributesJSON);
    Assembled(r, start, head, value, tail);
    assert SummaryFields(s) == head + [value] + tail;
  }

  /** The interface call m.writeJSON(buf). */
  method WriteJSON(r: Renderer, m: Metric, buf: Buffer)
    modifies buf
    ensures buf.bytes == old(buf.bytes) + Render(r, Encoding(m))
  {
    match m
    case CountMetric(c) => WriteCount(r, c, buf);
    case GaugeMetric(g) => WriteGauge(r, g, buf);
    case SummaryMetric(s) => WriteSummary(r, s, buf);
  }
}

# Metrics of the New Relic telemetry SDK, in Dafny

This project models `telemetry/metrics.go` of the Go telemetry SDK. That file holds:

- the three metric kinds (Count, Gauge and Summary);
- the rules that reject NaN and infinite values;
- the JSON each metric writes into a byte buffer;
- the batch envelope `[{"common":…,"metrics":[…]}]` sent as one request body;
- `split`, the halving of a batch whose body was too large.

Files:

- `wrappers.dfy`: the `Option` type. `None` stands for a nil Go map, a nil raw message or a zero time.
- `floats.dfy`: a float64 classified as a finite number, NaN, +Inf or −Inf. Validation looks at nothing else.
- `times.dfy`: times and durations as 64-bit nanosecond counts. The time `None` is the zero time. `TruncDiv` is Go's division, which truncates toward zero.
- `json.dfy`: the JSON produced, as a tree of values and fields, and `Render`, the bytes that tree stands for. Three renderings are parameters of a `Renderer`, so every result holds whatever they do:
  - quoting and escaping a string;
  - formatting a float64;
  - serialising an attribute map.

  Integers are rendered in decimal and parsed back. The comma lists satisfy append laws, and field lists can be looked up by key.
- `writer.dfy`: the `Buffer` class, a `bytes.Buffer` whose bytes are only appended, and the `FieldsWriter` class. A `FieldsWriter` writes `"key":value` fields to a buffer. It puts a comma before every field except the first one it wrote.
- `metrics.dfy`:
  - the metric datatypes and their accessors;
  - validation: the pure rules, `Summary.validate` as a method with its two loops, and the `Metric.validate` dispatch;
  - the field list each kind encodes to;
  - lemmas on key order, the value under each key, attribute precedence, the summary's nested object, and a gauge never having an interval.
- `metric_writers.dfy`: the three `writeJSON` methods (and `writeTimestampInterval`) as imperative methods on a `Buffer`. Each is proved to append exactly `Render(r, Encoding(m))`.
- `batch.dfy`:
  - the batch and its `common` object;
  - `metricsArray.WriteJSON` (the loop over the metrics, with a comma before all but the first);
  - `commonAttributes.WriteJSON`, `metricBatch.writeJSON` and `makeBody`;
  - the body's shape;
  - `split` and what repeated splitting yields;
  - `GetDataTypes`.

The `GetName` and `GetAttributes` accessors of each kind (`telemetry/metrics.go:46-53`, `131-139`, `231-238`) are member functions of the datatypes. They return the corresponding field. `Writer.Buffer.Write` stands for `bytes.Buffer.Write`, which only the fields writer calls: it appends its argument.

Two things the file's doc comments suggest are not what its code does. The model follows the code in both:

- The comment on `metricBatch.AttributesJSON` (`telemetry/metrics.go:286-289`) speaks of an `Attributes` field of the batch, but `metricBatch` has no such field, only the raw `AttributesJSON`. The `common` object therefore only ever carries the raw message (`telemetry/metrics.go:314-316`).
- The comments on `Count.Timestamp` and `Summary.Timestamp` (`telemetry/metrics.go:37-38`, `123-124`) say that an unset timestamp is replaced by the Harvester's period start. The code here writes no timestamp for such a metric (`telemetry/metrics.go:73-76`). The batch's own timestamp and interval are written once, in `common` (`telemetry/metrics.go:310-318`).

In `Summary.writeJSON` a NaN minimum is written through the outer writer `w`, not through the nested `vw` (`telemetry/metrics.go:184`). The model writes it exactly that way (`MetricWriters.WriteMin`). At that point both writers have already written a field, so each puts a comma first. The bytes are therefore those of `{"sum":…,"count":…,"min":null,…}`, and `MetricWriters.WriteSummary` proves this.

## Model

| member | source | states |
|---|---|---|
| `Times.TruncDiv` | telemetry/metrics.go:75 | the quotient rounds toward zero: for a non-negative dividend the remainder is in [0, b), for a negative one in (−b, 0] |
| `Times.Millis` | telemetry/metrics.go:78 | nanoseconds divided by 1,000,000 with truncation still fit in 64 bits |
| `Metrics.Count.GetName` | telemetry/metrics.go:45-48 | a count's name is its Name field |
| `Metrics.Count.GetAttributes` | telemetry/metrics.go:50-53 | a count's attributes are its Attributes map (None for a nil map) |
| `Metrics.Summary.GetName` | telemetry/metrics.go:131-134 | a summary's name is its Name field |
| `Metrics.Summary.GetAttributes` | telemetry/metrics.go:136-139 | a summary's attributes are its Attributes map (None for a nil map) |
| `Metrics.Gauge.GetName` | telemetry/metrics.go:230-233 | a gauge's name is its Name field |
| `Metrics.Gauge.GetAttributes` | telemetry/metrics.go:235-238 | a gauge's attributes are its Attributes map (None for a nil map) |
| `Metrics.Metric.GetName` | telemetry/metrics.go:67-68 | the interface call returns the Name of whichever kind the metric is |
| `Metrics.Metric.GetAttributes` | telemetry/metrics.go:67-68 | the interface call returns the Attributes of whichever kind the metric is |
| `Metrics.IsFloatValid` | telemetry/metrics.go:56 | the float check passes exactly for finite values and reports the NaN error exactly for NaN (the infinity error otherwise) |
| `Metrics.ValidateCount` | telemetry/metrics.go:55-64 | no failure iff the value is finite; otherwise "invalid count value", the metric's name, and the NaN error exactly when the value is NaN |
| `Metrics.ValidateGauge` | telemetry/metrics.go:240-249 | no failure iff the value is finite; otherwise "invalid gauge field", the metric's name, and the NaN error exactly when the value is NaN |
| `Metrics.SummaryFailure` | telemetry/metrics.go:141-169 | no failure iff count and sum are finite and neither min nor max is infinite; a failure is "invalid summary field" with the name; count is checked first, then sum (each reporting NaN vs infinity), and a min/max failure is always the infinity error |
| `Metrics.ValidateSummary` | telemetry/metrics.go:141-169 | the two early-returning loops over [Count, Sum] and [Min, Max] return exactly `SummaryFailure` |
| `Metrics.Verdict` | telemetry/metrics.go:67-71 | any metric passes validation iff `Acceptable` holds, and a failure carries the metric's name |
| `Metrics.Validate` | telemetry/metrics.go:67-71 | the interface call `validate()` dispatches to the kind's rule and returns `Verdict` |
| `Metrics.FieldOrder` | telemetry/metrics.go:82-95 | the keys of every metric's object are exactly the emitted keys among name, type, value, timestamp, interval.ms, attributes, in that order |
| `Metrics.KeyPresence` | telemetry/metrics.go:73-80 | a key is in a metric's object iff the metric emits it: timestamp iff the time is non-zero, interval.ms iff a count's or summary's interval is non-zero, attributes iff either attribute form is set |
| `Metrics.FieldValues` | telemetry/metrics.go:73-80 | name, type and value hold the name, the kind and the value; timestamp is UnixNano/1,000,000 truncated exactly when the time is non-zero; interval.ms is nanoseconds/1,000,000 truncated exactly when the interval is non-zero, never for a gauge |
| `Metrics.AttributePrecedence` | telemetry/metrics.go:89-93 | "attributes" holds the map when there is one (the raw message ignored), else the raw message verbatim, else is absent; the same for all three kinds |
| `Metrics.SummaryValueObject` | telemetry/metrics.go:178-193 | a summary's value is the nested object with keys sum, count, min, max in that order; min is null iff Min is NaN and max is null iff Max is NaN, independently, and otherwise hold the numbers |
| `Metrics.GaugeHasNoInterval` | telemetry/metrics.go:257 | a gauge's object never has the key interval.ms |
| `Json.IntTextRoundTrip` | telemetry/metrics.go:75-79 | the decimal text an integer field writes reads back as the same integer |
| `Json.ContinueAppend` | telemetry/metrics.go:85-93 | a fields writer that writes one list of fields and then another appends the same bytes as writing both in one go |
| `Json.JoinAppend` | telemetry/metrics.go:297-306 | joining two comma lists gives the first, one comma if both are non-empty, and the second |
| `Writer.Buffer.constructor` | telemetry/metrics.go:350 | a new buffer is empty |
| `Writer.Buffer.WriteByte` | telemetry/metrics.go:173 | appends exactly the one byte |
| `Writer.FieldsWriter.constructor` | telemetry/metrics.go:172 | a new fields writer over the buffer has written no field yet |
| `Writer.FieldsWriter.AddKey` | telemetry/metrics.go:178 | appends a comma unless this is the writer's first field, then the quoted key and a colon |
| `Writer.FieldsWriter.StringField` | telemetry/metrics.go:175 | appends one string field, with a comma unless it is the writer's first field |
| `Writer.FieldsWriter.IntField` | telemetry/metrics.go:75 | appends one integer field, with a comma unless it is the writer's first field |
| `Writer.FieldsWriter.FloatField` | telemetry/metrics.go:181 | appends one float field, with a comma unless it is the writer's first field |
| `Writer.FieldsWriter.RawField` | telemetry/metrics.go:184 | appends one field whose value is the raw bytes verbatim |
| `Writer.FieldsWriter.AttributesField` | telemetry/metrics.go:197 | appends one field holding the rendered attribute map |
| `MetricWriters.WriteTimestampInterval` | telemetry/metrics.go:73-80 | appends the timestamp field if the time is non-zero, then the interval field if the interval is non-zero, and marks the writer as having written a field exactly when it wrote either |
| `MetricWriters.WriteAttributes` | telemetry/metrics.go:89-93 | appends the attribute map if there is one, else the raw message if there is one, else nothing |
| `MetricWriters.WriteTimesAndAttributes` | telemetry/metrics.go:88-93 | the time fields and then the attributes are appended as one continuing field list, with commas only between fields |
| `MetricWriters.WriteHead` | telemetry/metrics.go:84-85 | a fresh writer appends the name and type fields |
| `MetricWriters.WriteCount` | telemetry/metrics.go:82-95 | appends exactly the rendered object of a count's fields |
| `MetricWriters.WriteGauge` | telemetry/metrics.go:251-264 | appends exactly the rendered object of a gauge's fields, written with a zero interval |
| `MetricWriters.WriteStats` | telemetry/metrics.go:180-192 | the nested writer and the outer writer together append the fields sum, count, min, max as one fresh writer would |
| `MetricWriters.WriteMin` | telemetry/metrics.go:183-187 | the min field, null through the outer writer or the number through the nested one, gives the same bytes either way |
| `MetricWriters.WriteMax` | telemetry/metrics.go:188-192 | the max field, null when Max is NaN, else the number |
| `MetricWriters.WriteSummary` | telemetry/metrics.go:171-202 | appends exactly the rendered object of a summary's fields, nested value object included |
| `MetricWriters.WriteJSON` | telemetry/metrics.go:69 | the interface call `writeJSON(buf)` appends exactly the rendering of the metric's encoding |
| `Batch.WriteSeparated` | telemetry/metrics.go:300-303 | one loop step appends a comma unless it is the first metric, then the metric's object |
| `Batch.WriteMetricsArray` | telemetry/metrics.go:297-306 | appends exactly the rendered array of the metrics' objects |
| `Batch.WriteCommonFields` | telemetry/metrics.go:312-316 | a fresh writer appends the batch's time fields and then its raw attributes, with commas only between fields |
| `Batch.WriteRawAttributes` | telemetry/metrics.go:314-316 | appends the raw attributes field if there is a raw message, else nothing |
| `Batch.WriteCommon` | telemetry/metrics.go:310-318 | appends exactly the rendered common object: time fields and raw attributes |
| `Batch.CommonField` | telemetry/metrics.go:324 | appends the "common" key and the common object as one field |
| `Batch.MetricsField` | telemetry/metrics.go:325 | appends the "metrics" key and the metrics array as one field |
| `Batch.WriteBody` | telemetry/metrics.go:323-325 | a fresh writer appends the "common" field and then the "metrics" field, separated by one comma |
| `Batch.WriteBatch` | telemetry/metrics.go:320-328 | appends exactly the rendered batch envelope |
| `Batch.MakeBody` | telemetry/metrics.go:349-353 | the body is exactly the rendered batch envelope |
| `Batch.BodyShape` | telemetry/metrics.go:320-328 | the envelope's bytes are `[{`, "common", `:`, the common object, `,`, "metrics", `:[`, the metrics' text, `]}]` |
| `Batch.MetricsInOrder` | telemetry/metrics.go:297-306 | the metrics' text is empty for no metrics, one metric's object for one, and each further metric adds one comma and its object at the end: no leading or trailing comma |
| `Batch.CommonAttributes` | telemetry/metrics.go:314-316 | the common object's "attributes" is the raw message verbatim when there is one, else absent |
| `Batch.CommonTimes` | telemetry/metrics.go:313 | the common object's timestamp and interval.ms follow the same truncated-milliseconds rule as a metric's |
| `Batch.Split` | telemetry/metrics.go:330-347 | nothing iff fewer than two metrics; otherwise two batches holding `Metrics[..n/2]` and `Metrics[n/2..]`, which concatenate to the original, are each non-empty and strictly shorter, and keep the timestamp, interval and raw attributes |
| `Batch.SplitFully` | telemetry/metrics.go:330-347 | splitting again until nothing splits ends in batches of at most one metric (exactly one when the original has any) that together hold the original metrics in order, each with the original's timestamp, interval and attributes |
| `Batch.SplitMetricsText` | telemetry/metrics.go:337-341 | the original's metrics text is the front half's, one comma, and the back half's |
| `Batch.SplitKeepsCommon` | telemetry/metrics.go:338-341 | both halves encode the original's common object |
| `Batch.GetDataTypes` | telemetry/metrics.go:356-362 | a new array holding the batch's metrics, same length, same order |

## Left out

- `internal.JSONFieldsWriter` and `internal.Attributes` are not part of this model. They are modelled on their observable behaviour only:
  - `"key":value` fields, with a comma before each field but the writer's first;
  - string quoting and escaping, float formatting and attribute-map serialisation, as the uninterpreted functions of a `Renderer`. Being functions, they assume that equal inputs always render to the same bytes; in particular an attribute map is assumed to serialise with the same key order every time;
  - integers in decimal, as `strconv.FormatInt` base 10 writes them.
- `isFloatValid` is called by this file but defined elsewhere, and its body is not part of this model. `Metrics.IsFloatValid` assumes what its call sites suggest: a NaN gives a NaN error, either infinity gives the infinity error `errFloatInfinity` (the error `telemetry/metrics.go:163` reports for an infinite min or max), and a finite value passes. The error texts are the two constants `ErrNaN` and `ErrInfinity`.
- IEEE-754 arithmetic and float formatting: a float is only its class (finite, NaN, +Inf, −Inf).
- `time.Time` and `time.Duration` are their nanosecond counts, and a time is zero or not. Time zones and monotonic readings are left out.
- Strings stand for bytes: a `char` is one byte of the buffer.
- The `DataType` and `requestsBuilder` interfaces are left out, as are other implementations of them. `GetDataTypes` is the upcast of each metric, and `split` returns the two batches themselves.
- The harvester and transport that decide when to call `split` or `makeBody`, retries, HTTP, compression and logging are left out: they are I/O and scheduling outside this file.
- Batch.Split: in Go the two halves `Metrics[:half]` and `Metrics[half:]` share the original's backing array, so an append to the front half would overwrite the back half's first metric. The model's halves are independent sequence values, so this aliasing is not captured; nothing in this file appends to them.

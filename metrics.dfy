/** The three metric kinds, their validation rules, and the JSON object each
    one is encoded as. */
module Metrics {

  import opened Wrappers
  import opened Floats
  import opened Times
  import opened Json

  /** A count: how often something happened over an interval. Attributes
      stands for a Go map that may be nil; AttributesJSON for a raw message
      that may be nil and is sent only when Attributes is nil. */
  datatype Count = Count(
    name: string,
    attributes: Option<Attributes>,
    attributesJSON: Option<string>,
    value: Float,
    timestamp: Time,
    interval: Duration)
  {
    function GetName(): (n: string)
      ensures n == name
    {
      name
    }

    function GetAttributes(): (a: Option<Attributes>)
      ensures a == attributes
    {
      attributes
    }
  }

  /** A summary: count, sum, minimum and maximum of the observations over an
      interval. A NaN minimum or maximum means "no data". */
  datatype Summary = Summary(
    name: string,
    attributes: Option<Attributes>,
    attributesJSON: Option<string>,
    count: Float,
    sum: Float,
    min: Float,
    max: Float,
    timestamp: Time,
    interval: Duration)
  {
    function GetName(): (n: string)
      ensures n == name
    {
      name
    }

    function GetAttributes(): (a: Option<Attributes>)
      ensures a == attributes
    {
      attributes
    }
  }

  /** A gauge: a reading taken at one moment. It has no interval. */
  datatype Gauge = Gauge(
    name: string,
    attributes: Option<Attributes>,
    attributesJSON: Option<string>,
    value: Float,
    timestamp: Time)
  {
    function GetName(): (n: string)
      ensures n == name
    {
      name
    }

    function GetAttributes(): (a: Option<Attributes>)
      ensures a == attributes
    {
      attributes
    }
  }

  /** The Metric interface, whose only implementations are the three kinds. */
  datatype Metric = CountMetric(c: Count) | GaugeMetric(g: Gauge) | SummaryMetric(s: Summary)
  {
    /** The name of whichever kind this is. */
    function GetName(): (n: string)
      ensures n == match this
        case CountMetric(c) => c.name
        case GaugeMetric(g) => g.name
        case SummaryMetric(s) => s.name
    {
      match this
      case CountMetric(c) => c.GetName()
      case GaugeMetric(g) => g.GetName()
      case SummaryMetric(s) => s.GetName()
    }

    /** The attribute map of whichever kind this is. */
    function GetAttributes(): (a: Option<Attributes>)
      ensures a == match this
        case CountMetric(c) => c.attributes
        case GaugeMetric(g) => g.attributes
        case SummaryMetric(s) => s.attributes
    {
      match this
      case CountMetric(c) => c.GetAttributes()
      case GaugeMetric(g) => g.GetAttributes()
      case SummaryMetric(s) => s.GetAttributes()
    }

    function AttributesJSON(): Option<string> {
      match this
      case CountMetric(c) => c.attributesJSON
      case GaugeMetric(g) => g.attributesJSON
      case SummaryMetric(s) => s.attributesJSON
    }

    function Timestamp(): Time {
      match this
      case CountMetric(c) => c.timestamp
      case GaugeMetric(g) => g.timestamp
      case SummaryMetric(s) => s.timestamp
    }
  }

  // ---------------------------------------------------------------------
  // Validation

  /** The two errors the float check reports. */
  datatype FloatError = ErrNaN | ErrInfinity

  /** What validate returns for a bad metric: the map with keys "message",
      "name" and "err". */
  datatype Failure = Failure(message: string, name: string, err: FloatError)

  /** The float check every validation uses: NaN and both infinities fail. */
  function IsFloatValid(f: Float): (err: Option<FloatError>)
    ensures err.None? <==> f.Finite?
    ensures err == Some(ErrNaN) <==> f.NaN?
  {
    if f.IsInf() then Some(ErrInfinity)
    else if f.IsNaN() then Some(ErrNaN)
    else None
  }

  function ValidateCount(c: Count): (failure: Option<Failure>)
    ensures failure.None? <==> c.value.Finite?
    ensures failure.Some? ==>
      && failure.value.message == "invalid count value"
      && failure.value.name == c.name
      && (failure.value.err == ErrNaN <==> c.value.NaN?)
  {
    match IsFloatValid(c.value)
    case Some(err) => Some(Failure("invalid count value", c.name, err))
    case None => None
  }

  function ValidateGauge(g: Gauge): (failure: Option<Failure>)
    ensures failure.None? <==> g.value.Finite?
    ensures failure.Some? ==>
      && failure.value.message == "invalid gauge field"
      && failure.value.name == g.name
      && (failure.value.err == ErrNaN <==> g.value.NaN?)
  {
    match IsFloatValid(g.value)
    case Some(err) => Some(Failure("invalid gauge field", g.name, err))
    case None => None
  }

  /** The outcome of validating a summary: its count is checked first, then
      its sum, each failing on NaN or an infinity; then its minimum and its
      maximum, which fail only on an infinity. */
  function SummaryFailure(s: Summary): (failure: Option<Failure>)
    ensures failure.None? <==>
      s.count.Finite? && s.sum.Finite? && !s.min.IsInf() && !s.max.IsInf()
    ensures failure.Some? ==>
      failure.value.message == "invalid summary field" && failure.value.name == s.name
    ensures !s.count.Finite? ==>
      failure.Some? && (failure.value.err == ErrNaN <==> s.count.NaN?)
    ensures s.count.Finite? && !s.sum.Finite? ==>
      failure.Some? && (failure.value.err == ErrNaN <==> s.sum.NaN?)
    ensures s.count.Finite? && s.sum.Finite? && failure.Some? ==>
      failure.value.err == ErrInfinity
  {
    if IsFloatValid(s.count).Some? then
      Some(Failure("invalid summary field", s.name, IsFloatValid(s.count).value))
    else if IsFloatValid(s.sum).Some? then
      Some(Failure("invalid summary field", s.name, IsFloatValid(s.sum).value))
    else if s.min.IsInf() || s.max.IsInf() then
      Some(Failure("invalid summary field", s.name, ErrInfinity))
    else
      None
  }

  /** Summary.validate: two loops over the checked fields, returning at the
      first one that fails. */
  method ValidateSummary(s: Summary) returns (failure: Option<Failure>)
    ensures failure == SummaryFailure(s)
  {
    var totals := [s.count, s.sum];
    var i := 0;
    while i < |totals|
      invariant 0 <= i <= |totals|
      invariant forall j :: 0 <= j < i ==> IsFloatValid(totals[j]).None?
    {
      var err := IsFloatValid(totals[i]);
      if err.Some? {
        return Some(Failure("invalid summary field", s.name, err.value));
      }
      i := i + 1;
    }
    assert s.count.Finite? && s.sum.Finite? by {
      assert totals[0] == s.count && totals[1] == s.sum;
    }
    var bounds := [s.min, s.max];
    i := 0;
    while i < |bounds|
      invariant 0 <= i <= |bounds|
      invariant forall j :: 0 <= j < i ==> !bounds[j].IsInf()
    {
      if bounds[i].IsInf() {
        return Some(Failure("invalid summary field", s.name, ErrInfinity));
      }
      i := i + 1;
    }
    assert !s.min.IsInf() && !s.max.IsInf() by {
      assert bounds[0] == s.min && bounds[1] == s.max;
    }
    return None;
  }

  /** Whether a metric passes validation, stated without the error details. */
  predicate Acceptable(m: Metric) {
    match m
    case CountMetric(c) => c.value.Finite?
    case GaugeMetric(g) => g.value.Finite?
    case SummaryMetric(s) => s.count.Finite? && s.sum.Finite? && !s.min.IsInf() && !s.max.IsInf()
  }

  /** The validation outcome of any metric. */
  function Verdict(m: Metric): (failure: Option<Failure>)
    ensures failure.None? <==> Acceptable(m)
    ensures failure.Some? ==> failure.value.name == m.GetName()
  {
    match m
    case CountMetric(c) => ValidateCount(c)
    case GaugeMetric(g) => ValidateGauge(g)
    case SummaryMetric(s) => SummaryFailure(s)
  }

  /** The interface call m.validate(). */
  method Validate(m: Metric) returns (failure: Option<Failure>)
    ensures failure == Verdict(m)
  {
    match m
    case CountMetric(c) => failure := ValidateCount(c);
    case GaugeMetric(g) => failure := ValidateGauge(g);
    case SummaryMetric(s) => failure := ValidateSummary(s);
  }

  // ---------------------------------------------------------------------
  // Encoding: the fields of each metric's JSON object, in the order the
  // writers emit them.

  /** The optional "timestamp" (a non-zero time, in milliseconds since the
      epoch) and "interval.ms" (a non-zero duration, in milliseconds). */
  function TimestampIntervalFields(timestamp: Time, interval: Duration): seq<Field> {
    (if timestamp.Some? then [Field("timestamp", Int(Millis(timestamp.value)))] else [])
    + (if interval != 0 then [Field("interval.ms", Int(Millis(interval)))] else [])
  }

  /** The optional "attributes": the map if there is one, else the raw
      message if there is one, else nothing. */
  function AttributeFields(attributes: Option<Attributes>, attributesJSON: Option<string>): seq<Field> {
    if attributes.Some? then [Field("attributes", Attrs(attributes.value))]
    else if attributesJSON.Some? then [Field("attributes", Raw(attributesJSON.value))]
    else []
  }

  /** JSON null, written as a raw message. */
  const Null: Value := Raw("null")

  /** The summary's nested "value" object. */
  function SummaryStats(s: Summary): seq<Field> {
    [ Field("sum", Num(s.sum)),
      Field("count", Num(s.count)),
      Field("min", if s.min.IsNaN() then Null else Num(s.min)),
      Field("max", if s.max.IsNaN() then Null else Num(s.max)) ]
  }

  function CountFields(c: Count): seq<Field> {
    [Field("name", Str(c.name)), Field("type", Str("count")), Field("value", Num(c.value))]
    + TimestampIntervalFields(c.timestamp, c.interval)
    + AttributeFields(c.attributes, c.attributesJSON)
  }

  /** A gauge is written with a zero interval, so it never has "interval.ms". */
  function GaugeFields(g: Gauge): seq<Field> {
    [Field("name", Str(g.name)), Field("type", Str("gauge")), Field("value", Num(g.value))]
    + TimestampIntervalFields(g.timestamp, 0)
    + AttributeFields(g.attributes, g.attributesJSON)
  }

  function SummaryFields(s: Summary): seq<Field> {
    [Field("name", Str(s.name)), Field("type", Str("summary")), Field("value", Object(SummaryStats(s)))]
    + TimestampIntervalFields(s.timestamp, s.interval)
    + AttributeFields(s.attributes, s.attributesJSON)
  }

  function Fields(m: Metric): seq<Field> {
    match m
    case CountMetric(c) => CountFields(c)
    case GaugeMetric(g) => GaugeFields(g)
    case SummaryMetric(s) => SummaryFields(s)
  }

  /** The JSON object m.writeJSON writes. */
  function Encoding(m: Metric): Value {
    Object(Fields(m))
  }

  // ---------------------------------------------------------------------
  // What the encoding promises, stated independently of how the field
  // lists are built.

  /** Every key a metric object can have, in the order they appear. */
  const CanonicalKeys: seq<string> :=
    ["name", "type", "value", "timestamp", "interval.ms", "attributes"]

  /** Whether the metric's object has the key: name, type and value always;
      timestamp when the time is non-zero; interval.ms when a count's or a
      summary's interval is non-zero, never for a gauge; attributes when
      either kind of attributes is set. */
  predicate Emits(m: Metric, key: string) {
    if key == "timestamp" then m.Timestamp().Some?
    else if key == "interval.ms" then
      match m
      case CountMetric(c) => c.interval != 0
      case GaugeMetric(_) => false
      case SummaryMetric(s) => s.interval != 0
    else if key == "attributes" then m.GetAttributes().Some? || m.AttributesJSON().Some?
    else key == "name" || key == "type" || key == "value"
  }

  /** The keys of `ks` that the metric emits, in the order of `ks`. */
  function Select(m: Metric, ks: seq<string>): seq<string> {
    if ks == [] then [] else (if Emits(m, ks[0]) then [ks[0]] else []) + Select(m, ks[1..])
  }

  lemma {:induction false} SelectAppend(m: Metric, a: seq<string>, b: seq<string>)
    ensures Select(m, a + b) == Select(m, a) + Select(m, b)
  {
    if a == [] {
      assert a + b == b;
    } else {
      assert (a + b)[1..] == a[1..] + b;
      SelectAppend(m, a[1..], b);
    }
  }

  lemma TimestampIntervalKeys(m: Metric, timestamp: Time, interval: Duration)
    requires timestamp == m.Timestamp()
    requires interval != 0 <==> Emits(m, "interval.ms")
    ensures Keys(TimestampIntervalFields(timestamp, interval)) == Select(m, ["timestamp", "interval.ms"])
  {
    var t := if timestamp.Some? then [Field("timestamp", Int(Millis(timestamp.value)))] else [];
    var i := if interval != 0 then [Field("interval.ms", Int(Millis(interval)))] else [];
    KeysAppend(t, i);
    var ks := ["timestamp", "interval.ms"];
    assert ks[1..] == ["interval.ms"] && ks[1..][1..] == [];
    assert Select(m, ks) == (if timestamp.Some? then ["timestamp"] else []) + Select(m, ks[1..]);
    assert Select(m, ks[1..]) == (if interval != 0 then ["interval.ms"] else []) + Select(m, []);
    assert Keys(t) == if timestamp.Some? then ["timestamp"] else [];
    assert Keys(i) == if interval != 0 then ["interval.ms"] else [];
  }

  lemma AttributeKeys(m: Metric)
    ensures Keys(AttributeFields(m.GetAttributes(), m.AttributesJSON())) == Select(m, ["attributes"])
  {
  }

  /** The keys of every metric object are the canonical keys it emits, in
      canonical order; so timestamp comes before interval.ms, and both
      between the value and the attributes. */
  lemma FieldOrder(m: Metric)
    ensures Keys(Fields(m)) == Select(m, CanonicalKeys)
  {
    var head := ["name", "type", "value"];
    var middle := ["timestamp", "interval.ms"];
    assert CanonicalKeys == head + middle + ["attributes"];
    SelectAppend(m, head + middle, ["attributes"]);
    SelectAppend(m, head, middle);
    SelectHead(m);
    var fs3, ti, af := Layout(m);
    TimestampIntervalKeys(m, m.Timestamp(), WrittenInterval(m));
    AttributeKeys(m);
    KeysAppend(fs3 + ti, af);
    KeysAppend(fs3, ti);
    KeysOfThree(fs3[0], fs3[1], fs3[2]);
  }

  lemma SelectHead(m: Metric)
    ensures Select(m, ["name", "type", "value"]) == ["name", "type", "value"]
  {
    var head := ["name", "type", "value"];
    assert head[1..] == ["type", "value"];
    assert head[1..][1..] == ["value"];
    assert head[1..][1..][1..] == [];
    assert Select(m, ["value"]) == ["value"];
    assert Select(m, ["type", "value"]) == ["type", "value"];
  }

  lemma KeysOfThree(a: Field, b: Field, c: Field)
    ensures Keys([a, b, c]) == [a.key, b.key, c.key]
  {
    assert [a, b, c][1..] == [b, c];
    assert [b, c][1..] == [c];
    assert [c][1..] == [];
    assert Keys([c]) == [c.key];
    assert Keys([b, c]) == [b.key, c.key];
  }

  /** The "type" field's string. */
  function TypeName(m: Metric): string {
    match m
    case CountMetric(_) => "count"
    case GaugeMetric(_) => "gauge"
    case SummaryMetric(_) => "summary"
  }

  /** The "value" field's value: the number, or a summary's nested object. */
  function MainValue(m: Metric): Value {
    match m
    case CountMetric(c) => Num(c.value)
    case GaugeMetric(g) => Num(g.value)
    case SummaryMetric(s) => Object(SummaryStats(s))
  }

  /** The interval writeJSON hands to writeTimestampInterval (zero for a gauge). */
  function WrittenInterval(m: Metric): Duration {
    match m
    case CountMetric(c) => c.interval
    case GaugeMetric(_) => 0
    case SummaryMetric(s) => s.interval
  }

  /** All three kinds share one layout: three fixed fields, then the time
      fields, then the attributes. */
  lemma Layout(m: Metric) returns (head: seq<Field>, times: seq<Field>, attrs: seq<Field>)
    ensures Fields(m) == head + times + attrs
    ensures head == [Field("name", Str(m.GetName())), Field("type", Str(TypeName(m))), Field("value", MainValue(m))]
    ensures times == TimestampIntervalFields(m.Timestamp(), WrittenInterval(m))
    ensures attrs == AttributeFields(m.GetAttributes(), m.AttributesJSON())
  {
    head := [Field("name", Str(m.GetName())), Field("type", Str(TypeName(m))), Field("value", MainValue(m))];
    times := TimestampIntervalFields(m.Timestamp(), WrittenInterval(m));
    attrs := AttributeFields(m.GetAttributes(), m.AttributesJSON());
  }

  /** The value under each key: the name, the kind, the value; the time in
      milliseconds since the epoch, truncated, exactly when the time is not
      zero; the interval in milliseconds, truncated, exactly when a count's
      or summary's interval is non-zero, and never for a gauge. */
  lemma FieldValues(m: Metric)
    ensures Lookup(Fields(m), "name") == Some(Str(m.GetName()))
    ensures Lookup(Fields(m), "type") == Some(Str(TypeName(m)))
    ensures Lookup(Fields(m), "value") == Some(MainValue(m))
    ensures Lookup(Fields(m), "timestamp") ==
      if m.Timestamp().Some? then Some(Int(TruncDiv(m.Timestamp().value as int, NanosPerMilli))) else None
    ensures Lookup(Fields(m), "interval.ms") ==
      match m
      case CountMetric(c) => if c.interval != 0 then Some(Int(TruncDiv(c.interval as int, NanosPerMilli))) else None
      case GaugeMetric(_) => None
      case SummaryMetric(s) => if s.interval != 0 then Some(Int(TruncDiv(s.interval as int, NanosPerMilli))) else None
  {
    var head, times, attrs := Layout(m);
    var ts := if m.Timestamp().Some? then [Field("timestamp", Int(Millis(m.Timestamp().value)))] else [];
    var iv := if WrittenInterval(m) != 0 then [Field("interval.ms", Int(Millis(WrittenInterval(m))))] else [];
    assert times == ts + iv;
    LookupHeadTimes(head, times, attrs, "name");
    LookupHeadTimes(head, times, attrs, "type");
    LookupHeadTimes(head, times, attrs, "value");
    LookupHeadTimes(head, times, attrs, "timestamp");
    LookupHeadTimes(head, times, attrs, "interval.ms");
    LookupOfThree(head[0], head[1], head[2], "name");
    LookupOfThree(head[0], head[1], head[2], "type");
    LookupOfThree(head[0], head[1], head[2], "value");
    LookupAppend(ts, iv, "timestamp");
    LookupAppend(ts, iv, "interval.ms");
  }

  /** A key that the attributes part does not carry is found in the fixed
      fields or the time fields. */
  lemma LookupHeadTimes(head: seq<Field>, times: seq<Field>, attrs: seq<Field>, key: string)
    requires key != "attributes"
    requires attrs == [] || (|attrs| == 1 && attrs[0].key == "attributes")
    ensures Lookup(head + times + attrs, key) ==
      if Lookup(head, key).Some? then Lookup(head, key) else Lookup(times, key)
  {
    LookupAppend(head + times, attrs, key);
    LookupAppend(head, times, key);
    if attrs != [] {
      assert attrs[1..] == [];
    }
  }

  lemma LookupOfThree(a: Field, b: Field, c: Field, key: string)
    ensures Lookup([a, b, c], key) ==
      if a.key == key then Some(a.value)
      else if b.key == key then Some(b.value)
      else if c.key == key then Some(c.value)
      else None
  {
    assert [a, b, c][1..] == [b, c];
    assert [b, c][1..] == [c];
    assert [c][1..] == [];
    assert Lookup([c], key) == if c.key == key then Some(c.value) else None;
    assert Lookup([b, c], key) == if b.key == key then Some(b.value) else Lookup([c], key);
  }

  lemma LookupOfFour(a: Field, b: Field, c: Field, d: Field, key: string)
    ensures Lookup([a, b, c, d], key) ==
      if a.key == key then Some(a.value) else Lookup([b, c, d], key)
  {
    assert [a, b, c, d][1..] == [b, c, d];
  }

  /** Attribute precedence: a map is written and the raw message ignored;
      without a map the raw message is written verbatim; with neither there
      is no "attributes" key. */
  lemma AttributePrecedence(m: Metric)
    ensures Lookup(Fields(m), "attributes") ==
      if m.GetAttributes().Some? then Some(Attrs(m.GetAttributes().value))
      else if m.AttributesJSON().Some? then Some(Raw(m.AttributesJSON().value))
      else None
  {
    var head, times, attrs := Layout(m);
    LookupAppend(head + times, attrs, "attributes");
    LookupAppend(head, times, "attributes");
    assert head[1..] == [head[1], head[2]];
    assert head[1..][1..] == [head[2]];
    assert head[1..][1..][1..] == [];
    var ts := if m.Timestamp().Some? then [Field("timestamp", Int(Millis(m.Timestamp().value)))] else [];
    var iv := if WrittenInterval(m) != 0 then [Field("interval.ms", Int(Millis(WrittenInterval(m))))] else [];
    assert times == ts + iv;
    LookupAppend(ts, iv, "attributes");
  }

  /** A summary's "value" object has the keys sum, count, min and max in
      that order; min is null exactly when the minimum is NaN and max is
      null exactly when the maximum is NaN, each independently of the other. */
  lemma SummaryValueObject(s: Summary)
    ensures Lookup(Fields(SummaryMetric(s)), "value") == Some(Object(SummaryStats(s)))
    ensures Keys(SummaryStats(s)) == ["sum", "count", "min", "max"]
    ensures Lookup(SummaryStats(s), "sum") == Some(Num(s.sum))
    ensures Lookup(SummaryStats(s), "count") == Some(Num(s.count))
    ensures Lookup(SummaryStats(s), "min") == Some(Null) <==> s.min.NaN?
    ensures Lookup(SummaryStats(s), "max") == Some(Null) <==> s.max.NaN?
    ensures !s.min.NaN? ==> Lookup(SummaryStats(s), "min") == Some(Num(s.min))
    ensures !s.max.NaN? ==> Lookup(SummaryStats(s), "max") == Some(Num(s.max))
  {
    FieldValues(SummaryMetric(s));
    var st := SummaryStats(s);
    assert st[1..] == [st[1], st[2], st[3]];
    assert st[1..][1..] == [st[2], st[3]];
    assert st[1..][1..][1..] == [st[3]];
    assert st[1..][1..][1..][1..] == [];
    assert Keys(st[1..][1..][1..]) == ["max"];
    assert Keys(st[1..][1..]) == ["min", "max"];
    assert Keys(st[1..]) == ["count", "min", "max"];
    LookupOfFour(st[0], st[1], st[2], st[3], "min");
    LookupOfFour(st[0], st[1], st[2], st[3], "max");
    LookupOfThree(st[1], st[2], st[3], "min");
    LookupOfThree(st[1], st[2], st[3], "max");
  }


  /** A selection holds only keys that are selected from and emitted. */
  lemma {:induction false} SelectSound(m: Metric, ks: seq<string>, key: string)
    ensures key in Select(m, ks) <==> key in ks && Emits(m, key)
  {
    if ks != [] {
      SelectSound(m, ks[1..], key);
      assert ks == [ks[0]] + ks[1..];
    }
  }

  /** A key is in a metric's object exactly when the metric emits it. */
  lemma KeyPresence(m: Metric, key: string)
    requires key in CanonicalKeys
    ensures key in Keys(Fields(m)) <==> Emits(m, key)
  {
    FieldOrder(m);
    SelectSound(m, CanonicalKeys, key);
  }

  /** A gauge's object never carries an interval. */
  lemma GaugeHasNoInterval(g: Gauge)
    ensures "interval.ms" !in Keys(Fields(GaugeMetric(g)))
  {
    KeyPresence(GaugeMetric(g), "interval.ms");
  }
}

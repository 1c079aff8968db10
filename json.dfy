/** The JSON the encoder produces, as a tree, and the bytes that tree stands
    for. Characters stand for bytes throughout.

    Three renderings belong to code that is not part of this model and are
    left uninterpreted: quoting and escaping a string, formatting a float64,
    and serialising an attribute map. They are the function-valued fields of
    a `Renderer`, so everything proved here holds whatever they do. */
module Json {

  import opened Wrappers
  import opened Floats

  /** A value in an attribute map: a string, a number or a boolean. */
  datatype AttrValue = AString(s: string) | ANumber(f: Float) | ABool(b: bool)

  type Attributes = map<string, AttrValue>

  /** The renderings delegated to the fields writer's helpers:
      `str` writes a quoted, escaped JSON string,
      `float` writes a float64,
      `attributes` writes an attribute map as a JSON object. */
  datatype Renderer = Renderer(
    str: string -> string,
    float: Float -> string,
    attributes: Attributes -> string)

  /** What a field of the fields writer holds: StringField writes `Str`,
      IntField `Int`, FloatField `Num`, RawField `Raw` (verbatim bytes),
      WriterField with an attribute map `Attrs`; `Object` and `Array` are the
      nested objects and arrays written between braces and brackets. */
  datatype Value =
    | Str(s: string)
    | Int(i: int)
    | Num(f: Float)
    | Raw(bytes: string)
    | Attrs(a: Attributes)
    | Object(fields: seq<Field>)
    | Array(items: seq<Value>)

  datatype Field = Field(key: string, value: Value)

  /** The comma the fields writer puts before a field once it has written one. */
  function Sep(needsComma: bool): string {
    if needsComma then "," else ""
  }

  /** The parts separated by single commas: none before the first part,
      none after the last. */
  function Join(parts: seq<string>): string {
    if |parts| == 0 then ""
    else if |parts| == 1 then parts[0]
    else parts[0] + "," + Join(parts[1..])
  }

  function Render(r: Renderer, v: Value): string
    decreases v
  {
    match v
    case Str(s) => r.str(s)
    case Int(i) => IntText(i)
    case Num(f) => r.float(f)
    case Raw(bytes) => bytes
    case Attrs(a) => r.attributes(a)
    case Object(fields) => "{" + RenderFields(r, fields) + "}"
    case Array(items) => "[" + Join(seq(|items|, i requires 0 <= i < |items| => Render(r, items[i]))) + "]"
  }

  /** `"key":value`, as AddKey followed by the value's writer produces it. */
  function RenderField(r: Renderer, f: Field): string
    decreases f
  {
    r.str(f.key) + ":" + Render(r, f.value)
  }

  /** The fields of an object, in order, separated by commas. */
  function RenderFields(r: Renderer, fs: seq<Field>): string
    decreases fs
  {
    Join(seq(|fs|, i requires 0 <= i < |fs| => RenderField(r, fs[i])))
  }

  /** Each element's text, in order. */
  function ItemTexts(r: Renderer, vs: seq<Value>): (ts: seq<string>)
    ensures |ts| == |vs|
    ensures forall i :: 0 <= i < |vs| ==> ts[i] == Render(r, vs[i])
  {
    seq(|vs|, i requires 0 <= i < |vs| => Render(r, vs[i]))
  }

  /** Each field's text, in order. */
  function FieldTexts(r: Renderer, fs: seq<Field>): (ts: seq<string>)
    ensures |ts| == |fs|
    ensures forall i :: 0 <= i < |fs| ==> ts[i] == RenderField(r, fs[i])
  {
    seq(|fs|, i requires 0 <= i < |fs| => RenderField(r, fs[i]))
  }

  /** The elements of an array, separated by commas, without the brackets. */
  function RenderItems(r: Renderer, vs: seq<Value>): string {
    Join(ItemTexts(r, vs))
  }

  /** What a fields writer whose comma flag is `needsComma` appends when it
      writes the fields `fs`. */
  function Continue(r: Renderer, needsComma: bool, fs: seq<Field>): string {
    if fs == [] then "" else Sep(needsComma) + RenderFields(r, fs)
  }

  lemma ArrayText(r: Renderer, vs: seq<Value>)
    ensures Render(r, Array(vs)) == "[" + RenderItems(r, vs) + "]"
  {
    assert ItemTexts(r, vs) == seq(|vs|, i requires 0 <= i < |vs| => Render(r, vs[i]));
  }

  lemma FieldsText(r: Renderer, fs: seq<Field>)
    ensures RenderFields(r, fs) == Join(FieldTexts(r, fs))
  {
    assert FieldTexts(r, fs) == seq(|fs|, i requires 0 <= i < |fs| => RenderField(r, fs[i]));
  }

  // ---------------------------------------------------------------------
  // Comma-separated lists under appending.

  /** Appending is associative (stated once, for the writers' proofs). */
  lemma Assoc<T>(a: seq<T>, b: seq<T>, c: seq<T>)
    ensures a + b + c == a + (b + c)
  {
  }

  /** Appending nothing changes nothing. */
  lemma AppendEmpty<T>(a: seq<T>)
    ensures a + [] == a
  {
  }

  /** Adding one more part adds one comma, unless it is the first part. */
  lemma {:induction false} JoinSnoc(parts: seq<string>, p: string)
    ensures Join(parts + [p]) == Join(parts) + Sep(parts != []) + p
  {
    if |parts| == 0 {
      assert parts + [p] == [p];
    } else if |parts| == 1 {
      assert parts + [p] == [parts[0], p];
      assert [parts[0], p][1..] == [p];
    } else {
      assert (parts + [p])[1..] == parts[1..] + [p];
      JoinSnoc(parts[1..], p);
    }
  }

  /** Joining two lists is joining each, with one comma between them when
      both are non-empty. */
  lemma {:induction false} JoinAppend(a: seq<string>, b: seq<string>)
    ensures Join(a + b) == Join(a) + Sep(a != [] && b != []) + Join(b)
  {
    if a == [] {
      assert a + b == b;
    } else if |a| == 1 {
      if b == [] {
        assert a + b == a;
      } else {
        assert (a + b)[1..] == b;
      }
    } else {
      assert (a + b)[1..] == a[1..] + b;
      JoinAppend(a[1..], b);
    }
  }

  lemma FieldTextsAppend(r: Renderer, a: seq<Field>, b: seq<Field>)
    ensures FieldTexts(r, a + b) == FieldTexts(r, a) + FieldTexts(r, b)
  {
  }

  lemma ItemTextsAppend(r: Renderer, a: seq<Value>, b: seq<Value>)
    ensures ItemTexts(r, a + b) == ItemTexts(r, a) + ItemTexts(r, b)
  {
  }

  /** Writing `a` and then `b` gives the text of `a + b`, with one comma
      between them when both are non-empty. */
  lemma RenderFieldsAppend(r: Renderer, a: seq<Field>, b: seq<Field>)
    ensures RenderFields(r, a + b) == RenderFields(r, a) + Sep(a != [] && b != []) + RenderFields(r, b)
  {
    FieldsText(r, a);
    FieldsText(r, b);
    FieldsText(r, a + b);
    FieldTextsAppend(r, a, b);
    JoinAppend(FieldTexts(r, a), FieldTexts(r, b));
  }

  lemma RenderItemsAppend(r: Renderer, a: seq<Value>, b: seq<Value>)
    ensures RenderItems(r, a + b) == RenderItems(r, a) + Sep(a != [] && b != []) + RenderItems(r, b)
  {
    ItemTextsAppend(r, a, b);
    JoinAppend(ItemTexts(r, a), ItemTexts(r, b));
  }

  /** A fields writer that writes `a` and then `b` appends what it would
      append writing `a + b` in one go. */
  lemma ContinueAppend(r: Renderer, needsComma: bool, a: seq<Field>, b: seq<Field>)
    ensures Continue(r, needsComma, a) + Continue(r, needsComma || a != [], b)
         == Continue(r, needsComma, a + b)
  {
    if a == [] {
      assert a + b == b;
    } else if b == [] {
      assert a + b == a;
    } else {
      RenderFieldsAppend(r, a, b);
      var s, x, y := Sep(needsComma), RenderFields(r, a), RenderFields(r, b);
      calc {
        Continue(r, needsComma, a) + Continue(r, true, b);
        (s + x) + ("," + y);
        { Assoc(s + x, ",", y); Assoc(s, x, ","); }
        s + (x + "," + y);
        Continue(r, needsComma, a + b);
      }
    }
  }

  /** ContinueAppend behind text already written. */
  lemma ContinueChain(r: Renderer, x: string, needsComma: bool, a: seq<Field>, b: seq<Field>)
    ensures x + Continue(r, needsComma, a) + Continue(r, needsComma || a != [], b)
         == x + Continue(r, needsComma, a + b)
  {
    Assoc(x, Continue(r, needsComma, a), Continue(r, needsComma || a != [], b));
    ContinueAppend(r, needsComma, a, b);
  }

  /** What a fresh fields writer appends is the text of its fields. */
  lemma ContinueFresh(r: Renderer, fs: seq<Field>)
    ensures Continue(r, false, fs) == RenderFields(r, fs)
  {
  }

  /** An opening brace, the fields of a fresh writer and a closing brace are
      the object of those fields. */
  lemma ObjectText(r: Renderer, x: string, fs: seq<Field>)
    ensures x + "{" + Continue(r, false, fs) + "}" == x + Render(r, Object(fs))
  {
    ContinueFresh(r, fs);
    Assoc(x + "{", RenderFields(r, fs), "}");
    Assoc(x, "{", RenderFields(r, fs) + "}");
  }

  /** A comma if needed, a key, a colon and a value are one more field. */
  lemma FieldText(r: Renderer, x: string, needsComma: bool, key: string, v: Value)
    ensures x + Sep(needsComma) + r.str(key) + ":" + Render(r, v)
         == x + Continue(r, needsComma, [Field(key, v)])
  {
    var f := Field(key, v);
    assert FieldTexts(r, [f]) == [RenderField(r, f)];
    FieldsText(r, [f]);
    var c, k, t := Sep(needsComma), r.str(key), Render(r, v);
    calc {
      x + c + k + ":" + t;
      { Assoc(x + c + k, ":", t); Assoc(x + c, k, ":" + t); Assoc(x, c, k + (":" + t)); }
      x + (c + (k + (":" + t)));
      { Assoc(k, ":", t); }
      x + (c + RenderField(r, f));
    }
  }

  /** An opening bracket, the items' text and a closing bracket are the
      array of those items. */
  lemma ArrayTextAfter(r: Renderer, x: string, vs: seq<Value>)
    ensures x + "[" + RenderItems(r, vs) + "]" == x + Render(r, Array(vs))
  {
    ArrayText(r, vs);
    Assoc(x + "[", RenderItems(r, vs), "]");
    Assoc(x, "[", RenderItems(r, vs) + "]");
  }

  /** JoinSnoc behind text already written. */
  lemma JoinChain(x: string, parts: seq<string>, p: string)
    ensures x + Join(parts) + Sep(parts != []) + p == x + Join(parts + [p])
  {
    JoinSnoc(parts, p);
    Assoc(x + Join(parts), Sep(parts != []), p);
    Assoc(x, Join(parts), Sep(parts != []) + p);
  }

  /** A key, a colon and a nested object, after a comma, are one more field. */
  lemma NestedObjectField(r: Renderer, x: string, key: string, fs: seq<Field>)
    ensures x + Sep(true) + r.str(key) + ":" + "{" + Continue(r, false, fs) + "}"
         == x + Continue(r, true, [Field(key, Object(fs))])
  {
    var f := Field(key, Object(fs));
    assert FieldTexts(r, [f]) == [RenderField(r, f)];
    FieldsText(r, [f]);
    ContinueFresh(r, fs);
    var k, body := r.str(key), RenderFields(r, fs);
    calc {
      x + "," + k + ":" + "{" + body + "}";
      { Assoc(x + "," + k + ":" + "{", body, "}");
        Assoc(x + "," + k + ":", "{", body + "}");
        Assoc(x + "," + k, ":", "{" + body + "}");
        Assoc(x + ",", k, ":" + ("{" + body + "}"));
        Assoc(x, ",", k + (":" + ("{" + body + "}"))); }
      x + ("," + (k + (":" + ("{" + body + "}"))));
      { Assoc(k, ":", "{" + body + "}"); Assoc("{", body, "}"); }
      x + ("," + (k + ":" + Render(r, Object(fs))));
    }
  }

  // ---------------------------------------------------------------------
  // Reading a field list back: its keys and the value under a key.

  function Keys(fs: seq<Field>): (ks: seq<string>)
    ensures |ks| == |fs|
  {
    if fs == [] then [] else [fs[0].key] + Keys(fs[1..])
  }

  /** The value of the first field with this key, if any. */
  function Lookup(fs: seq<Field>, key: string): (v: Option<Value>)
    ensures v.Some? <==> key in Keys(fs)
  {
    if fs == [] then None
    else if fs[0].key == key then Some(fs[0].value)
    else Lookup(fs[1..], key)
  }

  lemma {:induction false} KeysAppend(a: seq<Field>, b: seq<Field>)
    ensures Keys(a + b) == Keys(a) + Keys(b)
  {
    if a != [] {
      assert (a + b)[1..] == a[1..] + b;
      KeysAppend(a[1..], b);
    } else {
      assert a + b == b;
    }
  }

  /** A key is looked up in the front part first, then in the back part. */
  lemma {:induction false} LookupAppend(a: seq<Field>, b: seq<Field>, key: string)
    ensures Lookup(a + b, key) == if Lookup(a, key).Some? then Lookup(a, key) else Lookup(b, key)
  {
    if a != [] {
      assert (a + b)[1..] == a[1..] + b;
      LookupAppend(a[1..], b, key);
    } else {
      assert a + b == b;
    }
  }

  // ---------------------------------------------------------------------
  // Integers in decimal, as strconv.FormatInt(v, 10) writes them.

  function DigitChar(d: int): char
    requires 0 <= d < 10
  {
    "0123456789"[d]
  }

  predicate IsDigit(c: char) {
    '0' <= c <= '9'
  }

  /** The decimal digits of n, most significant first, without leading zeros. */
  function Digits(n: nat): (s: string)
    ensures |s| > 0
    ensures forall k :: 0 <= k < |s| ==> IsDigit(s[k])
    ensures s[0] == '0' ==> n == 0
    decreases n
  {
    if n < 10 then [DigitChar(n)] else Digits(n / 10) + [DigitChar(n % 10)]
  }

  /** The text an IntField writes: an optional minus sign and the digits. */
  function IntText(i: int): (s: string)
    ensures |s| > 0
    ensures s[0] == '-' <==> i < 0
  {
    if i < 0 then "-" + Digits(-i) else Digits(i)
  }

  function DigitsValue(s: string): int {
    if s == [] then 0 else DigitsValue(s[..|s| - 1]) * 10 + (s[|s| - 1] as int - '0' as int)
  }

  /** Reads back an integer written in decimal with an optional minus sign. */
  function ParseInt(s: string): int {
    if |s| > 0 && s[0] == '-' then -DigitsValue(s[1..]) else DigitsValue(s)
  }

  lemma {:induction false} DigitsRoundTrip(n: nat)
    ensures DigitsValue(Digits(n)) == n
    decreases n
  {
    if n >= 10 {
      DigitsRoundTrip(n / 10);
      var s := Digits(n);
      assert s[..|s| - 1] == Digits(n / 10);
    }
  }

  /** Decimal rendering loses nothing: the integer can be read back. */
  lemma IntTextRoundTrip(i: int)
    ensures ParseInt(IntText(i)) == i
  {
    if i < 0 {
      var d := Digits(-i);
      assert ("-" + d)[0] == '-';
      assert ("-" + d)[1..] == d;
      DigitsRoundTrip(-i);
    } else {
      var d := Digits(i);
      assert IsDigit(d[0]);
      DigitsRoundTrip(i);
    }
  }
}

/** The byte buffer every writeJSON appends to, and the fields writer that
    puts `"key":value` fields into it with commas between them. The fields
    writer is not part of this model's source; it is modelled on its
    observable behaviour: a comma before every field but the first one that
    this writer wrote. */
module Writer {

  import opened Floats
  import opened Times
  import opened Json

  /** A bytes.Buffer: bytes are only ever appended. */
  class Buffer {
    var bytes: string

    constructor ()
      ensures bytes == []
    {
      bytes := [];
    }

    /** Appends one byte. */
    method WriteByte(b: char)
      modifies this
      ensures bytes == old(bytes) + [b]
    {
      bytes := bytes + [b];
    }

    method Write(s: string)
      modifies this
      ensures bytes == old(bytes) + s
    {
      bytes := bytes + s;
    }
  }

  /** A JSON fields writer over a buffer. `needsComma` is set once the
      writer has written a key. */
  class FieldsWriter {
    const buf: Buffer
    const r: Renderer
    var needsComma: bool

    constructor (buf: Buffer, r: Renderer)
      ensures this.buf == buf && this.r == r && !needsComma
    {
      this.buf := buf;
      this.r := r;
      needsComma := false;
    }

    /** Writes the comma this field needs and the key with its colon. */
    method AddKey(key: string)
      modifies this, buf
      ensures needsComma
      ensures buf.bytes == old(buf.bytes) + Sep(old(needsComma)) + r.str(key) + ":"
    {
      if needsComma {
        buf.WriteByte(',');
      } else {
        needsComma := true;
      }
      buf.Write(r.str(key));
      buf.WriteByte(':');
    }

    /** Writes one field whose value is already rendered (the common tail of
        every typed field method below). */
    method Rendered(key: string, ghost v: Value, text: string)
      requires text == Render(r, v)
      modifies this, buf
      ensures needsComma
      ensures buf.bytes == old(buf.bytes) + Continue(r, old(needsComma), [Field(key, v)])
    {
      AddKey(key);
      buf.Write(text);
      assert FieldTexts(r, [Field(key, v)]) == [RenderField(r, Field(key, v))];
      FieldsText(r, [Field(key, v)]);
    }

    method StringField(key: string, val: string)
      modifies this, buf
      ensures needsComma
      ensures buf.bytes == old(buf.bytes) + Continue(r, old(needsComma), [Field(key, Str(val))])
    {
      Rendered(key, Str(val), r.str(val));
    }

    method IntField(key: string, val: int64)
      modifies this, buf
      ensures needsComma
      ensures buf.bytes == old(buf.bytes) + Continue(r, old(needsComma), [Field(key, Int(val as int))])
    {
      Rendered(key, Int(val as int), IntText(val as int));
    }

    method FloatField(key: string, val: Float)
      modifies this, buf
      ensures needsComma
      ensures buf.bytes == old(buf.bytes) + Continue(r, old(needsComma), [Field(key, Num(val))])
    {
      Rendered(key, Num(val), r.float(val));
    }

    method RawField(key: string, val: string)
      modifies this, buf
      ensures needsComma
      ensures buf.bytes == old(buf.bytes) + Continue(r, old(needsComma), [Field(key, Raw(val))])
    {
      Rendered(key, Raw(val), val);
    }

    /** WriterField applied to an attribute map (internal.Attributes). */
    method AttributesField(key: string, val: Attributes)
      modifies this, buf
      ensures needsComma
      ensures buf.bytes == old(buf.bytes) + Continue(r, old(needsComma), [Field(key, Attrs(val))])
    {
      Rendered(key, Attrs(val), r.attributes(val));
    }
  }
}

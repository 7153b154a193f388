/**
 * The values the backend stores and returns: Python scalars and `datetime`
 * objects inside dictionaries, their text forms, and `serialize_doc` /
 * `serialize_docs` from `backend/server.py`, which rename `_id` to `id` and
 * turn every `datetime` into its ISO text in place.
 */
module Documents {
  import opened Wrappers
  import opened Decimal

  datatype RawDateTime = RawDateTime(year: nat, month: nat, day: nat, hour: nat, minute: nat, second: nat, microsecond: nat)

  /** A Python `datetime`: its fields are always within their ranges. */
  type DateTime = dt: RawDateTime | 1 <= dt.year <= 9999 && 1 <= dt.month <= 12 && 1 <= dt.day <= 31
    && dt.hour < 24 && dt.minute < 60 && dt.second < 60 && dt.microsecond < 1000000
    witness RawDateTime(1, 1, 1, 0, 0, 0, 0)

  /** A value stored under a key of a document. */
  datatype Value = PyNone | PyBool(b: bool) | PyInt(i: int) | PyStr(s: string) | PyDateTime(dt: DateTime)

  /** A document: a dictionary from field names to values. */
  type Record = map<string, Value>

  /** `s` with zeros in front up to `width` characters. */
  function ZeroPad(s: string, width: nat): (r: string)
    ensures |r| == if |s| >= width then |s| else width
    decreases if |s| >= width then 0 else width - |s|
  {
    if |s| >= width then s else ZeroPad("0" + s, width)
  }

  /** A field printed with exactly `width` digits. */
  function Digits(n: nat, width: nat): (r: string)
    requires 1 <= width && n < Pow10(width)
    ensures |r| == width
  {
    NatToStringFits(n, width);
    ZeroPad(NatToString(n), width)
  }

  /**
   * `dt.isoformat(sep)`: `YYYY-MM-DD`, the separator, `HH:MM:SS`, and
   * `.ffffff` only when the microseconds are not zero.
   */
  function IsoFormat(dt: DateTime, sep: char): (r: string)
    ensures |r| == if dt.microsecond == 0 then 19 else 26
    ensures r[4] == '-' && r[7] == '-' && r[10] == sep && r[13] == ':' && r[16] == ':'
    ensures dt.microsecond != 0 ==> r[19] == '.'
  {
    assert Pow10(2) == 100 && Pow10(4) == 10000 && Pow10(6) == 1000000;
    Digits(dt.year, 4) + "-" + Digits(dt.month, 2) + "-" + Digits(dt.day, 2)
    + [sep] + Digits(dt.hour, 2) + ":" + Digits(dt.minute, 2) + ":" + Digits(dt.second, 2)
    + (if dt.microsecond == 0 then "" else "." + Digits(dt.microsecond, 6))
  }

  /** Python's `str(value)`. */
  function StrOf(v: Value): string {
    match v
    case PyNone => "None"
    case PyBool(b) => if b then "True" else "False"
    case PyInt(i) => IntToString(i)
    case PyStr(s) => s
    case PyDateTime(dt) => IsoFormat(dt, ' ')
  }

  /** The value after the datetime pass: a `datetime` becomes its ISO text, anything else stays. */
  function IsoValue(v: Value): (r: Value)
    ensures !r.PyDateTime?
    ensures v.PyDateTime? ==> r == PyStr(IsoFormat(v.dt, 'T'))
    ensures !v.PyDateTime? ==> r == v
  {
    if v.PyDateTime? then PyStr(IsoFormat(v.dt, 'T')) else v
  }

  /** The first step of `serialize_doc`: `_id` moves to `id` as text. */
  function RenameId(doc: Record): Record {
    if "_id" in doc then doc["id" := PyStr(StrOf(doc["_id"]))] - {"_id"} else doc
  }

  /** What `serialize_doc` leaves in a document. */
  function Serialized(doc: Record): (r: Record)
    ensures r.Keys == if "_id" in doc then doc.Keys - {"_id"} + {"id"} else doc.Keys
    ensures "_id" in doc ==> r["id"] == PyStr(StrOf(doc["_id"]))
    ensures forall k | k in r :: !r[k].PyDateTime?
    ensures forall k | k in doc && k != "_id" && !(k == "id" && "_id" in doc) :: r[k] == IsoValue(doc[k])
  {
    var renamed := RenameId(doc);
    map k | k in renamed :: IsoValue(renamed[k])
  }

  /** Serializing twice is serializing once. */
  lemma SerializedIdempotent(doc: Record)
    ensures Serialized(Serialized(doc)) == Serialized(doc)
  {
    var once := Serialized(doc);
    assert RenameId(once) == once;
    forall k | k in once ensures IsoValue(once[k]) == once[k] {
    }
  }

  /** A mutable dictionary, as `serialize_doc` receives it. */
  class Document {
    var fields: Record

    constructor (fields: Record)
      ensures this.fields == fields
    {
      this.fields := fields;
    }
  }

  /**
   * `serialize_doc(doc)`: `None` gives `None`; otherwise the dictionary itself
   * is rewritten (`_id` renamed, every `datetime` value replaced by its ISO
   * text, one key at a time) and returned.
   */
  method SerializeDoc(doc: Document?) returns (r: Document?)
    modifies doc
    ensures r == doc
    ensures doc != null ==> doc.fields == Serialized(old(doc.fields))
  {
    if doc == null {
      return null;
    }
    if "_id" in doc.fields {
      doc.fields := doc.fields["id" := PyStr(StrOf(doc.fields["_id"]))];
      doc.fields := doc.fields - {"_id"};
    }
    var renamed := doc.fields;
    assert renamed == RenameId(old(doc.fields));
    var pending := renamed.Keys;
    while pending != {}
      invariant pending <= renamed.Keys && doc.fields.Keys == renamed.Keys
      invariant forall k | k in renamed :: doc.fields[k] == if k in pending then renamed[k] else IsoValue(renamed[k])
      decreases pending
    {
      var k :| k in pending;
      if doc.fields[k].PyDateTime? {
        doc.fields := doc.fields[k := PyStr(IsoFormat(doc.fields[k].dt, 'T'))];
      }
      pending := pending - {k};
    }
    return doc;
  }

  /**
   * `serialize_docs(docs)`: the same objects, in the same order, each
   * serialized. A dictionary listed twice is serialized twice, which changes
   * nothing the second time.
   */
  method SerializeDocs(docs: seq<Document?>) returns (r: seq<Document?>)
    modifies set i | 0 <= i < |docs| && docs[i] != null :: docs[i]
    ensures r == docs
    ensures forall i | 0 <= i < |docs| && docs[i] != null :: docs[i].fields == Serialized(old(docs[i].fields))
  {
    r := [];
    for i := 0 to |docs|
      invariant r == docs[..i]
      invariant forall j | 0 <= j < |docs| && docs[j] != null ::
        docs[j].fields == if docs[j] in docs[..i] then Serialized(old(docs[j].fields)) else old(docs[j].fields)
    {
      var d := docs[i];
      if d != null && d in docs[..i] {
        SerializedIdempotent(old(d.fields));
      }
      var s := SerializeDoc(d);
      r := r + [s];
    }
  }
}

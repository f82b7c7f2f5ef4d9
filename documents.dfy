/**
  The `to_public` helper (main.py), which turns a stored document into the
  shape the API returns: `_id` becomes `id` holding its string form, and every
  other top-level object-id value is replaced by its string form.
*/
module Documents {
  import opened Wrappers
  import opened ObjectIds

  /**
    A document value. `Number` and `Other` carry the text that Python's `str`
    gives for them (float formatting, lists, dates and nested dictionaries are
    not modelled beyond that text); nested dictionaries are never rewritten by
    `to_public`, so they need no structure here.
  */
  datatype Value =
    | Oid(oid: ObjectId)
    | Text(s: string)
    | Number(x: real, shown: string)
    | Other(shown: string)

  type Document = map<string, Value>

  /** Python's `str(v)`. */
  function Stringify(v: Value): string {
    match v
    case Oid(o) => IdString(o)
    case Text(t) => t
    case Number(_, shown) => shown
    case Other(shown) => shown
  }

  /** One value as `to_public` leaves it: object ids become their string form. */
  function Publicize(v: Value): Value {
    if v.Oid? then Text(IdString(v.oid)) else v
  }

  /** The public form of a document, as the loop in ToPublic produces it. */
  function PublicDoc(d: Document): (r: Document)
    ensures r.Keys == if "_id" in d then d.Keys - {"_id"} + {"id"} else d.Keys
    ensures "_id" !in r
    ensures "_id" in d ==> r["id"] == Text(Stringify(d["_id"]))
    ensures forall k :: k in r && !("_id" in d && k == "id") ==> r[k] == Publicize(d[k])
    ensures forall k :: k in r ==> !r[k].Oid?
    ensures d == map[] ==> r == d
  {
    var renamed := if "_id" in d then (d - {"_id"})["id" := Text(Stringify(d["_id"]))] else d;
    map k | k in renamed :: Publicize(renamed[k])
  }

  /**
    `to_public(doc)`: an empty or missing document comes back as it is;
    otherwise a copy is made (Dafny maps are values, so the caller's document
    cannot change), `_id` is popped into `id`, and a pass over a snapshot of the
    entries stringifies the object ids.
  */
  method ToPublic(doc: Option<Document>) returns (r: Option<Document>)
    ensures doc.None? ==> r.None?
    ensures doc.Some? ==> r == Some(PublicDoc(doc.value))
  {
    if doc.None? || doc.value == map[] {
      return doc;
    }
    var d := doc.value;
    if "_id" in d {
      var v := d["_id"];
      d := d - {"_id"};
      d := d["id" := Text(Stringify(v))];
    }
    ghost var renamed := d;
    var pending := d.Keys;
    while pending != {}
      invariant pending <= d.Keys && d.Keys == renamed.Keys
      invariant forall k :: k in pending ==> d[k] == renamed[k]
      invariant forall k :: k in d && k !in pending ==> d[k] == Publicize(renamed[k])
      decreases pending
    {
      var k :| k in pending;
      if d[k].Oid? {
        d := d[k := Text(IdString(d[k].oid))];
      }
      pending := pending - {k};
    }
    assert d == PublicDoc(doc.value);
    r := Some(d);
  }

  /** Applying to_public to its own output changes nothing. */
  lemma PublicDocIdempotent(d: Document)
    ensures PublicDoc(PublicDoc(d)) == PublicDoc(d)
  {
  }
}

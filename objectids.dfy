/**
  Document identifiers. A stored document's `_id` is a binary object id; the
  service exposes it as `str(id)`, the lowercase hexadecimal spelling of its
  bytes (two characters per byte, high nibble first). How ids are generated
  and validated belongs to the database driver and is not modelled.
*/
module ObjectIds {

  newtype byte = x: int | 0 <= x < 256

  datatype ObjectId = ObjectId(bytes: seq<byte>)

  predicate IsHexChar(c: char) {
    '0' <= c <= '9' || 'a' <= c <= 'f'
  }

  function HexDigit(n: int): (c: char)
    requires 0 <= n < 16
    ensures IsHexChar(c)
  {
    if n < 10 then ('0' as int + n) as char else ('a' as int + n - 10) as char
  }

  function HexValue(c: char): (n: int)
    requires IsHexChar(c)
    ensures 0 <= n < 16 && HexDigit(n) == c
  {
    if c <= '9' then c as int - '0' as int else c as int - 'a' as int + 10
  }

  /** The hexadecimal text of a byte string. */
  function Hex(bytes: seq<byte>): (s: string)
    ensures |s| == 2 * |bytes|
    ensures forall i :: 0 <= i < |s| ==> IsHexChar(s[i])
  {
    if bytes == [] then []
    else [HexDigit(bytes[0] as int / 16), HexDigit(bytes[0] as int % 16)] + Hex(bytes[1..])
  }

  /** Reads hexadecimal text back into bytes: the inverse of Hex. */
  function Unhex(s: string): (bytes: seq<byte>)
    requires |s| % 2 == 0
    requires forall i :: 0 <= i < |s| ==> IsHexChar(s[i])
    ensures 2 * |bytes| == |s|
  {
    if s == [] then []
    else [(HexValue(s[0]) * 16 + HexValue(s[1])) as byte] + Unhex(s[2..])
  }

  /** `str(id)` of an object id. */
  function IdString(o: ObjectId): string {
    Hex(o.bytes)
  }

  lemma {:induction false} HexRoundTrip(bytes: seq<byte>)
    ensures Unhex(Hex(bytes)) == bytes
  {
    if bytes != [] {
      var b := bytes[0] as int;
      var s := Hex(bytes);
      assert s[2..] == Hex(bytes[1..]);
      assert HexValue(s[0]) == b / 16 && HexValue(s[1]) == b % 16;
      HexRoundTrip(bytes[1..]);
    }
  }

  /** Distinct ids have distinct public spellings, so a stringified id still identifies its document. */
  lemma IdStringInjective(a: ObjectId, b: ObjectId)
    ensures IdString(a) == IdString(b) ==> a == b
  {
    HexRoundTrip(a.bytes);
    HexRoundTrip(b.bytes);
  }
}

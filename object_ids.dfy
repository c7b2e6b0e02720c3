/**
 * Store identifiers. A record's id is a 12-byte ObjectId; in a URL it is written as
 * 24 hexadecimal digits, upper or lower case. The route checks the digits, and the
 * store reads them back into bytes, so both letter cases name the same record.
 */
module ObjectIds {
  import opened Wrappers
  import opened Text

  newtype byte = x: int | 0 <= x < 256

  type ObjectId = b: seq<byte> | |b| == 12 witness [0, 0, 0, 0, 0, 0, 0, 0, 0, 0, 0, 0]

  predicate IsHexDigit(c: char) {
    '0' <= c <= '9' || 'a' <= c <= 'f' || 'A' <= c <= 'F'
  }

  predicate AllHex(s: string) {
    forall i | 0 <= i < |s| :: IsHexDigit(s[i])
  }

  /** The pattern `^[0-9a-fA-F]{24}$`. */
  predicate IsObjectIdString(s: string) {
    |s| == 24 && AllHex(s)
  }

  function DigitValue(c: char): (v: nat)
    requires IsHexDigit(c)
    ensures v < 16
  {
    if '0' <= c <= '9' then c as int - '0' as int
    else if 'a' <= c <= 'f' then c as int - 'a' as int + 10
    else c as int - 'A' as int + 10
  }

  /** The lower-case digit for a value below 16; it reads back as that value. */
  function HexDigit(v: nat): (c: char)
    requires v < 16
    ensures IsHexDigit(c) && DigitValue(c) == v && LowerChar(c) == c
  {
    if v < 10 then ('0' as int + v) as char else ('a' as int + v - 10) as char
  }

  /** Writing a digit's value back gives the digit in lower case. */
  lemma HexDigitOfValue(c: char)
    requires IsHexDigit(c)
    ensures HexDigit(DigitValue(c)) == LowerChar(c)
  {
  }

  /** Reads pairs of hex digits as bytes, high digit first. */
  function DecodeHex(s: string): (b: seq<byte>)
    requires |s| % 2 == 0 && AllHex(s)
    ensures |b| == |s| / 2
  {
    if s == [] then [] else [(DigitValue(s[0]) * 16 + DigitValue(s[1])) as byte] + DecodeHex(s[2..])
  }

  /** Writes bytes as pairs of lower-case hex digits. */
  function EncodeHex(b: seq<byte>): (s: string)
    ensures |s| == 2 * |b| && AllHex(s) && Lower(s) == s
  {
    if b == [] then [] else [HexDigit(b[0] as nat / 16), HexDigit(b[0] as nat % 16)] + EncodeHex(b[1..])
  }

  lemma {:induction false} DecodeEncode(b: seq<byte>)
    ensures DecodeHex(EncodeHex(b)) == b
  {
    if b != [] {
      var s := EncodeHex(b);
      assert s[2..] == EncodeHex(b[1..]);
      DecodeEncode(b[1..]);
    }
  }

  lemma {:induction false} EncodeDecode(s: string)
    requires |s| % 2 == 0 && AllHex(s)
    ensures EncodeHex(DecodeHex(s)) == Lower(s)
  {
    if s != [] {
      var b := DecodeHex(s);
      var v := b[0] as nat;
      assert v / 16 == DigitValue(s[0]) && v % 16 == DigitValue(s[1]);
      HexDigitOfValue(s[0]);
      HexDigitOfValue(s[1]);
      assert b[1..] == DecodeHex(s[2..]);
      EncodeDecode(s[2..]);
      assert Lower(s) == [LowerChar(s[0]), LowerChar(s[1])] + Lower(s[2..]);
    }
  }

  /** Casts the route parameter to an ObjectId; exactly the 24-hex-digit strings succeed. */
  function Parse(s: string): (r: Option<ObjectId>)
    ensures r.Some? <==> IsObjectIdString(s)
  {
    if IsObjectIdString(s) then Some(DecodeHex(s)) else None
  }

  /** The canonical spelling of an id: 24 lower-case hex digits. */
  function Format(id: ObjectId): (s: string)
    ensures IsObjectIdString(s) && Lower(s) == s
  {
    EncodeHex(id)
  }

  /** Every id's canonical spelling reads back as that id. */
  lemma ParseFormat(id: ObjectId)
    ensures Parse(Format(id)) == Some(id)
  {
    DecodeEncode(id);
  }

  /** Reading a valid id string and writing it back gives its lower-case spelling. */
  lemma FormatParse(s: string)
    requires IsObjectIdString(s)
    ensures Format(Parse(s).value) == Lower(s)
  {
    EncodeDecode(s);
  }

  /** Two spellings that differ only in letter case address the same record. */
  lemma ParseIgnoresCase(s: string, t: string)
    requires IsObjectIdString(s) && IsObjectIdString(t) && Lower(s) == Lower(t)
    ensures Parse(s) == Parse(t)
  {
    FormatParse(s);
    FormatParse(t);
    ParseFormat(Parse(s).value);
    ParseFormat(Parse(t).value);
  }
}

/** Documents as the Python routers see them: dictionaries of JSON/BSON values, with
    MongoDB object ids, Python truthiness and the `str(ObjectId)` / `ObjectId(str)` pair. */
module Bson {
  import opened Wrappers
  import Text

  newtype byte = x: int | 0 <= x < 256

  /** A MongoDB ObjectId: twelve bytes. */
  datatype ObjectId = ObjectId(bytes: seq<byte>)

  predicate WellFormed(o: ObjectId) { |o.bytes| == 12 }

  predicate IsHexChar(c: char) {
    ('0' <= c <= '9') || ('a' <= c <= 'f') || ('A' <= c <= 'F')
  }

  function HexDigit(n: int): (c: char)
    requires 0 <= n < 16
  {
    if n < 10 then ('0' as int + n) as char else ('a' as int + n - 10) as char
  }

  function HexValue(c: char): (n: int)
    requires IsHexChar(c)
    ensures 0 <= n < 16
  {
    if '0' <= c <= '9' then c as int - '0' as int
    else if 'a' <= c <= 'f' then c as int - 'a' as int + 10
    else c as int - 'A' as int + 10
  }

  /** Lower-case hexadecimal, two digits per byte. */
  function HexOf(bs: seq<byte>): (s: string)
    ensures |s| == 2 * |bs|
    ensures forall i :: 0 <= i < |s| ==> IsHexChar(s[i])
  {
    if bs == [] then "" else [HexDigit(bs[0] as int / 16), HexDigit(bs[0] as int % 16)] + HexOf(bs[1..])
  }

  /** The byte two hexadecimal digits spell, high digit first. */
  function PairValue(hi: char, lo: char): (b: byte)
    requires IsHexChar(hi) && IsHexChar(lo)
    ensures b as int / 16 == HexValue(hi) && b as int % 16 == HexValue(lo)
  {
    (HexValue(hi) * 16 + HexValue(lo)) as byte
  }

  function BytesOf(s: string): (bs: seq<byte>)
    requires |s| % 2 == 0
    requires forall i :: 0 <= i < |s| ==> IsHexChar(s[i])
    ensures |bs| == |s| / 2
  {
    if s == [] then [] else [PairValue(s[0], s[1])] + BytesOf(s[2..])
  }

  /** `ObjectId(s)` for a string `s`: exactly 24 hexadecimal digits, else `InvalidId`. */
  function ParseObjectId(s: string): (r: Option<ObjectId>)
    ensures r.Some? ==> WellFormed(r.value)
  {
    if |s| == 24 && forall i :: 0 <= i < |s| ==> IsHexChar(s[i]) then Some(ObjectId(BytesOf(s))) else None
  }

  /** `str(oid)`. */
  function IdString(o: ObjectId): string { HexOf(o.bytes) }

  /** Printing a well-formed id and parsing it back gives the same id. */
  lemma ParseIdString(o: ObjectId)
    requires WellFormed(o)
    ensures ParseObjectId(IdString(o)) == Some(o)
  {
    BytesOfHexOf(o.bytes);
  }

  /** Distinct well-formed ids print differently. */
  lemma IdStringInjective(a: ObjectId, b: ObjectId)
    requires WellFormed(a) && WellFormed(b) && IdString(a) == IdString(b)
    ensures a == b
  {
    ParseIdString(a);
    ParseIdString(b);
  }

  /** Parsing a string and printing the id gives the string in lower case. */
  lemma IdStringOfParse(s: string)
    requires ParseObjectId(s).Some?
    ensures IdString(ParseObjectId(s).value) == Text.AsciiLower(s)
  {
    HexOfBytesOf(s);
  }

  lemma {:induction false} BytesOfHexOf(bs: seq<byte>)
    ensures BytesOf(HexOf(bs)) == bs
  {
    if bs != [] {
      var h := HexOf(bs);
      var b := bs[0] as int;
      assert h[2..] == HexOf(bs[1..]);
      assert HexValue(h[0]) == b / 16;
      assert HexValue(h[1]) == b % 16;
      BytesOfHexOf(bs[1..]);
    }
  }

  lemma HexDigitOfValue(c: char)
    requires IsHexChar(c)
    ensures HexDigit(HexValue(c)) == Text.LowerChar(c)
  {
  }

  lemma HexPairOfByte(c0: char, c1: char)
    requires IsHexChar(c0) && IsHexChar(c1)
    ensures [HexDigit(PairValue(c0, c1) as int / 16), HexDigit(PairValue(c0, c1) as int % 16)]
      == [Text.LowerChar(c0), Text.LowerChar(c1)]
  {
    HexDigitOfValue(c0);
    HexDigitOfValue(c1);
  }

  lemma {:induction false} HexOfBytesOf(s: string)
    requires |s| % 2 == 0
    requires forall i :: 0 <= i < |s| ==> IsHexChar(s[i])
    ensures HexOf(BytesOf(s)) == Text.AsciiLower(s)
  {
    if s != [] {
      var rest := s[2..];
      HexOfBytesOf(rest);
      HexPairStep(s);
      LowerPairStep(s);
    }
  }

  lemma HexPairStep(s: string)
    requires |s| % 2 == 0 && |s| >= 2
    requires forall i :: 0 <= i < |s| ==> IsHexChar(s[i])
    ensures HexOf(BytesOf(s)) == [Text.LowerChar(s[0]), Text.LowerChar(s[1])] + HexOf(BytesOf(s[2..]))
  {
    var bs := BytesOf(s);
    var b := PairValue(s[0], s[1]);
    assert bs[0] == b && bs[1..] == BytesOf(s[2..]);
    HexPairOfByte(s[0], s[1]);
    assert HexOf(bs) == [HexDigit(b as int / 16), HexDigit(b as int % 16)] + HexOf(bs[1..]);
  }

  lemma LowerPairStep(s: string)
    requires |s| >= 2
    ensures Text.AsciiLower(s) == [Text.LowerChar(s[0]), Text.LowerChar(s[1])] + Text.AsciiLower(s[2..])
  {
    var rhs := [Text.LowerChar(s[0]), Text.LowerChar(s[1])] + Text.AsciiLower(s[2..]);
    forall i | 0 <= i < |s| ensures Text.AsciiLower(s)[i] == rhs[i] {
      if i >= 2 {
        assert s[i] == s[2..][i - 2];
      }
    }
  }

  /** A JSON/BSON value as stored in a document. */
  datatype Value =
    | VNull
    | VBool(b: bool)
    | VInt(i: int)
    | VReal(r: real)
    | VStr(s: string)
    | VList(items: seq<Value>)
    | VObj(fields: map<string, Value>)
    | VOid(oid: ObjectId)

  /** A document (a Python `dict` with string keys). */
  type Doc = map<string, Value>

  /** Python truthiness: None, False, 0, 0.0 and empty strings, lists and dicts are false. */
  predicate Truthy(v: Value) {
    match v
    case VNull => false
    case VBool(b) => b
    case VInt(i) => i != 0
    case VReal(r) => r != 0.0
    case VStr(s) => s != ""
    case VList(items) => items != []
    case VObj(fields) => fields != map[]
    case VOid(_) => true
  }

  /** `d.get(k)`: the stored value, or None when the key is missing. */
  function Get(d: Doc, k: string): Value {
    if k in d then d[k] else VNull
  }

  /** `d.get(k, default)`. */
  function GetOr(d: Doc, k: string, default: Value): Value {
    if k in d then d[k] else default
  }

  /** An integer field read as `d.get(k, default)` where the field holds an int. */
  function IntField(d: Doc, k: string, default: int): int {
    match GetOr(d, k, VInt(default))
    case VInt(i) => i
    case _ => default
  }

  /** `ObjectId(v)` behind an `if v:` guard, with a failure swallowed: a truthy string is
      parsed, an id is taken as it is, anything else gives no id. */
  function ObjectIdOf(v: Value): (r: Option<ObjectId>)
    ensures v.VOid? ==> r == Some(v.oid)
    ensures v.VStr? ==> r == ParseObjectId(v.s)
    ensures !v.VOid? && !v.VStr? ==> r.None?
  {
    if !Truthy(v) then None
    else match v
      case VStr(s) => ParseObjectId(s)
      case VOid(o) => Some(o)
      case _ => None
  }

  function StrValue(o: Option<string>): Value {
    match o
    case Some(s) => VStr(s)
    case None => VNull
  }
}

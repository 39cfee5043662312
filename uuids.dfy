/** Python's `uuid.UUID` as far as the backend uses it: `str(u)` and
    `UUID(s)`. A UUID is its 128 bits, written as 32 hexadecimal nibbles. */
module Uuids {
  import opened Wrappers
  import opened Strings

  type Nibble = n: int | 0 <= n < 16

  type Uuid = s: seq<Nibble> | |s| == 32 witness seq(32, i => 0)

  const HexDigits: string := "0123456789abcdef"

  function HexDigit(n: Nibble): char {
    HexDigits[n]
  }

  /** The value `int(c, 16)` gives a single character, if any. */
  function HexValue(c: char): (r: Option<Nibble>)
    ensures r.Some? <==> ('0' <= c <= '9' || 'a' <= c <= 'f' || 'A' <= c <= 'F')
  {
    if '0' <= c <= '9' then Some(c as int - '0' as int)
    else if 'a' <= c <= 'f' then Some(c as int - 'a' as int + 10)
    else if 'A' <= c <= 'F' then Some(c as int - 'A' as int + 10)
    else None
  }

  function Hex(ns: seq<Nibble>): (r: string)
    ensures |r| == |ns|
  {
    seq(|ns|, i requires 0 <= i < |ns| => HexDigit(ns[i]))
  }

  /** `str(u)`: the canonical 8-4-4-4-12 lower-case form. */
  function UuidText(u: Uuid): (r: string)
    ensures |r| == 36
    ensures forall i :: 0 <= i < |r| ==> (r[i] == '-' <==> i in {8, 13, 18, 23})
    ensures forall i :: 0 <= i < |r| ==> r[i] == '-' || HexValue(r[i]).Some?
  {
    Hex(u[..8]) + "-" + Hex(u[8..12]) + "-" + Hex(u[12..16]) + "-" + Hex(u[16..20]) + "-" + Hex(u[20..])
  }

  /** `UUID(s)`: CPython drops every "urn:" and then every "uuid:", strips
      braces from both ends, drops every hyphen and reads the remaining 32
      hexadecimal digits; anything else raises ValueError, here None. */
  function ParseUuid(s: string): (r: Option<Uuid>)
    ensures r.Some? ==> |RemoveChar(Strip(RemoveAll(RemoveAll(s, "urn:"), "uuid:"), {'{', '}'}), '-')| == 32
  {
    var h := RemoveChar(Strip(RemoveAll(RemoveAll(s, "urn:"), "uuid:"), {'{', '}'}), '-');
    if |h| == 32 && forall i :: 0 <= i < 32 ==> HexValue(h[i]).Some? then
      var u: Uuid := seq(32, i requires 0 <= i < 32 => HexValue(h[i]).value);
      Some(u)
    else
      None
  }

  lemma {:induction false} HexConcat(a: seq<Nibble>, b: seq<Nibble>)
    ensures Hex(a + b) == Hex(a) + Hex(b)
  {
    assert forall i :: 0 <= i < |a + b| ==> Hex(a + b)[i] == (Hex(a) + Hex(b))[i];
  }

  lemma HexHasNoPunctuation(ns: seq<Nibble>)
    ensures '-' !in Hex(ns) && ':' !in Hex(ns) && '{' !in Hex(ns) && '}' !in Hex(ns)
  {
  }

  lemma {:induction false} RemoveDashJoin(a: string, b: string)
    ensures RemoveChar(a + "-" + b, '-') == RemoveChar(a, '-') + RemoveChar(b, '-')
  {
    RemoveCharConcat(a, "-" + b, '-');
    RemoveCharConcat("-", b, '-');
    assert a + "-" + b == a + ("-" + b);
  }

  lemma {:induction false} HexJoin(u: Uuid)
    ensures Hex(u[..8]) + Hex(u[8..12]) + Hex(u[12..16]) + Hex(u[16..20]) + Hex(u[20..]) == Hex(u)
  {
    HexConcat(u[..8], u[8..12]);
    HexConcat(u[..12], u[12..16]);
    HexConcat(u[..16], u[16..20]);
    HexConcat(u[..20], u[20..]);
    assert u[..8] + u[8..12] == u[..12];
    assert u[..12] + u[12..16] == u[..16];
    assert u[..16] + u[16..20] == u[..20];
    assert u[..20] + u[20..] == u;
  }

  lemma HexValueOfDigit(n: Nibble)
    ensures HexValue(HexDigit(n)) == Some(n)
  {
    assert HexDigits == ['0', '1', '2', '3', '4', '5', '6', '7', '8', '9', 'a', 'b', 'c', 'd', 'e', 'f'];
  }

  /** Dropping the hyphens of `str(u)` leaves the 32 digits. */
  lemma {:induction false} UuidTextDigits(u: Uuid)
    ensures RemoveChar(UuidText(u), '-') == Hex(u)
  {
    var a, b, c, d, e := Hex(u[..8]), Hex(u[8..12]), Hex(u[12..16]), Hex(u[16..20]), Hex(u[20..]);
    HexHasNoPunctuation(u[..8]);
    HexHasNoPunctuation(u[8..12]);
    HexHasNoPunctuation(u[12..16]);
    HexHasNoPunctuation(u[16..20]);
    HexHasNoPunctuation(u[20..]);
    RemoveDashJoin(a + "-" + b + "-" + c + "-" + d, e);
    RemoveDashJoin(a + "-" + b + "-" + c, d);
    RemoveDashJoin(a + "-" + b, c);
    RemoveDashJoin(a, b);
    RemoveCharAbsent(a, '-');
    RemoveCharAbsent(b, '-');
    RemoveCharAbsent(c, '-');
    RemoveCharAbsent(d, '-');
    RemoveCharAbsent(e, '-');
    HexJoin(u);
  }

  /** `str(u)` has no colon and no brace, so the prefix removal and the
      brace strip of `UUID()` leave it as it is. */
  lemma {:induction false} UuidTextUntouched(u: Uuid)
    ensures Strip(RemoveAll(RemoveAll(UuidText(u), "urn:"), "uuid:"), {'{', '}'}) == UuidText(u)
  {
    var t := UuidText(u);
    HexHasNoPunctuation(u[..8]);
    HexHasNoPunctuation(u[8..12]);
    HexHasNoPunctuation(u[12..16]);
    HexHasNoPunctuation(u[16..20]);
    HexHasNoPunctuation(u[20..]);
    assert ':' !in t;
    RemoveAllAbsent(t, "urn:");
    RemoveAllAbsent(t, "uuid:");
    assert t[0] == Hex(u[..8])[0] && t[35] == Hex(u[20..])[11];
    StripKeeps(t, {'{', '}'});
  }

  /** Reading back the text of a UUID gives the same UUID: the assumption
      `UUID(str(u)) == u` the storage layer relies on. */
  lemma {:induction false} ParseUuidText(u: Uuid)
    ensures ParseUuid(UuidText(u)) == Some(u)
  {
    UuidTextUntouched(u);
    UuidTextDigits(u);
    var h := RemoveChar(Strip(RemoveAll(RemoveAll(UuidText(u), "urn:"), "uuid:"), {'{', '}'}), '-');
    assert h == Hex(u);
    forall i | 0 <= i < 32
      ensures HexValue(h[i]) == Some(u[i])
    {
      HexValueOfDigit(u[i]);
    }
    var v: Uuid := seq(32, i requires 0 <= i < 32 => HexValue(h[i]).value);
    assert v == u;
  }

  /** Two UUIDs have the same text only when they are equal. */
  lemma UuidTextInjective(u: Uuid, v: Uuid)
    requires UuidText(u) == UuidText(v)
    ensures u == v
  {
    ParseUuidText(u);
    ParseUuidText(v);
  }
}

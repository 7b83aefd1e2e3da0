/** The standard base64 encoding of bytes, with padding: section 4 of RFC 4648. */
module Base64 {
  import opened Names

  type Byte = x: int | 0 <= x < 256
  type Str = seq<Byte>

  const PAD: Byte := 61   // '='
  const LF: Byte := 10
  const CR: Byte := 13

  /** Table 1 of RFC 4648. */
  function Symbol(v: int): Byte
    requires 0 <= v < 64
  {
    if v < 26 then 65 + v            // 'A' to 'Z'
    else if v < 52 then 97 + v - 26  // 'a' to 'z'
    else if v < 62 then 48 + v - 52  // '0' to '9'
    else if v == 62 then 43          // '+'
    else 47                          // '/'
  }

  function Value(c: Byte): (v: Option<int>)
    ensures v.Some? ==> 0 <= v.value < 64
  {
    if 65 <= c <= 90 then Some(c - 65)
    else if 97 <= c <= 122 then Some(c - 97 + 26)
    else if 48 <= c <= 57 then Some(c - 48 + 52)
    else if c == 43 then Some(62)
    else if c == 47 then Some(63)
    else None
  }

  /** The four symbols of one 24-bit group. */
  function Quad(a: Byte, b: Byte, c: Byte): Str {
    [Symbol(a / 4), Symbol(a % 4 * 16 + b / 16), Symbol(b % 16 * 4 + c / 64), Symbol(c % 64)]
  }

  function Encode(bytes: Str): Str {
    match |bytes|
    case 0 => []
    case 1 => Quad(bytes[0], 0, 0)[..2] + [PAD, PAD]
    case 2 => Quad(bytes[0], bytes[1], 0)[..3] + [PAD]
    case _ => Quad(bytes[0], bytes[1], bytes[2]) + Encode(bytes[3..])
  }

  /** The bytes of one group of symbol values. */
  function Triple(v: int, w: int, x: int, y: int): Str
    requires 0 <= v < 64 && 0 <= w < 64 && 0 <= x < 64 && 0 <= y < 64
  {
    [v * 4 + w / 16, w % 16 * 16 + x / 4, x % 4 * 64 + y]
  }

  predicate Symbols(s: Str) {
    forall i | 0 <= i < |s| :: Value(s[i]).Some?
  }

  /** Decoding of text without line breaks; None stands for a corrupt-input error. */
  function DecodeGroups(s: Str): Option<Str> {
    if s == [] then Some([])
    else if |s| < 4 then None
    else if |s| == 4 && s[3] == PAD then
      if s[2] == PAD then
        if !Symbols(s[..2]) then None
        else Some(Triple(Value(s[0]).value, Value(s[1]).value, 0, 0)[..1])
      else if !Symbols(s[..3]) then None
      else Some(Triple(Value(s[0]).value, Value(s[1]).value, Value(s[2]).value, 0)[..2])
    else if !Symbols(s[..4]) then None
    else
      var rest := DecodeGroups(s[4..]);
      if rest.None? then None
      else Some(Triple(Value(s[0]).value, Value(s[1]).value, Value(s[2]).value, Value(s[3]).value) + rest.value)
  }

  /** The decoder skips line breaks wherever they stand. */
  function Unbroken(s: Str): Str {
    if s == [] then []
    else if s[0] == LF || s[0] == CR then Unbroken(s[1..])
    else [s[0]] + Unbroken(s[1..])
  }

  function Decode(s: Str): Option<Str> {
    DecodeGroups(Unbroken(s))
  }

  // ---------------------------------------------------------------------------------------

  lemma SymbolValue(v: int)
    requires 0 <= v < 64
    ensures Value(Symbol(v)) == Some(v) && Symbol(v) != PAD && 43 <= Symbol(v) <= 122
  {}

  /** The alphabet: upper case, lower case, digits, each in order, and two more. */
  lemma Alphabet(v: int)
    requires 0 <= v < 63
    ensures [Symbol(0), Symbol(26), Symbol(52), Symbol(62), Symbol(63)] == Bytes("Aa0+/")
    ensures v !in {25, 51, 61, 62} ==> Symbol(v + 1) == Symbol(v) + 1
  {}

  function Bytes(s: string): (r: Str)
    requires forall i | 0 <= i < |s| :: s[i] as int < 256
  {
    seq(|s|, i requires 0 <= i < |s| => s[i] as int)
  }

  /** The test vectors of section 10 of RFC 4648 for "f", "fo" and "foobar". */
  lemma TestVectors()
    ensures Encode([]) == []
    ensures Encode(Bytes("f")) == Bytes("Zg==") && Encode(Bytes("fo")) == Bytes("Zm8=")
    ensures Encode(Bytes("foobar")) == Bytes("Zm9vYmFy")
  {
    assert Quad(102, 111, 111) == Bytes("Zm9v") && Quad(98, 97, 114) == Bytes("YmFy");
    assert Bytes("foobar")[3..] == Bytes("bar") && Bytes("bar")[3..] == [];
    assert Bytes("Zm9v") + (Bytes("YmFy") + []) == Bytes("Zm9vYmFy");
  }

  lemma QuadTriple(a: Byte, b: Byte, c: Byte)
    ensures Triple(a / 4, a % 4 * 16 + b / 16, b % 16 * 4 + c / 64, c % 64) == [a, b, c]
  {}

  /** Text that the decoder takes as it stands, and that no separator can be mistaken for. */
  ghost predicate Printable(s: Str) {
    forall i | 0 <= i < |s| :: 43 <= s[i] <= 122
  }

  lemma QuadValues(a: Byte, b: Byte, c: Byte)
    ensures var q := Quad(a, b, c);
      && Value(q[0]) == Some(a / 4) && Value(q[1]) == Some(a % 4 * 16 + b / 16)
      && Value(q[2]) == Some(b % 16 * 4 + c / 64) && Value(q[3]) == Some(c % 64)
      && Printable(q) && q[2] != PAD && q[3] != PAD
  {
    SymbolValue(a / 4);
    SymbolValue(a % 4 * 16 + b / 16);
    SymbolValue(b % 16 * 4 + c / 64);
    SymbolValue(c % 64);
  }

  function TripleOf(q: Str): Str
    requires |q| == 4 && Symbols(q)
  {
    Triple(Value(q[0]).value, Value(q[1]).value, Value(q[2]).value, Value(q[3]).value)
  }

  lemma TripleOfQuad(a: Byte, b: Byte, c: Byte)
    ensures Symbols(Quad(a, b, c)) && TripleOf(Quad(a, b, c)) == [a, b, c]
  {
    QuadValues(a, b, c);
    QuadTriple(a, b, c);
  }

  /** One group decodes by itself; the padded forms keep the bytes that whole symbols cover. */
  lemma DecodeQuad(q: Str, rest: Str)
    requires |q| == 4 && Symbols(q) && q[2] != PAD && q[3] != PAD && DecodeGroups(rest).Some?
    ensures DecodeGroups(q + rest) == Some(TripleOf(q) + DecodeGroups(rest).value)
    ensures DecodeGroups(q[..3] + [PAD]) == Some(TripleOf(q)[..2])
    ensures DecodeGroups(q[..2] + [PAD, PAD]) == Some(TripleOf(q)[..1])
  {
    var s, two, one := q + rest, q[..3] + [PAD], q[..2] + [PAD, PAD];
    assert s[..4] == q && s[4..] == rest;
    assert two[..3] == q[..3] && one[..2] == q[..2];
    CoveredBytes(q);
  }

  lemma CoveredBytes(q: Str)
    requires |q| == 4 && Symbols(q)
    ensures Triple(Value(q[0]).value, Value(q[1]).value, Value(q[2]).value, 0)[..2] == TripleOf(q)[..2]
    ensures Triple(Value(q[0]).value, Value(q[1]).value, 0, 0)[..1] == TripleOf(q)[..1]
  {}

  ghost predicate Decodes(s: Str, bytes: Str) {
    DecodeGroups(s) == Some(bytes) && Printable(s)
  }

  lemma DecodesTail(q: Str, a: Byte, b: Byte, c: Byte)
    requires |q| == 4 && Symbols(q) && Printable(q) && q[2] != PAD && q[3] != PAD && TripleOf(q) == [a, b, c]
    ensures Decodes(q[..2] + [PAD, PAD], [a]) && Decodes(q[..3] + [PAD], [a, b])
  {
    DecodeQuad(q, []);
    assert [a, b, c][..1] == [a] && [a, b, c][..2] == [a, b];
  }

  lemma DecodesQuad(a: Byte, b: Byte, c: Byte, s: Str, rest: Str)
    requires Decodes(s, rest)
    ensures Decodes(Quad(a, b, c) + s, [a, b, c] + rest)
  {
    TripleOfQuad(a, b, c);
    QuadValues(a, b, c);
    DecodeQuad(Quad(a, b, c), s);
  }

  lemma EncodeOne(a: Byte)
    ensures Decodes(Encode([a]), [a])
  {
    var q := Quad(a, 0, 0);
    TripleOfQuad(a, 0, 0);
    QuadValues(a, 0, 0);
    DecodesTail(q, a, 0, 0);
    assert Encode([a]) == q[..2] + [PAD, PAD];
  }

  lemma EncodeTwo(a: Byte, b: Byte)
    ensures Decodes(Encode([a, b]), [a, b])
  {
    var q := Quad(a, b, 0);
    TripleOfQuad(a, b, 0);
    QuadValues(a, b, 0);
    DecodesTail(q, a, b, 0);
    assert Encode([a, b]) == q[..3] + [PAD];
  }

  lemma {:induction false} EncodeGroups(bytes: Str)
    ensures Decodes(Encode(bytes), bytes)
  {
    match |bytes|
    case 0 =>
    case 1 => EncodeOne(bytes[0]); assert bytes == [bytes[0]];
    case 2 => EncodeTwo(bytes[0], bytes[1]); assert bytes == [bytes[0], bytes[1]];
    case _ =>
      var rest := bytes[3..];
      EncodeGroups(rest);
      DecodesQuad(bytes[0], bytes[1], bytes[2], Encode(rest), rest);
      assert bytes == [bytes[0], bytes[1], bytes[2]] + rest;
  }

  lemma {:induction false} UnbrokenSame(s: Str)
    requires Printable(s)
    ensures Unbroken(s) == s
  {
    if s != [] { UnbrokenSame(s[1..]); }
  }

  /** Decoding undoes encoding, for every byte string, and encoded text holds no control characters. */
  lemma RoundTrip(bytes: Str)
    ensures Decode(Encode(bytes)) == Some(bytes) && Printable(Encode(bytes))
  {
    EncodeGroups(bytes);
    UnbrokenSame(Encode(bytes));
  }
}

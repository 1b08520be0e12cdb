/**
 Byte encoding of one settings register.

 Floats and units are four bytes little endian (their IEEE bit pattern), port-IDs two bytes,
 bytes and 8-bit enums one byte, the node name its characters and a terminator.
 */
module RegisterCodec {

  type Byte = b: nat | b < 256

  const NAME_MAX: nat := 50  // cyphal::kNodeNameMaxLen: the length bound of the Cyphal node name
  const MAX_SIZE: nat := NAME_MAX + 1  // kMaxRegisterValueSize

  type Bits16 = n: nat | n < 0x1_0000
  type Bits32 = n: nat | n < 0x1_0000_0000
  type NameChars = s: seq<Byte> | |s| == MAX_SIZE witness seq(MAX_SIZE, i => 0)

  datatype Kind = FloatKind | ByteKind | WordKind | NameKind

  datatype Value =
    | Float(bits: Bits32)
    | OneByte(b: Byte)
    | Word(w: Bits16)
    | Name(chars: NameChars)
  {
    function Kind(): (r: Kind) {
      match this
      case Float(_) => FloatKind
      case OneByte(_) => ByteKind
      case Word(_) => WordKind
      case Name(_) => NameKind
    }
  }

  datatype Decoded = Undecodable | Decoded(value: Value)

  // ----- Numbers, little endian --------------------------------------------------

  function LittleEndian(v: nat, size: nat): (r: seq<Byte>)
    ensures |r| == size
  {
    if size == 0 then [] else [v % 256] + LittleEndian(v / 256, size - 1)
  }

  function FromLittleEndian(s: seq<Byte>): (r: nat) {
    if |s| == 0 then 0 else s[0] + 256 * FromLittleEndian(s[1..])
  }

  function Power256(n: nat): (r: nat)
    ensures r > 0
  {
    if n == 0 then 1 else 256 * Power256(n - 1)
  }

  lemma {:induction false} NumberRoundTrip(v: nat, size: nat)
    requires v < Power256(size)
    ensures FromLittleEndian(LittleEndian(v, size)) == v
  {
    if size != 0 {
      NumberRoundTrip(v / 256, size - 1);
    }
  }

  lemma LowByte(b: Byte, rest: nat)
    ensures (b + 256 * rest) % 256 == b && (b + 256 * rest) / 256 == rest
  {
  }

  lemma {:induction false} BytesRoundTrip(s: seq<Byte>)
    ensures FromLittleEndian(s) < Power256(|s|)
    ensures LittleEndian(FromLittleEndian(s), |s|) == s
  {
    if |s| != 0 {
      BytesRoundTrip(s[1..]);
      LowByte(s[0], FromLittleEndian(s[1..]));
      assert s == [s[0]] + s[1..];
    }
  }

  lemma Sizes()
    ensures Power256(1) == 256 && Power256(2) == 0x1_0000 && Power256(4) == 0x1_0000_0000
  {
    assert Power256(3) == 0x100_0000;
  }

  lemma {:induction false} LittleEndianDigit(v: nat, size: nat, i: nat)
    requires i < size
    ensures LittleEndian(v, size)[i] == v / Power256(i) % 256
    decreases i
  {
    if i != 0 {
      LittleEndianDigit(v / 256, size - 1, i - 1);
      DivideTwice(v, 256, Power256(i - 1));
    }
  }

  lemma DivideTwice(v: nat, a: nat, b: nat)
    requires a > 0 && b > 0
    ensures a * b > 0 && v / a / b == v / (a * b)
  {
    Nested(v, a, b, v / a / b, (v / a) % b, v % a);
  }

  lemma Nested(v: nat, a: nat, b: nat, p: nat, t: nat, r: nat)
    requires v == a * (b * p + t) + r && t < b && r < a
    ensures a * b > 0 && p == v / (a * b)
  {
    Recombine(a, b, p, t, r);
    QuotientIs(v, a * b, p, a * t + r);
  }

  lemma Recombine(a: nat, b: nat, p: nat, t: nat, r: nat)
    requires t < b && r < a
    ensures a * (b * p + t) + r == (a * b) * p + (a * t + r)
    ensures 0 <= a * t + r < a * b
  {
    assert a * t + a == a * (t + 1) <= a * b;
  }

  lemma QuotientIs(v: nat, d: nat, q: nat, r: nat)
    requires d > 0 && r < d && v == d * q + r
    ensures v / d == q
  {
    Unique(d, v / d, v % d, q, r);
  }

  lemma Unique(d: nat, q: nat, r: nat, q': nat, r': nat)
    requires d * q + r == d * q' + r' && r < d && r' < d
    ensures q == q'
  {
    if q < q' {
      Multiple(d, q' - q);
    } else if q' < q {
      Multiple(d, q - q');
    }
  }

  lemma Multiple(d: nat, k: nat)
    requires k >= 1
    ensures d * k >= d
  {
  }

  /** PutFloat(): byte `i` holds bits 8 i .. 8 i + 7. */
  method PutFloat(bits: Bits32, out: array<Byte>)
    requires out.Length >= 4
    modifies out
    ensures out[..4] == LittleEndian(bits, 4)
    ensures out[4..] == old(out[4..])
  {
    for i := 0 to 4
      invariant forall j :: 0 <= j < i ==> out[j] == LittleEndian(bits, 4)[j]
      invariant out[4..] == old(out[4..])
    {
      LittleEndianDigit(bits, 4, i);
      out[i] := bits / Power256(i) % 256;
    }
  }

  /** GetFloat(): the bytes are disjoint bit ranges, so the or of the shifted bytes is their sum. */
  method GetFloat(bytes: seq<Byte>) returns (bits: Bits32)
    requires |bytes| == 4
    ensures bits == FromLittleEndian(bytes)
    ensures LittleEndian(bits, 4) == bytes
  {
    var sum: nat := 0;
    for i := 0 to 4
      invariant sum + Power256(i) * FromLittleEndian(bytes[i..]) == FromLittleEndian(bytes)
    {
      var tail := FromLittleEndian(bytes[i + 1..]);
      assert bytes[i..][1..] == bytes[i + 1..];
      Distribute(Power256(i), bytes[i], tail);
      sum := sum + bytes[i] * Power256(i);
    }
    assert bytes[4..] == [];
    BytesRoundTrip(bytes);
    Sizes();
    bits := sum;
  }

  lemma Distribute(p: nat, b: nat, tail: nat)
    ensures p * (b + 256 * tail) == b * p + (256 * p) * tail
  {
  }

  // ----- The node name -------------------------------------------------------------

  /** Characters up to the first terminator. */
  function TextLength(chars: seq<Byte>): (n: nat)
    ensures n <= |chars|
  {
    if |chars| == 0 || chars[0] == 0 then 0 else 1 + TextLength(chars[1..])
  }

  lemma {:induction false} FirstTerminator(chars: seq<Byte>)
    ensures var n := TextLength(chars);
            (forall j :: 0 <= j < n ==> chars[j] != 0) && (n < |chars| ==> chars[n] == 0)
  {
    if |chars| > 0 && chars[0] != 0 {
      FirstTerminator(chars[1..]);
      assert forall j :: 1 <= j < TextLength(chars) ==> chars[j] == chars[1..][j - 1];
    }
  }

  predicate NoTerminator(text: seq<Byte>) { forall c :: c in text ==> c != 0 }

  /** At most NAME_MAX characters; the last one is not looked at. */
  function Text(chars: NameChars): (r: seq<Byte>)
    ensures |r| <= NAME_MAX
  {
    chars[..TextLength(chars[..NAME_MAX])]
  }

  lemma TextHasNoTerminator(chars: NameChars)
    ensures NoTerminator(Text(chars))
  {
    FirstTerminator(chars[..NAME_MAX]);
  }

  /** The array filled with zeros, then the text. */
  function NameOf(text: seq<Byte>): (r: NameChars)
    requires |text| <= NAME_MAX
  {
    text + seq(MAX_SIZE - |text|, i => 0)
  }

  method EncodeName(chars: NameChars, out: array<Byte>) returns (size: nat)
    requires out.Length >= MAX_SIZE
    modifies out
    ensures size <= MAX_SIZE && out[..size] == Text(chars) + [0]
  {
    FirstTerminator(chars[..NAME_MAX]);
    var n := 0;
    while n < NAME_MAX && chars[n] != 0
      invariant n <= TextLength(chars[..NAME_MAX])
      invariant forall j :: 0 <= j < n ==> out[j] == chars[j]
      decreases NAME_MAX - n
    {
      out[n] := chars[n];
      n := n + 1;
    }
    out[n] := 0;
    size := n + 1;
  }

  method DecodeName(stored: seq<Byte>, value: array<Byte>) returns (ok: bool)
    requires value.Length == MAX_SIZE
    modifies value
    ensures ok <==> 0 < |stored| <= MAX_SIZE && stored[|stored| - 1] == 0
    ensures ok ==> value[..] == NameOf(stored[..|stored| - 1])
    ensures !ok ==> value[..] == old(value[..])
  {
    if |stored| == 0 || |stored| > MAX_SIZE || stored[|stored| - 1] != 0 {
      return false;
    }
    for i := 0 to MAX_SIZE
      invariant forall j :: 0 <= j < i ==> value[j] == 0
    {
      value[i] := 0;
    }
    for i := 0 to |stored| - 1
      invariant forall j :: 0 <= j < MAX_SIZE ==> value[j] == if j < i then stored[j] else 0
    {
      value[i] := stored[i];
    }
    return true;
  }

  // ----- One register ----------------------------------------------------------------

  /** Bytes of a float or a word. */
  function Size(k: Kind): (r: nat) { if k.FloatKind? then 4 else 2 }

  /** EncodeRegisterValue(). */
  function Encode(v: Value): (r: seq<Byte>)
    ensures 0 < |r| <= MAX_SIZE
  {
    match v
    case Float(bits) => LittleEndian(bits, Size(v.Kind()))
    case OneByte(b) => [b]
    case Word(w) => LittleEndian(w, Size(v.Kind()))
    case Name(chars) => Text(chars) + [0]
  }

  /** DecodeRegisterValue() into a field of the kind. */
  function Decode(kind: Kind, stored: seq<Byte>): (r: Decoded)
    ensures r.Decoded? ==> r.value.Kind() == kind
  {
    match kind
    case FloatKind =>
      if |stored| != 4 then Undecodable
      else
        BytesRoundTrip(stored); Sizes();
        Decoded(Float(FromLittleEndian(stored)))
    case ByteKind => if |stored| != 1 then Undecodable else Decoded(OneByte(stored[0]))
    case WordKind =>
      if |stored| != 2 then Undecodable
      else
        BytesRoundTrip(stored); Sizes();
        Decoded(Word(FromLittleEndian(stored)))
    case NameKind =>
      if |stored| == 0 || |stored| > MAX_SIZE || stored[|stored| - 1] != 0 then Undecodable
      else Decoded(Name(NameOf(stored[..|stored| - 1])))
  }

  /** SameEncoding(). */
  predicate SameEncoding(a: Value, b: Value) { Encode(a) == Encode(b) }

  /** A value as a load brings it back: nothing but zeros after the text of a name. */
  function Canonical(v: Value): (r: Value)
    ensures r.Kind() == v.Kind()
  {
    if v.Name? then Name(NameOf(Text(v.chars))) else v
  }

  lemma TextOfName(text: seq<Byte>)
    requires |text| <= NAME_MAX
    ensures Text(NameOf(text)) == text <==> NoTerminator(text)
  {
    var chars := NameOf(text);
    var n := TextLength(chars[..NAME_MAX]);
    FirstTerminator(chars[..NAME_MAX]);
    if NoTerminator(text) {
      forall j | 0 <= j < |text| ensures chars[j] != 0 {
        assert text[j] in text;
      }
      assert n >= |text|;
      assert |text| < NAME_MAX ==> chars[|text|] == 0;
      assert n == |text|;
    }
  }

  /** Decoding undoes encoding up to what follows the terminator of a name. */
  lemma DecodeEncode(v: Value)
    ensures Decode(v.Kind(), Encode(v)) == Decoded(Canonical(v))
  {
    Sizes();
    match v
    case Float(bits) => NumberRoundTrip(bits, 4);
    case OneByte(_) =>
    case Word(w) => NumberRoundTrip(w, 2);
    case Name(chars) => assert (Text(chars) + [0])[..|Text(chars)|] == Text(chars);
  }

  lemma CanonicalSameEncoding(v: Value)
    ensures SameEncoding(Canonical(v), v)
  {
    if v.Name? {
      TextHasNoTerminator(v.chars);
      TextOfName(Text(v.chars));
    }
  }

  /** Encoding undoes decoding, except for a stored name with a terminator inside. */
  lemma EncodeDecode(kind: Kind, stored: seq<Byte>)
    requires Decode(kind, stored).Decoded?
    ensures Encode(Decode(kind, stored).value) == stored
       <==> (kind == NameKind ==> NoTerminator(stored[..|stored| - 1]))
  {
    BytesRoundTrip(stored);
    if kind == NameKind {
      var text := stored[..|stored| - 1];
      TextOfName(text);
      assert stored == text + [0];
      if Text(NameOf(text)) + [0] == stored {
        assert (Text(NameOf(text)) + [0])[..|stored| - 1] == Text(NameOf(text));
      }
    }
  }

  /** Two values of one kind are stored alike exactly when a load brings back the same value. */
  lemma SameEncodingIffSameLoad(a: Value, b: Value)
    requires a.Kind() == b.Kind()
    ensures SameEncoding(a, b) <==> Canonical(a) == Canonical(b)
  {
    DecodeEncode(a);
    DecodeEncode(b);
    CanonicalSameEncoding(a);
    CanonicalSameEncoding(b);
  }
}

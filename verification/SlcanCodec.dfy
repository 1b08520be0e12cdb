/**
 slcan lines of extended CAN frames: the printer, the parser, and that they undo each other.

 Identifiers are 32-bit values; a frame carries 64 data bytes of which `size` are in use.
 */
module SlcanCodec {
  import opened Units

  type Byte = x: nat | x < 256

  const WRAP: nat := 0x1_0000_0000
  const ID_RANGE: nat := 0x2000_0000  // 29 bits
  const CLASSIC_MTU := 8
  const FD_MTU := 64
  const MAX_FRAME_TEXT := 1 + 8 + 1 + 2 * CLASSIC_MTU + 1

  const OK := "\r"
  const ERROR := [7 as char]  // BEL

  /** Data length of a CAN FD DLC code. */
  function DlcToLength(dlc: nat): (n: nat)
    requires dlc < 16
    ensures n <= FD_MTU && (dlc <= 8 ==> n == dlc)
  {
    if dlc <= 8 then dlc
    else if dlc <= 12 then 12 + 4 * (dlc - 9)
    else if dlc == 13 then 32
    else if dlc == 14 then 48
    else 64
  }

  datatype CanFrame = CanFrame(id: nat, size: nat, data: seq<Byte>) {
    predicate Valid() { id < WRAP && size < 256 && |data| == FD_MTU }
  }

  // ----- Hexadecimal digits -----------------------------------------------------------------

  function Nibble(c: char): (n: Option<nat>)
    ensures n.Some? ==> n.value < 16
  {
    if '0' <= c <= '9' then Some((c - '0') as nat)
    else if 'A' <= c <= 'F' then Some((c - 'A') as nat + 10)
    else if 'a' <= c <= 'f' then Some((c - 'a') as nat + 10)
    else None
  }

  /** The upper-case digit of a nibble. */
  function Digit(v: nat): (c: char)
    requires v < 16
    ensures Nibble(c) == Some(v)
  {
    if v < 10 then '0' + v as char else 'A' + (v - 10) as char
  }

  /** The value of a digit string, modulo 2^32; None if a character is not a digit. */
  function HexValue(digits: string): (v: Option<nat>)
    ensures v.Some? ==> v.value < WRAP
  {
    if |digits| == 0 then Some(0)
    else
      var n := |digits| - 1;
      var (high, low) := (HexValue(digits[..n]), Nibble(digits[n]));
      if high.None? || low.None? then None else Some((high.value * 16 + low.value) % WRAP)
  }

  /** The lowest `n` hexadecimal digits of `v`, the highest first. */
  function HexText(v: nat, n: nat): (t: string)
    ensures |t| == n
    decreases n
  {
    if n == 0 then "" else HexText(v / 16, n - 1) + [Digit(v % 16)]
  }

  function Pow16(n: nat): (p: nat)
    ensures p > 0
  {
    if n == 0 then 1 else 16 * Pow16(n - 1)
  }

  lemma HexAppend(t: string, high: nat, low: nat)
    requires HexValue(t) == Some(high) && low < 16 && high * 16 + low < WRAP
    ensures HexValue(t + [Digit(low)]) == Some(high * 16 + low)
  {
    assert (t + [Digit(low)])[..|t|] == t;
  }

  lemma DropDigit(v: nat, p: nat)
    requires v < 16 * p
    ensures v / 16 < p && v / 16 * 16 + v % 16 == v
  {
  }

  /** Reading back up to eight printed digits. */
  lemma {:induction false} HexRoundTrip(v: nat, n: nat)
    requires n <= 8 && v < Pow16(n) && v < WRAP
    ensures HexValue(HexText(v, n)) == Some(v)
    decreases n
  {
    if n != 0 {
      DropDigit(v, Pow16(n - 1));
      HexRoundTrip(v / 16, n - 1);
      HexAppend(HexText(v / 16, n - 1), v / 16, v % 16);
    }
  }

  lemma EightDigits()
    ensures Pow16(8) == WRAP && Pow16(2) == 256
  {
    assert Pow16(1) == 16;
    assert Pow16(2) == 256;
    assert Pow16(4) == 65536 by { assert Pow16(3) == 4096; }
    assert Pow16(6) == 0x1000000 by { assert Pow16(5) == 0x100000; }
    assert Pow16(7) == 0x10000000;
  }

  /** ParseHex() as a loop. */
  method ParseHex(digits: string) returns (v: Option<nat>)
    ensures v == HexValue(digits)
  {
    var value := 0;
    for i := 0 to |digits|
      invariant HexValue(digits[..i]) == Some(value)
    {
      assert digits[..i + 1][..i] == digits[..i];
      match Nibble(digits[i])
      case None =>
        BadDigit(digits, i);
        return None;
      case Some(nibble) =>
        value := (value * 16 + nibble) % WRAP;
    }
    assert digits[..|digits|] == digits;
    return Some(value);
  }

  lemma {:induction false} BadDigit(digits: string, i: nat)
    requires i < |digits| && Nibble(digits[i]).None?
    ensures HexValue(digits).None?
    decreases |digits|
  {
    if i < |digits| - 1 {
      BadDigit(digits[..|digits| - 1], i);
    }
  }

  // ----- Printing -----------------------------------------------------------------------------

  function PrintedSize(f: CanFrame): (r: nat) { if f.size > CLASSIC_MTU then CLASSIC_MTU else f.size }

  function ByteText(b: Byte): (t: string)
    ensures |t| == 2
  {
    [Digit(b / 16), Digit(b % 16)]
  }

  function BytesText(data: seq<Byte>, n: nat): (t: string)
    requires n <= |data|
    ensures |t| == 2 * n
  {
    if n == 0 then "" else BytesText(data, n - 1) + ByteText(data[n - 1])
  }

  /** The line of a frame without its CR. */
  function FrameLine(f: CanFrame): (t: string)
    requires f.Valid()
    ensures |t| == 10 + 2 * PrintedSize(f)
  {
    "T" + HexText(f.id, 8) + [Digit(PrintedSize(f))] + BytesText(f.data, PrintedSize(f))
  }

  function FrameText(f: CanFrame): (t: string)
    requires f.Valid()
    ensures 0 < |t| <= MAX_FRAME_TEXT
  {
    FrameLine(f) + "\r"
  }

  /** `v` shifted right by `n` hexadecimal digits. */
  function Shifted(v: nat, n: nat): (r: nat) {
    if n == 0 then v else Shifted(v, n - 1) / 16
  }

  /** The identifier digits, the highest nibble first. */
  method PutId(id: nat, text: array<char>)
    requires text.Length >= 10
    modifies text
    ensures text[1..9] == HexText(id, 8) && text[0] == old(text[0]) && text[9..] == old(text[9..])
  {
    for k := 0 to 8
      invariant text[1..1 + k] == HexText(Shifted(id, 8 - k), k)
      invariant text[0] == old(text[0]) && text[9..] == old(text[9..])
    {
      ghost var before := text[1..1 + k];
      text[1 + k] := Digit(Shifted(id, 8 - k - 1) % 16);
      assert text[1..1 + k + 1] == before + [text[1 + k]];
    }
  }

  /** The data digits from position 10 on. */
  method PutBytes(data: seq<Byte>, size: nat, text: array<char>)
    requires size <= |data| && 10 + 2 * size <= text.Length
    modifies text
    ensures text[10..10 + 2 * size] == BytesText(data, size)
    ensures text[..10] == old(text[..10]) && text[10 + 2 * size..] == old(text[10 + 2 * size..])
  {
    for i := 0 to size
      invariant text[10..10 + 2 * i] == BytesText(data, i)
      invariant text[..10] == old(text[..10]) && text[10 + 2 * size..] == old(text[10 + 2 * size..])
    {
      ghost var before := text[10..10 + 2 * i];
      text[10 + 2 * i] := Digit(data[i] / 16);
      text[10 + 2 * i + 1] := Digit(data[i] % 16);
      assert text[10..10 + 2 * (i + 1)] == before + [text[10 + 2 * i], text[10 + 2 * i + 1]];
    }
  }

  /** FormatFrame(): fills the buffer in place; a short buffer is left alone. */
  method FormatFrame(f: CanFrame, text: array<char>) returns (length: nat)
    requires f.Valid()
    modifies text
    ensures text.Length < MAX_FRAME_TEXT ==> length == 0 && text[..] == old(text[..])
    ensures text.Length >= MAX_FRAME_TEXT ==>
              length <= text.Length && text[..length] == FrameText(f) && text[length..] == old(text[length..])
  {
    if text.Length < MAX_FRAME_TEXT {
      return 0;
    }
    var size := PrintedSize(f);
    length := 10 + 2 * size;
    text[0] := 'T';
    PutId(f.id, text);
    text[9] := Digit(size);
    ghost var head := text[..10];
    assert head == "T" + HexText(f.id, 8) + [Digit(size)] by {
      assert head[1..9] == text[1..9];
      assert head == [head[0]] + head[1..9] + [head[9]];
    }
    ghost var tail := old(text[length..]);
    assert text[length..] == tail;
    PutBytes(f.data, size, text);
    ghost var line := FrameLine(f);
    assert text[..length] == line by {
      assert text[..length] == head + text[10..length];
    }
    text[length] := '\r';
    assert text[..length + 1] == line + "\r";
    assert text[length + 1..] == tail[1..];
    length := length + 1;
  }

  lemma ByteRoundTrip(b: Byte)
    ensures HexValue(ByteText(b)) == Some(b as nat)
  {
    HexAppend([], 0, b / 16);
    assert [] + [Digit(b / 16)] == [Digit(b / 16)];
    HexAppend([Digit(b / 16)], b / 16, b % 16);
    assert [Digit(b / 16)] + [Digit(b % 16)] == ByteText(b);
  }

  // ----- Parsing ---------------------------------------------------------------------------------

  datatype LineResult = LineResult(reply: string, frame: Option<CanFrame>, open: Option<bool>)

  /** The digits of the i-th data byte of a line. */
  function ByteDigits(line: string, i: nat): (r: string)
    requires 10 + 2 * (i + 1) <= |line|
  {
    line[10 + 2 * i..10 + 2 * i + 2]
  }

  /** The first `n` data bytes of a line. */
  function LineBytes(line: string, n: nat): (d: Option<seq<Byte>>)
    requires 10 + 2 * n <= |line|
    ensures d.Some? ==> |d.value| == n
  {
    if n == 0 then Some([])
    else
      var (before, b) := (LineBytes(line, n - 1), HexValue(ByteDigits(line, n - 1)));
      if before.None? || b.None? then None else Some(before.value + [b.value % 256])
  }

  function Padded(d: seq<Byte>): (p: seq<Byte>)
    requires |d| <= FD_MTU
    ensures |p| == FD_MTU
  {
    d + seq(FD_MTU - |d|, i => 0)
  }

  /** The frame of a T, D or B line; None if the line is malformed. */
  function LineFrame(line: string): (f: Option<CanFrame>)
    requires |line| > 0
    ensures f.Some? ==> f.value.Valid() && f.value.id < ID_RANGE
  {
    if |line| < 10 then None
    else
      var (id, dlc) := (HexValue(line[1..9]), Nibble(line[9]));
      if id.None? || dlc.None? || (line[0] == 'T' && dlc.value > 8) then None
      else
        var size := DlcToLength(dlc.value);
        if |line| < 10 + 2 * size then None
        else
          var data := LineBytes(line, size);
          if data.None? then None else Some(CanFrame(id.value % ID_RANGE, size, Padded(data.value)))
  }

  function LineMeaning(line: string): (r: LineResult) {
    if |line| == 0 then LineResult(OK, None, None)
    else if line[0] == 'O' || line[0] == 'L' then LineResult(OK, None, Some(true))
    else if line[0] == 'C' then LineResult(OK, None, Some(false))
    else if line[0] in "TDB" then
      var f := LineFrame(line);
      LineResult(if f.Some? then "" else ERROR, f, None)
    else if line[0] in "trR" then LineResult("", None, None)
    else LineResult(OK, None, None)
  }

  /** ParseLine() with the loop over the data bytes. */
  method ParseLine(line: string) returns (r: LineResult)
    ensures r == LineMeaning(line)
  {
    if |line| == 0 {
      return LineResult(OK, None, None);
    }
    match line[0]
    case 'O' => return LineResult(OK, None, Some(true));
    case 'L' => return LineResult(OK, None, Some(true));
    case 'C' => return LineResult(OK, None, Some(false));
    case 'T' => r := ParseFrameLine(line);
    case 'D' => r := ParseFrameLine(line);
    case 'B' => r := ParseFrameLine(line);
    case 't' => return LineResult("", None, None);
    case 'r' => return LineResult("", None, None);
    case 'R' => return LineResult("", None, None);
    case _ => return LineResult(OK, None, None);
  }

  lemma OneMoreByte(line: string, n: nat, d: seq<Byte>, b: Byte)
    requires 10 + 2 * (n + 1) <= |line|
    requires LineBytes(line, n) == Some(d) && HexValue(ByteDigits(line, n)) == Some(b as nat)
    ensures LineBytes(line, n + 1) == Some(d + [b])
  {
  }

  /** The loop over the data digits. */
  method ParseBytes(line: string, size: nat) returns (data: Option<seq<Byte>>)
    requires 10 + 2 * size <= |line|
    ensures data == LineBytes(line, size)
  {
    var bytes: seq<Byte> := [];
    for i := 0 to size
      invariant LineBytes(line, i) == Some(bytes)
    {
      var b := ParseHex(ByteDigits(line, i));
      if b.None? {
        NoBytes(line, i + 1, size);
        return None;
      }
      bytes := bytes + [b.value % 256];
    }
    return Some(bytes);
  }

  method ParseFrameLine(line: string) returns (r: LineResult)
    requires |line| > 0 && line[0] in "TDB"
    ensures r == LineMeaning(line)
  {
    var failed := LineResult(ERROR, None, None);
    if |line| < 10 {
      return failed;
    }
    var id := ParseHex(line[1..9]);
    var dlc := Nibble(line[9]);
    if id.None? || dlc.None? || (line[0] == 'T' && dlc.value > 8) {
      return failed;
    }
    var size := DlcToLength(dlc.value);
    if |line| < 10 + 2 * size {
      return failed;
    }
    var data := ParseBytes(line, size);
    if data.None? {
      return failed;
    }
    return LineResult("", Some(CanFrame(id.value % ID_RANGE, size, Padded(data.value))), None);
  }

  lemma {:induction false} NoBytes(line: string, n: nat, m: nat)
    requires n <= m && 10 + 2 * m <= |line| && LineBytes(line, n).None?
    ensures LineBytes(line, m).None?
    decreases m
  {
    if n < m {
      NoBytes(line, n, m - 1);
    }
  }

  // ----- They undo each other ---------------------------------------------------------------------

  /** A frame as it survives the line: 29-bit identifier, at most 8 bytes, the others zero. */
  function Canonical(f: CanFrame): (c: CanFrame)
    requires f.Valid()
    ensures c.Valid()
  {
    CanFrame(f.id % ID_RANGE, PrintedSize(f), Padded(f.data[..PrintedSize(f)]))
  }

  /** The i-th pair of data digits stands for the i-th byte. */
  predicate Carries(line: string, data: seq<Byte>, i: nat)
    requires i < |data|
  {
    10 + 2 * (i + 1) <= |line| && HexValue(ByteDigits(line, i)) == Some(data[i] as nat)
  }

  lemma {:induction false} BytesRoundTrip(line: string, data: seq<Byte>, n: nat)
    requires n <= |data| && 10 + 2 * n <= |line|
    requires forall i :: 0 <= i < n ==> Carries(line, data, i)
    ensures LineBytes(line, n) == Some(data[..n])
    decreases n
  {
    if n != 0 {
      BytesRoundTrip(line, data, n - 1);
      assert Carries(line, data, n - 1);
      OneMoreByte(line, n - 1, data[..n - 1], data[n - 1]);
      assert data[..n] == data[..n - 1] + [data[n - 1]];
    }
  }

  lemma {:induction false} BytesTextAt(data: seq<Byte>, i: nat, n: nat)
    requires i < n <= |data|
    ensures BytesText(data, n)[2 * i..2 * i + 2] == ByteText(data[i])
    decreases n
  {
    var t := BytesText(data, n);
    if i < n - 1 {
      BytesTextAt(data, i, n - 1);
      assert t[2 * i..2 * i + 2] == BytesText(data, n - 1)[2 * i..2 * i + 2];
    }
  }

  lemma FrameLineDigits(f: CanFrame, i: nat)
    requires f.Valid() && i < PrintedSize(f)
    ensures Carries(FrameLine(f), f.data, i)
  {
    ByteRoundTrip(f.data[i]);
    BytesTextAt(f.data, i, PrintedSize(f));
    var (line, bytes) := (FrameLine(f), BytesText(f.data, PrintedSize(f)));
    assert line[10..] == bytes;
    assert line[10 + 2 * i..10 + 2 * i + 2] == line[10..][2 * i..2 * i + 2];
  }

  lemma FrameLineHead(f: CanFrame)
    requires f.Valid()
    ensures var line := FrameLine(f);
            line[0] == 'T' && HexValue(line[1..9]) == Some(f.id) && Nibble(line[9]) == Some(PrintedSize(f))
  {
    var line := FrameLine(f);
    EightDigits();
    HexRoundTrip(f.id, 8);
    assert line[1..9] == HexText(f.id, 8) && line[9] == Digit(PrintedSize(f));
  }

  lemma FrameLineBytes(f: CanFrame)
    requires f.Valid()
    ensures LineBytes(FrameLine(f), PrintedSize(f)) == Some(f.data[..PrintedSize(f)])
  {
    forall i | 0 <= i < PrintedSize(f)
      ensures Carries(FrameLine(f), f.data, i)
    {
      FrameLineDigits(f, i);
    }
    BytesRoundTrip(FrameLine(f), f.data, PrintedSize(f));
  }

  /** The parser returns every printed frame in its canonical form. */
  lemma ParseUndoesFormat(f: CanFrame)
    requires f.Valid()
    ensures LineMeaning(FrameLine(f)) == LineResult("", Some(Canonical(f)), None)
  {
    FrameLineHead(f);
    FrameLineBytes(f);
  }

  lemma PaddedSame(data: seq<Byte>, n: nat)
    requires n <= |data| == FD_MTU
    ensures Padded(data[..n]) == data <==> forall i :: n <= i < FD_MTU ==> data[i] == 0
  {
    var p := Padded(data[..n]);
    assert forall i :: 0 <= i < n ==> p[i] == data[i];
    assert forall i :: n <= i < FD_MTU ==> p[i] == 0;
  }

  /** Fits a classic extended frame, with nothing behind its bytes. */
  predicate IsClassic(f: CanFrame)
    requires f.Valid()
  {
    f.id < ID_RANGE && f.size <= CLASSIC_MTU && forall i :: f.size <= i < FD_MTU ==> f.data[i] == 0
  }

  lemma CanonicalIffClassic(f: CanFrame)
    requires f.Valid()
    ensures Canonical(f) == f <==> IsClassic(f)
  {
    PaddedSame(f.data, PrintedSize(f));
  }

  /** Exactly the classic extended frames come back identical. */
  lemma IdenticalIffClassic(f: CanFrame)
    requires f.Valid()
    ensures LineMeaning(FrameLine(f)).frame == Some(f) <==> IsClassic(f)
  {
    ParseUndoesFormat(f);
    CanonicalIffClassic(f);
  }
}

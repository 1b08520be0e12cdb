/**
 What a host may send: the alphabet of the digits, the lines that are accepted and their frames, CAN FD
 lines included, and the reply and open state of every line.
 */
module SlcanHost {
  import opened Units
  import opened SlcanCodec

  const UPPER := "0123456789ABCDEF"
  const LOWER := "0123456789abcdef"
  const LENGTHS: seq<nat> := [0, 1, 2, 3, 4, 5, 6, 7, 8, 12, 16, 20, 24, 32, 48, 64]

  /** The digits of both cases and no other character are read; the upper-case ones are printed. */
  lemma DigitsAreHexadecimal(c: char, v: nat)
    requires v < 16
    ensures Nibble(c) == Some(v) <==> c == UPPER[v] || c == LOWER[v]
    ensures Digit(v) == UPPER[v]
  {
  }

  /** The data length codes of CAN FD. */
  lemma LengthsOfCodes(dlc: nat)
    requires dlc < 16
    ensures DlcToLength(dlc) == LENGTHS[dlc]
  {
  }

  // ----- Lines of frames -----------------------------------------------------------------------

  /** A line of kind T, D or B with its digits. */
  function HostLine(kind: char, id: nat, dlc: nat, data: seq<Byte>): (t: string)
    requires dlc < 16
    ensures |t| == 10 + 2 * |data|
  {
    [kind] + HexText(id, 8) + [Digit(dlc)] + BytesText(data, |data|)
  }

  lemma HostDigits(kind: char, id: nat, dlc: nat, data: seq<Byte>, rest: string, i: nat)
    requires dlc < 16 && i < |data|
    ensures Carries(HostLine(kind, id, dlc, data) + rest, data, i)
  {
    ByteRoundTrip(data[i]);
    BytesTextAt(data, i, |data|);
    var (line, bytes) := (HostLine(kind, id, dlc, data), BytesText(data, |data|));
    assert line[10..] == bytes;
    assert (line + rest)[10 + 2 * i..10 + 2 * i + 2] == line[10..][2 * i..2 * i + 2];
  }

  lemma HostHead(kind: char, id: nat, dlc: nat, data: seq<Byte>, rest: string)
    requires dlc < 16 && id < WRAP
    ensures var line := HostLine(kind, id, dlc, data) + rest;
            line[0] == kind && HexValue(line[1..9]) == Some(id) && Nibble(line[9]) == Some(dlc)
  {
    var line := HostLine(kind, id, dlc, data) + rest;
    EightDigits();
    HexRoundTrip(id, 8);
    assert line[1..9] == HexText(id, 8) && line[9] == Digit(dlc);
  }

  lemma HostBytes(kind: char, id: nat, dlc: nat, data: seq<Byte>, rest: string)
    requires dlc < 16
    ensures LineBytes(HostLine(kind, id, dlc, data) + rest, |data|) == Some(data)
  {
    var line := HostLine(kind, id, dlc, data) + rest;
    forall i | 0 <= i < |data|
      ensures Carries(line, data, i)
    {
      HostDigits(kind, id, dlc, data, rest, i);
    }
    BytesRoundTrip(line, data, |data|);
    assert data[..|data|] == data;
  }

  /** Every well-formed line of a host brings its frame, classic or CAN FD; what follows the digits is ignored. */
  lemma HostFrameArrives(kind: char, id: nat, dlc: nat, data: seq<Byte>, rest: string)
    requires kind in "TDB" && id < WRAP && dlc < 16 && (kind == 'T' ==> dlc <= 8) && |data| == LENGTHS[dlc]
    ensures LineMeaning(HostLine(kind, id, dlc, data) + rest)
         == LineResult("", Some(CanFrame(id % ID_RANGE, |data|, Padded(data))), None)
  {
    LengthsOfCodes(dlc);
    HostHead(kind, id, dlc, data, rest);
    HostBytes(kind, id, dlc, data, rest);
  }

  /** One of the characters that DigitsAreHexadecimal names. */
  predicate IsDigit(c: char) { Nibble(c).Some? }

  predicate AllDigits(line: string, from: nat, end: nat)
    requires end <= |line|
  {
    forall k :: from <= k < end ==> IsDigit(line[k])
  }

  lemma {:induction false} ValueIff(line: string, from: nat, end: nat)
    requires from <= end <= |line|
    ensures HexValue(line[from..end]).Some? <==> AllDigits(line, from, end)
    decreases end
  {
    if from < end {
      ValueIff(line, from, end - 1);
      assert line[from..end][..end - from - 1] == line[from..end - 1];
    }
  }

  lemma {:induction false} BytesIff(line: string, n: nat)
    requires 10 + 2 * n <= |line|
    ensures LineBytes(line, n).Some? <==> AllDigits(line, 10, 10 + 2 * n)
    decreases n
  {
    if n != 0 {
      BytesIff(line, n - 1);
      ValueIff(line, 10 + 2 * (n - 1), 10 + 2 * n);
    }
  }

  /** Well-formed: eight identifier digits, a length code (at most 8 for T), and the digits of that many bytes. */
  predicate WellFormed(line: string)
    requires |line| > 0
  {
    && |line| >= 10 && AllDigits(line, 1, 10)
    && var dlc := Nibble(line[9]).value;
       && (line[0] == 'T' ==> dlc <= 8) && |line| >= 10 + 2 * LENGTHS[dlc]
       && AllDigits(line, 10, 10 + 2 * LENGTHS[dlc])
  }

  /** Exactly the well-formed lines bring a frame. */
  lemma FrameIffWellFormed(line: string)
    requires |line| > 0
    ensures LineFrame(line).Some? <==> WellFormed(line)
  {
    if |line| >= 10 {
      ValueIff(line, 1, 9);
      if Nibble(line[9]).Some? {
        var dlc := Nibble(line[9]).value;
        LengthsOfCodes(dlc);
        if |line| >= 10 + 2 * LENGTHS[dlc] {
          BytesIff(line, LENGTHS[dlc]);
        }
      }
    }
  }

  /**
   Every line: the open state changes exactly with O, L and C; a malformed T, D or B line is answered with
   BEL; frames, and the standard and remote ones that are not used, have no answer; all the rest has CR.
   */
  lemma RepliesToLines(line: string)
    ensures var r := LineMeaning(line);
            var kind := if |line| > 0 then line[0] else '\r';
            && (r.open == Some(true) <==> kind in "OL") && (r.open == Some(false) <==> kind == 'C')
            && (r.frame.Some? <==> kind in "TDB" && WellFormed(line))
            && (r.reply == ERROR <==> kind in "TDB" && !WellFormed(line))
            && (r.reply == "" <==> kind in "trR" || (kind in "TDB" && WellFormed(line)))
            && (r.reply == OK <==> kind !in "trRTDB")
  {
    if |line| > 0 {
      FrameIffWellFormed(line);
    }
    assert ERROR[0] != OK[0];
  }
}

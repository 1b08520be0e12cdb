/**
 Output stream of one slcan port: the UART may take any part of what is offered, yet the terminal
 never carries a part of a line.
 */
module SlcanPort {
  import opened SlcanCodec

  const MAX_LINE := 140

  /** What a port writes: a reply or a frame. */
  ghost predicate IsLine(t: string) {
    t == OK || t == ERROR || exists f: CanFrame :: f.Valid() && t == FrameText(f)
  }

  lemma LineLength(t: string)
    requires IsLine(t)
    ensures 0 < |t| <= MAX_FRAME_TEXT
  {
  }

  function Concat(lines: seq<string>): (r: string) {
    if |lines| == 0 then "" else Concat(lines[..|lines| - 1]) + lines[|lines| - 1]
  }

  // ----- The stream as a value ---------------------------------------------------------------

  /** `lines` lists the lines of which anything went out. */
  datatype Stream = Stream(sent: string, pending: string, lines: seq<string>)

  /** Characters the UART took of `offered`; its error codes are negative. */
  function Taken(written: int, offered: nat): (n: nat)
    requires written <= offered
    ensures n <= offered
  {
    if written > 0 then written else 0
  }

  function AfterFlush(s: Stream, written: int): (n: Stream)
    requires written <= |s.pending|
  {
    var done := Taken(written, |s.pending|);
    s.(sent := s.sent + s.pending[..done], pending := s.pending[done..])
  }

  /** Write() with the answers of the UART to the flush and to the line itself. */
  function AfterWrite(s: Stream, text: string, flushed: int, written: int): (n: Stream)
    requires flushed <= |s.pending| && written <= |text|
  {
    if |text| == 0 then s
    else
      var f := AfterFlush(s, flushed);
      var done := Taken(written, |text|);
      if |f.pending| > 0 || done == 0 then f  // the line is dropped whole
      else
        var end := if |text| - done <= MAX_LINE then |text| else done + MAX_LINE;
        Stream(f.sent + text[..done], text[done..end], f.lines + [text])
  }

  ghost predicate Inv(s: Stream) {
    && s.sent + s.pending == Concat(s.lines)
    && (forall i :: 0 <= i < |s.lines| ==> IsLine(s.lines[i]))
    && |s.pending| < MAX_FRAME_TEXT
  }

  lemma FlushKeepsInv(s: Stream, written: int)
    requires Inv(s) && written <= |s.pending|
    ensures Inv(AfterFlush(s, written))
  {
    var done := Taken(written, |s.pending|);
    assert s.sent + s.pending == (s.sent + s.pending[..done]) + s.pending[done..];
  }

  lemma ConcatGrows(lines: seq<string>, line: string)
    ensures Concat(lines + [line]) == Concat(lines) + line
  {
    assert (lines + [line])[..|lines|] == lines;
  }

  /** The UART took `done` characters of a line while nothing was pending. */
  lemma AcceptedKeepsInv(f: Stream, text: string, done: nat)
    requires Inv(f) && f.pending == "" && IsLine(text) && 0 < done <= |text|
    ensures Inv(Stream(f.sent + text[..done], text[done..], f.lines + [text]))
  {
    LineLength(text);
    ConcatGrows(f.lines, text);
    assert f.sent + "" == f.sent;
    assert (f.sent + text[..done]) + text[done..] == f.sent + text;
  }

  lemma WriteKeepsInv(s: Stream, text: string, flushed: int, written: int)
    requires Inv(s) && flushed <= |s.pending| && written <= |text| && (text == "" || IsLine(text))
    ensures Inv(AfterWrite(s, text, flushed, written))
  {
    if |text| > 0 {
      FlushKeepsInv(s, flushed);
      LineLength(text);
      var f := AfterFlush(s, flushed);
      var done := Taken(written, |text|);
      if |f.pending| == 0 && done > 0 {
        AcceptedKeepsInv(f, text, done);
      }
    }
  }

  // ----- Whole runs ------------------------------------------------------------------------------

  datatype Operation = Flush(written: int) | Write(text: string, flushed: int, written: int)

  predicate Possible(s: Stream, o: Operation) {
    match o
    case Flush(written) => written <= |s.pending|
    case Write(text, flushed, written) => flushed <= |s.pending| && written <= |text|
  }

  function Step(s: Stream, o: Operation): (n: Stream) {
    if !Possible(s, o) then s
    else match o
      case Flush(written) => AfterFlush(s, written)
      case Write(text, flushed, written) => AfterWrite(s, text, flushed, written)
  }

  function Run(s: Stream, operations: seq<Operation>): (n: Stream)
    decreases |operations|
  {
    if |operations| == 0 then s else Run(Step(s, operations[0]), operations[1..])
  }

  ghost predicate WritesLines(operations: seq<Operation>) {
    forall i :: 0 <= i < |operations| && operations[i].Write? ==> operations[i].text == "" || IsLine(operations[i].text)
  }

  lemma {:induction false} RunKeepsInv(s: Stream, operations: seq<Operation>)
    requires Inv(s) && WritesLines(operations)
    ensures Inv(Run(s, operations))
    decreases |operations|
  {
    if |operations| != 0 {
      var o := operations[0];
      if Possible(s, o) {
        match o
        case Flush(written) => FlushKeepsInv(s, written);
        case Write(text, flushed, written) => WriteKeepsInv(s, text, flushed, written);
      }
      RunKeepsInv(Step(s, o), operations[1..]);
    }
  }

  /** For any lines and any answers of the UART: sent and pending together are whole lines, and nothing overflows. */
  lemma StreamIsWholeLines(operations: seq<Operation>)
    requires WritesLines(operations)
    ensures var e := Run(Stream("", "", []), operations);
            && e.sent + e.pending == Concat(e.lines)
            && (forall i :: 0 <= i < |e.lines| ==> IsLine(e.lines[i]))
            && |e.pending| < MAX_FRAME_TEXT < MAX_LINE
  {
    RunKeepsInv(Stream("", "", []), operations);
  }

  // ----- What goes out ------------------------------------------------------------------------------

  /** With this answer of the UART to the flush and to the line, something of the line goes out. */
  predicate Accepted(s: Stream, text: string, flushed: int, written: int) {
    |text| > 0 && (s.pending == "" || flushed == |s.pending|) && written > 0
  }

  /** Exactly then the line goes out: its first characters at once, the others behind them; otherwise none of it. */
  lemma LineGoesOutIff(s: Stream, text: string, flushed: int, written: int)
    requires Inv(s) && flushed <= |s.pending| && written <= |text| && (text == "" || IsLine(text))
    ensures var n := AfterWrite(s, text, flushed, written);
            && n.lines == (if Accepted(s, text, flushed, written) then s.lines + [text] else s.lines)
            && n.sent + n.pending
            == s.sent + s.pending + (if Accepted(s, text, flushed, written) then text else "")
            && s.sent <= n.sent
            && (Accepted(s, text, flushed, written) ==>
                  n.sent == s.sent + s.pending + text[..written] && n.pending == text[written..])
  {
    if |text| > 0 {
      LineLength(text);
      FlushSends(s, flushed);
      if Accepted(s, text, flushed, written) {
        AcceptedLine(s, text, flushed, written);
        LineSplits(s.sent + s.pending, text, written);
      }
    }
  }

  lemma AcceptedLine(s: Stream, text: string, flushed: int, written: int)
    requires flushed <= |s.pending| && written <= |text| <= MAX_LINE && Accepted(s, text, flushed, written)
    ensures AfterWrite(s, text, flushed, written)
         == Stream(s.sent + s.pending + text[..written], text[written..], s.lines + [text])
  {
    var f := AfterFlush(s, flushed);
    assert f.pending == "" && f.sent == s.sent + s.pending;
  }

  lemma LineSplits(before: string, text: string, n: nat)
    requires n <= |text|
    ensures before + text[..n] + text[n..] == before + text && before <= before + text[..n]
  {
  }

  /** A flush sends exactly what the UART takes, from the front. */
  lemma FlushSends(s: Stream, written: int)
    requires written <= |s.pending|
    ensures var n := AfterFlush(s, written);
            && n.lines == s.lines && n.sent + n.pending == s.sent + s.pending
            && |n.sent| == |s.sent| + if written > 0 then written else 0
  {
    var done := Taken(written, |s.pending|);
    assert s.sent + s.pending == (s.sent + s.pending[..done]) + s.pending[done..];
  }

  /** A write of a line, or a flush, to a UART that takes everything that it is offered. */
  ghost predicate Undelayed(o: Operation) {
    match o
    case Flush(written) => written == 0
    case Write(text, flushed, written) => flushed == 0 && written == |text| && (text == "" || IsLine(text))
  }

  ghost predicate AllUndelayed(operations: seq<Operation>) {
    forall i :: 0 <= i < |operations| ==> Undelayed(operations[i])
  }

  function Offer(o: Operation): (lines: seq<string>) { if o.Write? && |o.text| > 0 then [o.text] else [] }

  function Offered(operations: seq<Operation>): (lines: seq<string>)
    decreases |operations|
  {
    if |operations| == 0 then [] else Offer(operations[0]) + Offered(operations[1..])
  }

  lemma OneOffered(s: Stream, o: Operation)
    requires Inv(s) && s.pending == "" && Undelayed(o)
    ensures var n := Step(s, o);
            Inv(n) && n.pending == "" && n.lines == s.lines + Offer(o)
  {
    match o
    case Flush(written) => FlushKeepsInv(s, written);
    case Write(text, flushed, written) =>
      WriteKeepsInv(s, text, flushed, written);
      LineGoesOutIff(s, text, flushed, written);
  }

  lemma {:induction false} OfferedInOrder(s: Stream, operations: seq<Operation>)
    requires Inv(s) && s.pending == "" && AllUndelayed(operations)
    ensures var e := Run(s, operations);
            Inv(e) && e.pending == "" && e.lines == s.lines + Offered(operations)
    decreases |operations|
  {
    if |operations| != 0 {
      var (o, rest) := (operations[0], operations[1..]);
      assert Undelayed(o);
      OneOffered(s, o);
      var n := Step(s, o);
      assert forall i :: 0 <= i < |rest| ==> rest[i] == operations[i + 1];
      OfferedInOrder(n, rest);
      LinesAssociate(s.lines, Offer(o), Offered(rest));
    }
  }

  lemma LinesAssociate(a: seq<string>, b: seq<string>, c: seq<string>)
    ensures (a + b) + c == a + (b + c)
  {
  }

  /** To a UART that never falls behind every line goes out at once and in order. */
  lemma NothingIsDropped(operations: seq<Operation>)
    requires AllUndelayed(operations)
    ensures var e := Run(Stream("", "", []), operations);
            e.lines == Offered(operations) && e.pending == "" && e.sent == Concat(Offered(operations))
  {
    OfferedInOrder(Stream("", "", []), operations);
    var e := Run(Stream("", "", []), operations);
    assert e.sent + "" == e.sent;
  }

  // ----- The port on its buffer ------------------------------------------------------------------

  class Port {
    var pending: array<char>
    var pendingLength: nat
    ghost var sent: string
    ghost var lines: seq<string>

    predicate Valid()
      reads this
    {
      pending.Length == MAX_LINE && pendingLength <= MAX_LINE
    }

    ghost function View(): (n: Stream)
      requires Valid()
      reads this, pending
    {
      Stream(sent, pending[..pendingLength], lines)
    }

    constructor ()
      ensures Valid() && fresh(pending) && View() == Stream("", "", [])
    {
      pending := new char[MAX_LINE];
      pendingLength, sent, lines := 0, "", [];
    }

    /** `written` is the answer of the UART. */
    method Flush(written: int) returns (empty: bool)
      requires Valid() && written <= pendingLength
      modifies pending, `pendingLength, `sent
      ensures Valid() && View() == AfterFlush(old(View()), written)
      ensures empty == (pendingLength == 0)
    {
      if pendingLength == 0 {
        return true;
      }
      var done := Taken(written, pendingLength);
      ghost var was := pending[..pendingLength];
      for i := done to pendingLength
        invariant forall k :: 0 <= k < i - done ==> pending[k] == was[done + k]
        invariant forall k :: i <= k < pendingLength ==> pending[k] == was[k]
        modifies pending
      {
        pending[i - done] := pending[i];
      }
      sent := sent + was[..done];
      pendingLength := pendingLength - done;
      assert pending[..pendingLength] == was[done..];
      return pendingLength == 0;
    }

    /** Keeps the rest of a line of which the UART took `done` characters, as far as there is room. */
    method Keep(text: string, done: nat)
      requires Valid() && pendingLength == 0 && done <= |text|
      modifies pending, `pendingLength
      ensures Valid()
      ensures pending[..pendingLength] == text[done..if |text| - done <= MAX_LINE then |text| else done + MAX_LINE]
    {
      var i := done;
      while i < |text| && pendingLength < pending.Length
        invariant done <= i <= |text| && pendingLength == i - done && Valid()
        invariant pending[..pendingLength] == text[done..i]
      {
        ghost var stored := pending[..pendingLength];
        pending[pendingLength] := text[i];
        pendingLength := pendingLength + 1;
        assert pending[..pendingLength] == stored + [text[i]];
        i := i + 1;
      }
    }

    /** A line of which the UART took `done` characters. */
    method Accept(text: string, done: nat)
      requires Valid() && pendingLength == 0 && done <= |text|
      modifies pending, `pendingLength, `sent, `lines
      ensures Valid()
      ensures var end := if |text| - done <= MAX_LINE then |text| else done + MAX_LINE;
              View() == Stream(old(sent) + text[..done], text[done..end], old(lines) + [text])
    {
      Keep(text, done);
      sent := sent + text[..done];
      lines := lines + [text];
    }

    /** Whole lines only: a full terminal drops the next lines, never a part of one. */
    method Write(text: string, flushed: int, written: int)
      requires Valid() && flushed <= pendingLength && written <= |text|
      modifies pending, `pendingLength, `sent, `lines
      ensures Valid() && View() == AfterWrite(old(View()), text, flushed, written)
    {
      if |text| == 0 {
        return;
      }
      var empty := Flush(flushed);
      if !empty {
        return;
      }
      var done := Taken(written, |text|);
      if done > 0 {
        Accept(text, done);
      }
    }
  }
}

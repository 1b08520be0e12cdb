/**
 Input side of one slcan port: characters become lines, lines become frames.
 Together with the printer and the output stream this is a wire that delivers frames in order.
 */
module SlcanReceiver {
  import opened Units
  import opened SlcanCodec
  import opened SlcanPort

  // ----- From characters to frames --------------------------------------------------------------

  datatype Assembler = Assembler(line: string, overflow: bool)

  const EMPTY := Assembler("", false)

  predicate EndsLine(c: char) { c == '\r' || c == '\n' }

  function AfterChar(a: Assembler, c: char): (n: Assembler) {
    if EndsLine(c) then EMPTY
    else if |a.line| < MAX_LINE then a.(line := a.line + [c])
    else a.(overflow := true)
  }

  /** The frame that a character completes, if any: an overlong or empty line counts for nothing. */
  function Completed(a: Assembler, c: char): (frames: seq<CanFrame>)
    ensures |frames| <= 1
  {
    if EndsLine(c) && !a.overflow && |a.line| > 0 then
      (match LineMeaning(a.line).frame case Some(f) => [f] case None => [])
    else []
  }

  function After(a: Assembler, chars: string): (n: Assembler)
    decreases |chars|
  {
    if |chars| == 0 then a else AfterChar(After(a, chars[..|chars| - 1]), chars[|chars| - 1])
  }

  function Received(a: Assembler, chars: string): (r: seq<CanFrame>)
    decreases |chars|
  {
    if |chars| == 0 then []
    else
      var (init, last) := (chars[..|chars| - 1], chars[|chars| - 1]);
      Received(a, init) + Completed(After(a, init), last)
  }

  lemma LastApart(a: Assembler, chars: string, n: nat)
    requires n < |chars|
    ensures After(a, chars[..n + 1]) == AfterChar(After(a, chars[..n]), chars[n])
    ensures Received(a, chars[..n + 1]) == Received(a, chars[..n]) + Completed(After(a, chars[..n]), chars[n])
  {
    assert chars[..n + 1][..n] == chars[..n];
  }

  /** It does not matter in which portions the characters arrive. */
  lemma {:induction false} Portions(a: Assembler, first: string, second: string)
    ensures After(a, first + second) == After(After(a, first), second)
    ensures Received(a, first + second) == Received(a, first) + Received(After(a, first), second)
    decreases |second|
  {
    if |second| == 0 {
      assert first + second == first;
    } else {
      var (all, init) := (first + second, second[..|second| - 1]);
      assert all[..|all| - 1] == first + init && all[|all| - 1] == second[|second| - 1];
      Portions(a, first, init);
    }
  }

  // ----- Printed frames arrive ------------------------------------------------------------------------

  predicate IsText(t: string) { forall i :: 0 <= i < |t| ==> !EndsLine(t[i]) }

  lemma {:induction false} HexIsText(v: nat, n: nat)
    ensures IsText(HexText(v, n))
    decreases n
  {
    if n != 0 {
      HexIsText(v / 16, n - 1);
      assert Nibble(Digit(v % 16)).Some?;
    }
  }

  lemma {:induction false} BytesAreText(data: seq<Byte>, n: nat)
    requires n <= |data|
    ensures IsText(BytesText(data, n))
    decreases n
  {
    if n != 0 {
      BytesAreText(data, n - 1);
      assert Nibble(Digit(data[n - 1] / 16)).Some? && Nibble(Digit(data[n - 1] % 16)).Some?;
    }
  }

  lemma FrameLineIsText(f: CanFrame)
    requires f.Valid()
    ensures IsText(FrameLine(f))
  {
    HexIsText(f.id, 8);
    BytesAreText(f.data, PrintedSize(f));
    assert Nibble(Digit(PrintedSize(f))).Some?;
  }

  lemma {:induction false} TextIsCollected(t: string)
    requires IsText(t) && |t| <= MAX_LINE
    ensures After(EMPTY, t) == Assembler(t, false) && Received(EMPTY, t) == []
    decreases |t|
  {
    if |t| != 0 {
      TextIsCollected(t[..|t| - 1]);
    }
  }

  /** Of a text that is too long the first characters are kept, and that it was too long. */
  lemma {:induction false} LongTextIsCut(t: string)
    requires IsText(t) && |t| > MAX_LINE
    ensures After(EMPTY, t) == Assembler(t[..MAX_LINE], true) && Received(EMPTY, t) == []
    decreases |t|
  {
    var init := t[..|t| - 1];
    if |init| > MAX_LINE {
      LongTextIsCut(init);
      assert init[..MAX_LINE] == t[..MAX_LINE];
    } else {
      TextIsCollected(init);
      assert init == t[..MAX_LINE];
    }
  }

  lemma EndIsApart(t: string, end: char)
    ensures After(EMPTY, t + [end]) == AfterChar(After(EMPTY, t), end)
    ensures Received(EMPTY, t + [end]) == Received(EMPTY, t) + Completed(After(EMPTY, t), end)
  {
    assert (t + [end])[..|t|] == t;
  }

  function FramesOf(r: LineResult): (frames: seq<CanFrame>) { if r.frame.Some? then [r.frame.value] else [] }

  lemma EmptyMeansNothing()
    ensures LineMeaning("").frame.None?
  {
  }

  /** Any line with either end: what it means if it fits into the buffer, nothing if it is too long or empty. */
  lemma LineIsReceived(t: string, end: char)
    requires IsText(t) && (end == '\r' || end == '\n')
    ensures After(EMPTY, t + [end]) == EMPTY
    ensures Received(EMPTY, t + [end]) == if |t| <= MAX_LINE then FramesOf(LineMeaning(t)) else []
  {
    EndIsApart(t, end);
    if |t| <= MAX_LINE {
      TextIsCollected(t);
      EmptyMeansNothing();
    } else {
      LongTextIsCut(t);
    }
  }

  lemma FrameArrives(f: CanFrame)
    requires f.Valid()
    ensures After(EMPTY, FrameText(f)) == EMPTY && Received(EMPTY, FrameText(f)) == [Canonical(f)]
  {
    var (line, text) := (FrameLine(f), FrameText(f));
    FrameLineIsText(f);
    TextIsCollected(line);
    assert text[..|text| - 1] == line && text[|text| - 1] == '\r';
    ParseUndoesFormat(f);
  }

  // ----- A wire ------------------------------------------------------------------------------------------

  predicate AllValid(frames: seq<CanFrame>) { forall i :: 0 <= i < |frames| ==> frames[i].Valid() }

  function Texts(frames: seq<CanFrame>): (t: seq<string>)
    requires AllValid(frames)
    ensures |t| == |frames|
  {
    if |frames| == 0 then [] else Texts(frames[..|frames| - 1]) + [FrameText(frames[|frames| - 1])]
  }

  function Arriving(frames: seq<CanFrame>): (c: seq<CanFrame>)
    requires AllValid(frames)
    ensures |c| == |frames|
  {
    if |frames| == 0 then [] else Arriving(frames[..|frames| - 1]) + [Canonical(frames[|frames| - 1])]
  }

  /** A receiver of the concatenated lines gets every frame once, in order and in its canonical form. */
  lemma {:induction false} FramesArriveInOrder(frames: seq<CanFrame>)
    requires AllValid(frames)
    ensures Received(EMPTY, Concat(Texts(frames))) == Arriving(frames)
    ensures After(EMPTY, Concat(Texts(frames))) == EMPTY
    decreases |frames|
  {
    if |frames| != 0 {
      var (init, last) := (frames[..|frames| - 1], frames[|frames| - 1]);
      FramesArriveInOrder(init);
      FrameArrives(last);
      assert Texts(frames)[..|frames| - 1] == Texts(init);
      Portions(EMPTY, Concat(Texts(init)), FrameText(last));
    }
  }

  // ----- Replies between the frames ---------------------------------------------------------------------

  /** A line as a port writes it: a frame, CR or BEL. */
  datatype Item = Frame(f: CanFrame) | Acknowledge | Refuse

  predicate ValidItems(items: seq<Item>) { forall i :: 0 <= i < |items| && items[i].Frame? ==> items[i].f.Valid() }

  function ItemText(i: Item): (t: string)
    requires i.Frame? ==> i.f.Valid()
  {
    match i
    case Frame(f) => FrameText(f)
    case Acknowledge => OK
    case Refuse => ERROR
  }

  function ItemTexts(items: seq<Item>): (t: seq<string>)
    requires ValidItems(items)
    ensures |t| == |items|
  {
    if |items| == 0 then [] else ItemTexts(items[..|items| - 1]) + [ItemText(items[|items| - 1])]
  }

  predicate EndsRefused(items: seq<Item>) { |items| > 0 && items[|items| - 1].Refuse? }

  /** The frames that arrive: all but those right behind a BEL, which has no CR of its own. */
  function ItemsArriving(items: seq<Item>): (c: seq<CanFrame>)
    requires ValidItems(items)
  {
    if |items| == 0 then []
    else
      var (init, last) := (items[..|items| - 1], items[|items| - 1]);
      ItemsArriving(init) + if last.Frame? && !EndsRefused(init) then [Canonical(last.f)] else []
  }

  /** A line that begins with BEL never becomes a frame. */
  predicate Spoiled(a: Assembler) { |a.line| > 0 && [a.line[0]] == ERROR }

  lemma {:induction false} TextStaysSpoiled(a: Assembler, t: string)
    requires Spoiled(a) && IsText(t)
    ensures Spoiled(After(a, t)) && Received(a, t) == []
    decreases |t|
  {
    if |t| != 0 {
      TextStaysSpoiled(a, t[..|t| - 1]);
    }
  }

  lemma SpoiledMeansNothing(line: string)
    requires |line| > 0 && [line[0]] == ERROR
    ensures LineMeaning(line).frame.None?
  {
  }

  lemma SpoiledFrame(a: Assembler, f: CanFrame)
    requires Spoiled(a) && f.Valid()
    ensures After(a, FrameText(f)) == EMPTY && Received(a, FrameText(f)) == []
  {
    var (line, text) := (FrameLine(f), FrameText(f));
    FrameLineIsText(f);
    assert text[..|line|] == line && text[|line|] == '\r' && text[..|line| + 1] == text;
    TextStaysSpoiled(a, line);
    SpoiledMeansNothing(After(a, line).line);
    LastApart(a, text, |line|);
  }

  lemma OneCharacter(a: Assembler, c: char)
    ensures After(a, [c]) == AfterChar(a, c) && Received(a, [c]) == Completed(a, c)
  {
    assert [c][..0] == "";
  }

  lemma OneItem(a: Assembler, i: Item)
    requires a == EMPTY || Spoiled(a)
    requires i.Frame? ==> i.f.Valid()
    ensures Received(a, ItemText(i)) == if i.Frame? && a == EMPTY then [Canonical(i.f)] else []
    ensures if i.Refuse? then Spoiled(After(a, ItemText(i))) else After(a, ItemText(i)) == EMPTY
  {
    match i
    case Frame(f) =>
      if a == EMPTY {
        FrameArrives(f);
      } else {
        SpoiledFrame(a, f);
      }
    case Acknowledge => OneCharacter(a, '\r');
    case Refuse => OneCharacter(a, 7 as char);
  }

  /** A receiver of any lines gets the frames that no BEL stands before, once and in order. */
  lemma {:induction false} ItemsArriveInOrder(items: seq<Item>)
    requires ValidItems(items)
    ensures Received(EMPTY, Concat(ItemTexts(items))) == ItemsArriving(items)
    ensures if EndsRefused(items) then Spoiled(After(EMPTY, Concat(ItemTexts(items))))
            else After(EMPTY, Concat(ItemTexts(items))) == EMPTY
    decreases |items|
  {
    if |items| != 0 {
      var (init, last) := (items[..|items| - 1], items[|items| - 1]);
      ItemsArriveInOrder(init);
      assert ItemTexts(items)[..|items| - 1] == ItemTexts(init);
      OneItem(After(EMPTY, Concat(ItemTexts(init))), last);
      Portions(EMPTY, Concat(ItemTexts(init)), ItemText(last));
    }
  }

  /**
   From a port to a receiver: whatever the port writes and the UART takes, a receiver of what was sent
   so far has a prefix of the frames in the lines that went out, and the rest arrives with the pending
   characters.
   */
  lemma PortToReceiver(operations: seq<Operation>, items: seq<Item>)
    requires WritesLines(operations) && ValidItems(items)
    requires Run(Stream("", "", []), operations).lines == ItemTexts(items)
    ensures var e := Run(Stream("", "", []), operations);
            && Received(EMPTY, e.sent) <= ItemsArriving(items)
            && Received(EMPTY, e.sent) + Received(After(EMPTY, e.sent), e.pending) == ItemsArriving(items)
  {
    StreamIsWholeLines(operations);
    var e := Run(Stream("", "", []), operations);
    Portions(EMPTY, e.sent, e.pending);
    ItemsArriveInOrder(items);
  }

  /** Every line that a port writes is such an item. */
  lemma LinesAreItems(lines: seq<string>) returns (items: seq<Item>)
    requires forall i :: 0 <= i < |lines| ==> IsLine(lines[i])
    ensures ValidItems(items) && ItemTexts(items) == lines
  {
    items := [];
    for n := 0 to |lines|
      invariant ValidItems(items) && ItemTexts(items) == lines[..n]
    {
      var item: Item;
      if lines[n] == OK {
        item := Acknowledge;
      } else if lines[n] == ERROR {
        item := Refuse;
      } else {
        var f: CanFrame :| f.Valid() && lines[n] == FrameText(f);
        item := Frame(f);
      }
      assert (items + [item])[..|items|] == items;
      items := items + [item];
      assert lines[..n + 1] == lines[..n] + [lines[n]];
    }
    assert lines[..|lines|] == lines;
  }
}

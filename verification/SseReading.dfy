/** What any lines of an event stream say, told of their layout: blocks of fields between blank lines, each data
    field with its text, a block's texts on lines of their own. */
module SseReading {
  import opened Sequences
  import opened Layout
  import opened Sse

  /** A line with data, its text between white space and carriage returns, or any other line. */
  datatype Field = Data(blank: string, text: string, ends: string) | Other(line: string)

  /** The fields up to a blank line, and that line. */
  datatype Block = Block(fields: seq<Field>, end: string)

  /** White space by code point, as Python's `str.strip` takes it. */
  predicate SpaceChar(c: char) {
    var n := c as int;
    || 9 <= n <= 13 || 28 <= n <= 32 || n == 133 || n == 160 || n == 5760 || 8192 <= n <= 8202
    || n == 8232 || n == 8233 || n == 8239 || n == 8287 || n == 12288
  }

  predicate Spaces(s: string) {
    forall k :: 0 <= k < |s| ==> SpaceChar(s[k])
  }

  predicate Returns(s: string) {
    forall k :: 0 <= k < |s| ==> s[k] == '\r'
  }

  predicate StartsData(line: string) {
    |line| >= 5 && line[0] == 'd' && line[1] == 'a' && line[2] == 't' && line[3] == 'a' && line[4] == ':'
  }

  predicate FieldOk(f: Field) {
    match f
    case Data(blank, text, ends) =>
      && Spaces(blank) && Returns(ends)
      && (text != "" ==> !SpaceChar(text[0]) && text[|text| - 1] != '\r')
    case Other(line) => !Returns(line) && !StartsData(line)
  }

  predicate FieldsOk(fields: seq<Field>) {
    forall k :: 0 <= k < |fields| ==> FieldOk(fields[k])
  }

  predicate BlocksOk(blocks: seq<Block>) {
    forall k :: 0 <= k < |blocks| ==> FieldsOk(blocks[k].fields) && Returns(blocks[k].end)
  }

  function FieldLine(f: Field): string {
    match f
    case Data(blank, text, ends) => ['d', 'a', 't', 'a', ':'] + (blank + (text + ends))
    case Other(line) => line
  }

  function FieldLines(fields: seq<Field>): seq<string> {
    seq(|fields|, k requires 0 <= k < |fields| => FieldLine(fields[k]))
  }

  /** Blocks, and fields behind the last blank line. */
  function AllLines(blocks: seq<Block>, rest: seq<Field>): seq<string> {
    BlockLines(blocks) + FieldLines(rest)
  }

  function BlockLines(blocks: seq<Block>): seq<string> {
    if blocks == [] then []
    else
      var last := blocks[|blocks| - 1];
      BlockLines(blocks[..|blocks| - 1]) + FieldLines(last.fields) + [last.end]
  }

  /** The texts of the data fields, in order. */
  function Texts(fields: seq<Field>): seq<string> {
    if fields == [] then []
    else
      var last := fields[|fields| - 1];
      Texts(fields[..|fields| - 1]) + (if last.Data? then [last.text] else [])
  }

  ghost predicate IsEndMark(payload: string) {
    exists a, b :: Spaces(a) && Spaces(b) && payload == a + (['[', 'D', 'O', 'N', 'E', ']'] + b)
  }

  /** What a block with these texts brings: nothing without data, for the end marker between white space, and for
      what is no JSON object; else the event in the texts, each on a line of its own. */
  ghost predicate Brings<E(!new)>(c: Codec<E>, texts: seq<string>, events: seq<E>) {
    if texts == [] then events == []
    else exists payload ::
           && LaidOut(payload, texts, "\n")
           && (events == if IsEndMark(payload) then []
                         else match c.loads(payload)
                              case None => []
                              case Some(e) => [e])
  }

  lemma SpaceIff(c: char)
    ensures SpaceChar(c) <==> IsSpace(c)
  {
  }

  // ---- White space ------------------------------------------------------------------------------------------

  lemma {:induction false} TrimReturns(s: string, ends: string)
    requires Returns(ends) && (s != "" ==> s[|s| - 1] != '\r')
    ensures TrimCr(s + ends) == s
  {
    if ends == "" {
      assert s + ends == s;
    } else {
      var front := ends[..|ends| - 1];
      TrimReturns(s, front);
      assert (s + ends)[..|s + ends| - 1] == s + front;
    }
  }

  lemma {:induction false} StripSpaces(blank: string, text: string)
    requires Spaces(blank) && (text != "" ==> !SpaceChar(text[0]))
    ensures LStrip(blank + text) == text
  {
    if blank == "" {
      assert blank + text == text;
      if text != "" { SpaceIff(text[0]); }
    } else {
      SpaceIff(blank[0]);
      StripSpaces(blank[1..], text);
      assert (blank + text)[1..] == blank[1..] + text;
    }
  }

  lemma {:induction false} StripSpacesBehind(text: string, blank: string)
    requires Spaces(blank) && (text != "" ==> !SpaceChar(text[|text| - 1]))
    ensures RStrip(text + blank) == text
  {
    if blank == "" {
      assert text + blank == text;
      if text != "" { SpaceIff(text[|text| - 1]); }
    } else {
      var front := blank[..|blank| - 1];
      SpaceIff(blank[|blank| - 1]);
      StripSpacesBehind(text, front);
      assert (text + blank)[..|text + blank| - 1] == text + front;
    }
  }

  /** What stripping takes away is white space. */
  lemma {:induction false} LeftParts(s: string) returns (blank: string)
    ensures Spaces(blank) && s == blank + LStrip(s) && (LStrip(s) != "" ==> !SpaceChar(LStrip(s)[0]))
  {
    if s != "" { SpaceIff(s[0]); }
    if s != "" && IsSpace(s[0]) {
      blank := LeftParts(s[1..]);
      blank := [s[0]] + blank;
    } else {
      blank := "";
    }
  }

  lemma {:induction false} RightParts(s: string) returns (blank: string)
    ensures Spaces(blank) && s == RStrip(s) + blank
  {
    if s != "" { SpaceIff(s[|s| - 1]); }
    if s != "" && IsSpace(s[|s| - 1]) {
      blank := RightParts(s[..|s| - 1]);
      blank := blank + [s[|s| - 1]];
    } else {
      blank := "";
    }
  }

  lemma {:induction false} TrimParts(s: string) returns (ends: string)
    ensures Returns(ends) && s == TrimCr(s) + ends && (TrimCr(s) != "" ==> TrimCr(s)[|TrimCr(s)| - 1] != '\r')
  {
    if s != "" && s[|s| - 1] == '\r' {
      ends := TrimParts(s[..|s| - 1]);
      ends := ends + ['\r'];
    } else {
      ends := "";
    }
  }

  function Mark(): string {
    ['[', 'D', 'O', 'N', 'E', ']']
  }

  lemma EndMarkIff(payload: string)
    ensures RStrip(LStrip(payload)) == Mark() <==> IsEndMark(payload)
  {
    if RStrip(LStrip(payload)) == Mark() {
      var a := LeftParts(payload);
      var b := RightParts(LStrip(payload));
      assert payload == a + (Mark() + b);
    }
    if IsEndMark(payload) {
      var a, b :| Spaces(a) && Spaces(b) && payload == a + (Mark() + b);
      StripSpaces(a, Mark() + b);
      StripSpacesBehind(Mark(), b);
    }
  }

  lemma MarkIs()
    ensures Mark() == "[DONE]"
  {
  }

  // ---- Lines --------------------------------------------------------------------------------------------------

  lemma DataPrefix(line: string)
    ensures "data:" <= line <==> StartsData(line)
  {
    if "data:" <= line {
      assert line[..5] == "data:";
      assert line[0] == line[..5][0] && line[1] == line[..5][1] && line[2] == line[..5][2] && line[3] == line[..5][3]
          && line[4] == line[..5][4];
    }
    if StartsData(line) { assert line[..5] == "data:"; }
  }

  lemma {:induction false} SpacesTrimmed(s: string)
    requires Spaces(s)
    ensures Spaces(TrimCr(s)) && LStrip(s) == ""
  {
    StripSpaces(s, "");
    assert s + "" == s;
    var ends := TrimParts(s);
    forall k | 0 <= k < |TrimCr(s)| ensures SpaceChar(TrimCr(s)[k]) { assert TrimCr(s)[k] == s[k]; }
  }

  /** A data line is read as its text. */
  lemma DataLineText(f: Field)
    requires FieldOk(f) && f.Data?
    ensures var line := TrimCr(FieldLine(f)); StartsData(line) && LStrip(line[5..]) == f.text
  {
    var head := ['d', 'a', 't', 'a', ':'];
    if f.text != "" {
      var whole := head + (f.blank + f.text);
      assert FieldLine(f) == whole + f.ends;
      assert whole[|whole| - 1] == f.text[|f.text| - 1];
      TrimReturns(whole, f.ends);
      assert whole[5..] == f.blank + f.text;
      StripSpaces(f.blank, f.text);
    } else {
      var blanks := f.blank + f.ends;
      assert FieldLine(f) == head + blanks;
      BlankTail(head, blanks);
    }
  }

  lemma BlankTail(head: string, blanks: string)
    requires Spaces(blanks) && head == ['d', 'a', 't', 'a', ':']
    ensures var line := TrimCr(head + blanks); StartsData(line) && LStrip(line[5..]) == ""
  {
    var ends := TrimParts(blanks);
    SpacesTrimmed(blanks);
    var whole := head + TrimCr(blanks);
    assert head + blanks == whole + ends;
    TrimReturns(whole, ends);
    assert whole[5..] == TrimCr(blanks);
    SpacesTrimmed(TrimCr(blanks));
  }

  lemma OtherLineIgnored(line: string)
    requires !Returns(line) && !StartsData(line)
    ensures TrimCr(line) != "" && !StartsData(TrimCr(line))
  {
    var ends := TrimParts(line);
    assert TrimCr(line) == "" ==> line == ends;
    forall k | 0 <= k < |TrimCr(line)| ensures TrimCr(line)[k] == line[k] {}
  }

  lemma BlankLineTrimmed(line: string)
    requires Returns(line)
    ensures TrimCr(line) == ""
  {
    TrimReturns("", line);
    assert "" + line == line;
  }

  lemma ReadField<E>(c: Codec<E>, r: Reader<E>, f: Field)
    requires FieldOk(f)
    ensures ReadLine(c, r, FieldLine(f)) == if f.Data? then r.(data := r.data + [f.text]) else r
  {
    DataPrefix(TrimCr(FieldLine(f)));
    match f
    case Data(_, _, _) => DataLineText(f);
    case Other(line) => OtherLineIgnored(line);
  }

  lemma {:induction false} ReadFields<E>(c: Codec<E>, events: seq<E>, fields: seq<Field>)
    requires FieldsOk(fields)
    ensures ReadLines(c, Reader([], events), FieldLines(fields)) == Reader(Texts(fields), events)
  {
    if fields == [] {
    } else {
      var front, last := fields[..|fields| - 1], fields[|fields| - 1];
      ReadFields(c, events, front);
      assert FieldLines(fields)[..|fields| - 1] == FieldLines(front);
      ReadField(c, Reader(Texts(front), events), last);
    }
  }

  // ---- Payloads -----------------------------------------------------------------------------------------------

  lemma {:induction false} LinesLaidOut(texts: seq<string>)
    requires texts != []
    ensures LaidOut(JoinLines(texts), texts, "\n")
  {
    if |texts| == 1 {
      OneLaidOut(texts[0], "\n");
      assert texts == [texts[0]];
    } else {
      var front, last := texts[..|texts| - 1], texts[|texts| - 1];
      LinesLaidOut(front);
      LaidOutSnoc(JoinLines(front), front, "\n", last);
      Regroup(JoinLines(front), "\n", last);
      assert front + [last] == texts;
    }
  }

  lemma PayloadBrings<E(!new)>(c: Codec<E>, texts: seq<string>)
    requires texts != []
    ensures Brings(c, texts, Decode(c, JoinLines(texts)))
  {
    LinesLaidOut(texts);
    EndMarkIff(JoinLines(texts));
    MarkIs();
  }

  /** What a block adds to the events. */
  function Brought<E>(c: Codec<E>, texts: seq<string>): seq<E> {
    if texts == [] then [] else Decode(c, JoinLines(texts))
  }

  lemma BroughtBrings<E(!new)>(c: Codec<E>, texts: seq<string>)
    ensures Brings(c, texts, Brought(c, texts))
  {
    if texts != [] { PayloadBrings(c, texts); }
  }

  lemma ReadBlock<E>(c: Codec<E>, before: seq<string>, events: seq<E>, b: Block)
    requires ReadLines(c, Reader([], []), before) == Reader([], events) && FieldsOk(b.fields) && Returns(b.end)
    ensures ReadLines(c, Reader([], []), before + FieldLines(b.fields) + [b.end])
            == Reader([], events + Brought(c, Texts(b.fields)))
  {
    ReadLinesAppend(c, Reader([], []), before, FieldLines(b.fields));
    ReadFields(c, events, b.fields);
    ReadLinesSnoc(c, Reader([], []), before + FieldLines(b.fields), b.end);
    BlankLineTrimmed(b.end);
    assert events + [] == events;
  }

  /** All that the blocks bring, in order. */
  function AllBrought<E>(brought: seq<seq<E>>): seq<E> {
    if brought == [] then [] else AllBrought(brought[..|brought| - 1]) + brought[|brought| - 1]
  }

  function BroughtBy<E>(c: Codec<E>, blocks: seq<Block>): seq<seq<E>> {
    seq(|blocks|, k requires 0 <= k < |blocks| => Brought(c, Texts(blocks[k].fields)))
  }

  /** Each block brings its own. */
  ghost predicate EachBrings<E(!new)>(c: Codec<E>, blocks: seq<Block>, brought: seq<seq<E>>) {
    |brought| == |blocks| && forall k :: 0 <= k < |blocks| ==> Brings(c, Texts(blocks[k].fields), brought[k])
  }

  lemma EachBroughtBrings<E(!new)>(c: Codec<E>, blocks: seq<Block>)
    ensures EachBrings(c, blocks, BroughtBy(c, blocks))
  {
    forall k | 0 <= k < |blocks| ensures Brings(c, Texts(blocks[k].fields), BroughtBy(c, blocks)[k]) {
      BroughtBrings(c, Texts(blocks[k].fields));
    }
  }

  lemma AllBroughtSnoc<E>(c: Codec<E>, blocks: seq<Block>)
    requires blocks != []
    ensures var front, last := blocks[..|blocks| - 1], blocks[|blocks| - 1];
            AllBrought(BroughtBy(c, blocks)) == AllBrought(BroughtBy(c, front)) + Brought(c, Texts(last.fields))
  {
    var front := blocks[..|blocks| - 1];
    assert BroughtBy(c, blocks)[..|front|] == BroughtBy(c, front);
  }

  lemma {:induction false} ReadBlocks<E>(c: Codec<E>, blocks: seq<Block>)
    requires BlocksOk(blocks)
    ensures ReadLines(c, Reader([], []), BlockLines(blocks)) == Reader([], AllBrought(BroughtBy(c, blocks)))
  {
    if blocks == [] {
    } else {
      var front, last := blocks[..|blocks| - 1], blocks[|blocks| - 1];
      ReadBlocks(c, front);
      ReadBlock(c, BlockLines(front), AllBrought(BroughtBy(c, front)), last);
      AllBroughtSnoc(c, blocks);
    }
  }

  /** Lines laid out as blocks bring what each block brings, in order, a block without its blank line at the end
      included. */
  lemma BlocksRead<E(!new)>(c: Codec<E>, blocks: seq<Block>, rest: seq<Field>)
    returns (brought: seq<seq<E>>, last: seq<E>)
    requires BlocksOk(blocks) && FieldsOk(rest)
    ensures EachBrings(c, blocks, brought) && Brings(c, Texts(rest), last)
    ensures ChunksOf(c, AllLines(blocks, rest)) == AllBrought(brought) + last
  {
    ReadBlocks(c, blocks);
    EachBroughtBrings(c, blocks);
    brought, last := BroughtBy(c, blocks), Brought(c, Texts(rest));
    BroughtBrings(c, Texts(rest));
    ReadLinesAppend(c, Reader([], []), BlockLines(blocks), FieldLines(rest));
    ReadFields(c, AllBrought(brought), rest);
    assert AllBrought(brought) + [] == AllBrought(brought);
  }

  // ---- Any lines are laid out so ---------------------------------------------------------------------------

  lemma LineIsField(line: string) returns (f: Field)
    requires !Returns(line)
    ensures FieldOk(f) && FieldLine(f) == line
  {
    if StartsData(line) {
      var body := line[5..];
      var ends := TrimParts(body);
      var blank := LeftParts(TrimCr(body));
      var text := LStrip(TrimCr(body));
      f := Data(blank, text, ends);
      if text != "" { assert text[|text| - 1] == TrimCr(body)[|TrimCr(body)| - 1]; }
      Regroup(blank, text, ends);
      assert line == line[..5] + body && line[..5] == ['d', 'a', 't', 'a', ':'];
    } else {
      f := Other(line);
    }
  }

  lemma FieldLinesSnoc(fields: seq<Field>, f: Field)
    ensures FieldLines(fields + [f]) == FieldLines(fields) + [FieldLine(f)]
  {
  }

  lemma BlockLinesSnoc(blocks: seq<Block>, b: Block)
    ensures BlockLines(blocks + [b]) == BlockLines(blocks) + FieldLines(b.fields) + [b.end]
  {
    assert (blocks + [b])[..|blocks|] == blocks;
  }

  lemma {:induction false} LinesAreBlocks(lines: seq<string>) returns (blocks: seq<Block>, rest: seq<Field>)
    ensures BlocksOk(blocks) && FieldsOk(rest) && AllLines(blocks, rest) == lines
  {
    if lines == [] {
      blocks, rest := [], [];
    } else {
      var front, last := lines[..|lines| - 1], lines[|lines| - 1];
      blocks, rest := LinesAreBlocks(front);
      if Returns(last) {
        BlockLinesSnoc(blocks, Block(rest, last));
        blocks, rest := blocks + [Block(rest, last)], [];
      } else {
        var f := LineIsField(last);
        FieldLinesSnoc(rest, f);
        Regroup(BlockLines(blocks), FieldLines(rest), [last]);
        rest := rest + [f];
      }
      assert front + [last] == lines;
    }
  }

  /** So whatever the lines, they are blocks, and what is read is what each block brings, in order. */
  lemma AnyLinesRead<E(!new)>(c: Codec<E>, lines: seq<string>)
    returns (blocks: seq<Block>, rest: seq<Field>, brought: seq<seq<E>>, last: seq<E>)
    ensures BlocksOk(blocks) && FieldsOk(rest) && AllLines(blocks, rest) == lines
    ensures EachBrings(c, blocks, brought) && Brings(c, Texts(rest), last)
    ensures ChunksOf(c, lines) == AllBrought(brought) + last
  {
    blocks, rest := LinesAreBlocks(lines);
    brought, last := BlocksRead(c, blocks, rest);
  }

  // ---- What is written --------------------------------------------------------------------------------------

  lemma FiveLaidOut(a: string, b: string, c: string, d: string, e: string)
    ensures LaidOut(a + b + c + d + e, [a] + [b] + [c] + [d] + [e], "")
  {
    OneLaidOut(a, "");
    LaidOutNext(a, [a], b);
    LaidOutNext(a + b, [a] + [b], c);
    LaidOutNext(a + b + c, [a] + [b] + [c], d);
    LaidOutNext(a + b + c + d, [a] + [b] + [c] + [d], e);
  }

  /** A frame is a line with the event's type, a line with its JSON, and a blank line. */
  lemma FrameLaidOut<E>(c: Codec<E>, e: E)
    ensures LaidOut(Frame(c, e), ["event: "] + [c.typeOf(e)] + ["\ndata: "] + [c.dumps(e)] + ["\n\n"], "")
  {
    FiveLaidOut("event: ", c.typeOf(e), "\ndata: ", c.dumps(e), "\n\n");
  }
}

/** Server-sent-event framing: frames written, heartbeats slipped in between, and lines read back.
    JSON and the characters at which the HTTP client breaks lines are parameters. */
module Sse {
  import opened Wrappers
  import opened Sequences
  import Json

  /** How events are written and read: `dumps` and the event's type, `loads` (None for what is no JSON
      object), and where lines break. */
  datatype Codec<!E> = Codec(dumps: E -> string, typeOf: E -> string, loads: string -> Option<E>, breaks: char -> bool)

  const HEARTBEAT := ": ping\n\n"

  /** `format_sse`. */
  function Frame<E>(c: Codec<E>, e: E): string {
    "event: " + c.typeOf(e) + "\ndata: " + c.dumps(e) + "\n\n"
  }

  function Frames<E>(c: Codec<E>, events: seq<E>): seq<string> {
    seq(|events|, k requires 0 <= k < |events| => Frame(c, events[k]))
  }

  // ---- Heartbeats -------------------------------------------------------------------------------------

  /** The outcome of one wait for the pending pull. */
  datatype Wait = TimedOut | Ready

  /** What goes out for a source of chunks when the waits come out so; the list ends where the
      consumer goes away. */
  function Beating(source: seq<string>, waits: seq<Wait>): seq<string> {
    if waits == [] then []
    else if waits[0].TimedOut? then [HEARTBEAT] + Beating(source, waits[1..])
    else if source == [] then []
    else [source[0]] + Beating(source[1..], waits[1..])
  }

  function ReadyCount(waits: seq<Wait>): nat {
    if waits == [] then 0 else (if waits[0].Ready? then 1 else 0) + ReadyCount(waits[1..])
  }

  function Least(a: nat, b: nat): nat {
    if a <= b then a else b
  }

  lemma BeatingStep(rest: seq<string>, waits: seq<Wait>, i: nat)
    requires i < |waits|
    ensures Beating(rest, waits[i..])
            == if waits[i].TimedOut? then [HEARTBEAT] + Beating(rest, waits[i + 1..])
               else if rest == [] then []
               else [rest[0]] + Beating(rest[1..], waits[i + 1..])
  {
    assert waits[i..][1..] == waits[i + 1..];
  }

  lemma OneMore(out: seq<string>, chunk: string, later: seq<string>)
    ensures out + ([chunk] + later) == (out + [chunk]) + later
  {
  }

  /** `with_heartbeat`: one pull is pending across any number of heartbeats. `pulled` counts the
      pulls started, so the chunk waited for is the last of them. */
  method WithHeartbeat(source: seq<string>, interval: real, waits: seq<Wait>) returns (out: seq<string>)
    ensures out == if interval <= 0.0 then source else Beating(source, waits)
  {
    if interval <= 0.0 { return source; }
    out := [];
    var pulled, pending, i := 0, false, 0;
    ghost var rest := source;
    while i < |waits|
      invariant 0 <= i <= |waits| && (pending ==> pulled > 0)
      invariant (if pending then pulled - 1 else pulled) <= |source|
      invariant rest == source[if pending then pulled - 1 else pulled..]
      invariant out + Beating(rest, waits[i..]) == Beating(source, waits)
    {
      BeatingStep(rest, waits, i);
      if !pending {
        pending := true;
        pulled := pulled + 1;
      }
      if waits[i].TimedOut? {
        OneMore(out, HEARTBEAT, Beating(rest, waits[i + 1..]));
        out := out + [HEARTBEAT];
      } else if pulled == |source| + 1 {
        return;
      } else {
        OneMore(out, rest[0], Beating(rest[1..], waits[i + 1..]));
        pending := false;
        out := out + [source[pulled - 1]];
        rest := rest[1..];
      }
      i := i + 1;
    }
  }

  // ---- Lines --------------------------------------------------------------------------------------------

  /** Complete lines, and the one being read. */
  datatype Lines = Lines(done: seq<string>, partial: string)

  function Feed(breaks: char -> bool, s: Lines, text: string): Lines {
    if text == "" then s
    else
      var before, c := Feed(breaks, s, text[..|text| - 1]), text[|text| - 1];
      if breaks(c) then Lines(before.done + [before.partial], "") else before.(partial := before.partial + [c])
  }

  /** The lines of a text; a last line without break counts unless it is empty. */
  function LinesOf(breaks: char -> bool, text: string): seq<string> {
    var s := Feed(breaks, Lines([], ""), text);
    if s.partial == "" then s.done else s.done + [s.partial]
  }

  // ---- Reading ---------------------------------------------------------------------------------------------

  predicate IsSpace(c: char) {
    c in " \t\n\r" || c == '\U{B}' || c == '\U{C}' || '\U{1C}' <= c <= '\U{1F}' || c == '\U{85}' || c == '\U{A0}'
    || c == '\U{1680}' || '\U{2000}' <= c <= '\U{200A}' || c == '\U{2028}' || c == '\U{2029}' || c == '\U{202F}'
    || c == '\U{205F}' || c == '\U{3000}'
  }

  function LStrip(s: string): string {
    if s != "" && IsSpace(s[0]) then LStrip(s[1..]) else s
  }

  function RStrip(s: string): string {
    if s != "" && IsSpace(s[|s| - 1]) then RStrip(s[..|s| - 1]) else s
  }

  function TrimCr(s: string): string {
    if s != "" && s[|s| - 1] == '\r' then TrimCr(s[..|s| - 1]) else s
  }

  function JoinLines(lines: seq<string>): string {
    if lines == [] then ""
    else if |lines| == 1 then lines[0]
    else JoinLines(lines[..|lines| - 1]) + "\n" + lines[|lines| - 1]
  }

  /** The event in a payload, unless it is the end marker or no JSON object. */
  function Decode<E>(c: Codec<E>, payload: string): seq<E> {
    if RStrip(LStrip(payload)) == "[DONE]" then []
    else match c.loads(payload)
         case None => []
         case Some(e) => [e]
  }

  datatype Reader<E> = Reader(data: seq<string>, events: seq<E>)

  function ReadLine<E>(c: Codec<E>, r: Reader<E>, raw: string): Reader<E> {
    var line := TrimCr(raw);
    if line == "" then
      if r.data == [] then r else Reader([], r.events + Decode(c, JoinLines(r.data)))
    else if "data:" <= line then r.(data := r.data + [LStrip(line[5..])])
    else r
  }

  function ReadLines<E>(c: Codec<E>, r: Reader<E>, lines: seq<string>): Reader<E> {
    if lines == [] then r else ReadLine(c, ReadLines(c, r, lines[..|lines| - 1]), lines[|lines| - 1])
  }

  /** `iter_openai_sse_chunks`. */
  function ChunksOf<E>(c: Codec<E>, lines: seq<string>): seq<E> {
    var r := ReadLines(c, Reader([], []), lines);
    if r.data == [] then r.events else r.events + Decode(c, JoinLines(r.data))
  }

  method IterChunks<E>(c: Codec<E>, lines: seq<string>) returns (events: seq<E>)
    ensures events == ChunksOf(c, lines)
  {
    events := [];
    var dataLines: seq<string> := [];
    for i := 0 to |lines|
      invariant ReadLines(c, Reader([], []), lines[..i]) == Reader(dataLines, events)
    {
      assert lines[..i + 1][..i] == lines[..i];
      var line := TrimCr(lines[i]);
      if line == "" {
        if dataLines != [] {
          var payload := JoinLines(dataLines);
          dataLines := [];
          events := events + Decode(c, payload);
        }
      } else if "data:" <= line {
        dataLines := dataLines + [LStrip(line[5..])];
      }
    }
    assert lines[..|lines|] == lines;
    if dataLines != [] { events := events + Decode(c, JoinLines(dataLines)); }
  }

  // ---- The round trip -----------------------------------------------------------------------------------------

  predicate Unbroken(breaks: char -> bool, text: string) {
    forall k :: 0 <= k < |text| ==> !breaks(text[k])
  }

  /** Written as one line of JSON object text that is read back as the same event. */
  predicate Framable<E(==)>(c: Codec<E>, e: E) {
    && c.dumps(e) != "" && c.dumps(e)[0] == '{' && c.dumps(e)[|c.dumps(e)| - 1] == '}'
    && Unbroken(c.breaks, c.dumps(e)) && Unbroken(c.breaks, c.typeOf(e))
    && c.loads(c.dumps(e)) == Some(e)
  }

  /** Lines break at a newline, and at no character of the fixed parts of a frame. */
  predicate Sensible<E>(c: Codec<E>) {
    c.breaks('\n') && Unbroken(c.breaks, "event: ") && Unbroken(c.breaks, "data: ") && Unbroken(c.breaks, ": ping")
  }

  lemma {:induction false} FeedAppend(breaks: char -> bool, s: Lines, a: string, b: string)
    ensures Feed(breaks, s, a + b) == Feed(breaks, Feed(breaks, s, a), b)
  {
    if b == "" {
      assert a + b == a;
    } else {
      FeedAppend(breaks, s, a, b[..|b| - 1]);
      assert (a + b)[..|a + b| - 1] == a + b[..|b| - 1];
    }
  }

  lemma {:induction false} FeedUnbroken(breaks: char -> bool, s: Lines, text: string)
    requires Unbroken(breaks, text)
    ensures Feed(breaks, s, text) == s.(partial := s.partial + text)
  {
    if text == "" {
      assert s.partial + text == s.partial;
    } else {
      FeedUnbroken(breaks, s, text[..|text| - 1]);
      assert s.partial + text[..|text| - 1] + [text[|text| - 1]] == s.partial + text;
    }
  }

  /** A whole line at the start of a line. */
  lemma FeedLine(breaks: char -> bool, done: seq<string>, line: string)
    requires breaks('\n') && Unbroken(breaks, line)
    ensures Feed(breaks, Lines(done, ""), line + "\n") == Lines(done + [line], "")
  {
    FeedAppend(breaks, Lines(done, ""), line, "\n");
    FeedUnbroken(breaks, Lines(done, ""), line);
    assert "" + line == line;
    FeedBreak(breaks, Lines(done, line));
  }

  lemma FeedBreak(breaks: char -> bool, s: Lines)
    requires breaks('\n')
    ensures Feed(breaks, s, "\n") == Lines(s.done + [s.partial], "")
  {
    var text := "\n";
    assert text[..0] == "" && Feed(breaks, s, "") == s;
  }

  function FrameLines<E>(c: Codec<E>, e: E): seq<string> {
    ["event: " + c.typeOf(e), "data: " + c.dumps(e), ""]
  }

  lemma UnbrokenAppend(breaks: char -> bool, a: string, b: string)
    requires Unbroken(breaks, a) && Unbroken(breaks, b)
    ensures Unbroken(breaks, a + b)
  {
  }

  lemma FeedFrame<E>(c: Codec<E>, done: seq<string>, e: E)
    requires Sensible(c) && Framable(c, e)
    ensures Feed(c.breaks, Lines(done, ""), Frame(c, e)) == Lines(done + FrameLines(c, e), "")
  {
    var a, b := "event: " + c.typeOf(e), "data: " + c.dumps(e);
    UnbrokenAppend(c.breaks, "event: ", c.typeOf(e));
    UnbrokenAppend(c.breaks, "data: ", c.dumps(e));
    assert Frame(c, e) == (a + "\n") + (b + "\n") + "\n";
    FeedAppend(c.breaks, Lines(done, ""), (a + "\n") + (b + "\n"), "\n");
    FeedAppend(c.breaks, Lines(done, ""), a + "\n", b + "\n");
    FeedLine(c.breaks, done, a);
    FeedLine(c.breaks, done + [a], b);
    FeedBreak(c.breaks, Lines(done + [a] + [b], ""));
    assert done + [a] + [b] + [""] == done + FrameLines(c, e);
  }

  lemma FeedHeartbeat<E>(c: Codec<E>, done: seq<string>)
    requires Sensible(c)
    ensures Feed(c.breaks, Lines(done, ""), HEARTBEAT) == Lines(done + [": ping", ""], "")
  {
    assert HEARTBEAT == (": ping" + "\n") + "\n";
    FeedAppend(c.breaks, Lines(done, ""), ": ping" + "\n", "\n");
    FeedLine(c.breaks, done, ": ping");
    FeedBreak(c.breaks, Lines(done + [": ping"], ""));
    assert done + [": ping"] + [""] == done + [": ping", ""];
  }

  // ---- Reading frames and heartbeats ----------------------------------------------------------------------------

  lemma ReadLinesSnoc<E>(c: Codec<E>, r: Reader<E>, lines: seq<string>, line: string)
    ensures ReadLines(c, r, lines + [line]) == ReadLine(c, ReadLines(c, r, lines), line)
  {
    assert (lines + [line])[..|lines|] == lines;
  }

  lemma {:induction false} TrimCrKeepsPrefix(prefix: string, text: string)
    requires prefix != "" && prefix[|prefix| - 1] != '\r'
    ensures prefix <= TrimCr(prefix + text)
  {
    if text == "" {
      assert prefix + text == prefix;
    } else if text[|text| - 1] == '\r' {
      assert (prefix + text)[..|prefix + text| - 1] == prefix + text[..|text| - 1];
      TrimCrKeepsPrefix(prefix, text[..|text| - 1]);
    }
  }

  lemma ReadEventLine<E>(c: Codec<E>, r: Reader<E>, kind: string)
    ensures ReadLine(c, r, "event: " + kind) == r
  {
    TrimCrKeepsPrefix("event: ", kind);
    var line := TrimCr("event: " + kind);
    assert line[0] == "event: "[0] == 'e';
  }

  lemma ReadDataLine<E>(c: Codec<E>, r: Reader<E>, payload: string)
    requires payload != "" && payload[0] == '{' && payload[|payload| - 1] == '}'
    ensures ReadLine(c, r, "data: " + payload) == r.(data := r.data + [payload])
  {
    var line := "data: " + payload;
    assert line[|line| - 1] == '}' && TrimCr(line) == line;
    assert line[5..] == " " + payload;
    assert (" " + payload)[1..] == payload;
    assert LStrip(" " + payload) == LStrip(payload) == payload;
    assert line[..5] == "data:";
  }

  lemma DecodeObject<E>(c: Codec<E>, e: E)
    requires Framable(c, e)
    ensures Decode(c, c.dumps(e)) == [e]
  {
    var payload := c.dumps(e);
    assert LStrip(payload) == payload && RStrip(payload) == payload;
    assert payload[0] != "[DONE]"[0];
  }

  lemma ReadFrame<E>(c: Codec<E>, before: seq<string>, events: seq<E>, e: E)
    requires Framable(c, e) && ReadLines(c, Reader([], []), before) == Reader([], events)
    ensures ReadLines(c, Reader([], []), before + FrameLines(c, e)) == Reader([], events + [e])
  {
    var a, b := "event: " + c.typeOf(e), "data: " + c.dumps(e);
    ReadLinesSnoc(c, Reader([], []), before, a);
    ReadEventLine(c, Reader([], events), c.typeOf(e));
    ReadLinesSnoc(c, Reader([], []), before + [a], b);
    ReadDataLine(c, Reader([], events), c.dumps(e));
    ReadLinesSnoc(c, Reader([], []), before + [a] + [b], "");
    assert [] + [c.dumps(e)] == [c.dumps(e)] && JoinLines([c.dumps(e)]) == c.dumps(e);
    DecodeObject(c, e);
    assert before + [a] + [b] + [""] == before + FrameLines(c, e);
  }

  lemma ReadHeartbeat<E>(c: Codec<E>, before: seq<string>, events: seq<E>)
    requires ReadLines(c, Reader([], []), before) == Reader([], events)
    ensures ReadLines(c, Reader([], []), before + [": ping", ""]) == Reader([], events)
  {
    ReadLinesSnoc(c, Reader([], []), before, ": ping");
    ReadLinesSnoc(c, Reader([], []), before + [": ping"], "");
    assert ": ping"[0] == ':' && "data:"[0] == 'd';
    assert before + [": ping"] + [""] == before + [": ping", ""];
  }

  /** From the start of a line and with no data pending, what goes out is read as the events in it. */
  ghost predicate ReadsAs<E>(c: Codec<E>, text: string, events: seq<E>) {
    exists lines ::
      && Feed(c.breaks, Lines([], ""), text) == Lines(lines, "")
      && ReadLines(c, Reader([], []), lines) == Reader([], events)
  }

  lemma ReadsAsHeartbeat<E>(c: Codec<E>, text: string, events: seq<E>)
    requires Sensible(c) && ReadsAs(c, text, events)
    ensures ReadsAs(c, text + HEARTBEAT, events)
  {
    var lines :| Feed(c.breaks, Lines([], ""), text) == Lines(lines, "")
                 && ReadLines(c, Reader([], []), lines) == Reader([], events);
    FeedAppend(c.breaks, Lines([], ""), text, HEARTBEAT);
    FeedHeartbeat(c, lines);
    ReadHeartbeat(c, lines, events);
  }

  lemma {:induction false} JoinHead(head: string, parts: seq<string>)
    ensures Join([head] + parts) == head + Join(parts)
  {
    JoinAppend([head], parts);
    JoinSnoc([], head);
    assert [] + [head] == [head];
  }

  lemma BeatFirst(source: seq<string>, waits: seq<Wait>)
    requires waits != [] && waits[0].TimedOut?
    ensures Join(Beating(source, waits)) == HEARTBEAT + Join(Beating(source, waits[1..]))
  {
    JoinHead(HEARTBEAT, Beating(source, waits[1..]));
  }

  lemma ChunkFirst(source: seq<string>, waits: seq<Wait>)
    requires waits != [] && waits[0].Ready? && source != []
    ensures Join(Beating(source, waits)) == source[0] + Join(Beating(source[1..], waits[1..]))
  {
    JoinHead(source[0], Beating(source[1..], waits[1..]));
  }

  // ---- Frames that a break character cuts --------------------------------------------------------------------

  predicate IsData(line: string) {
    "data:" <= line
  }

  predicate QuietLines(lines: seq<string>) {
    forall k :: 0 <= k < |lines| ==> !IsData(lines[k])
  }

  /** No line of the text but the first starts as a data line. */
  predicate QuietStarts(breaks: char -> bool, text: string) {
    forall i :: 0 < i <= |text| && breaks(text[i - 1]) ==> !IsData(text[i..])
  }

  /** Written as JSON object text that is read back as the same event when it stays on one line. When a
      break character cuts it, what is before the cut is no JSON, and no later line looks like data. */
  predicate Writable<E(==)>(c: Codec<E>, e: E) {
    var text := c.dumps(e);
    && text != "" && text[0] == '{' && text[|text| - 1] == '}' && '\r' !in text
    && c.loads(text) == Some(e)
    && Unbroken(c.breaks, c.typeOf(e))
    && QuietStarts(c.breaks, text)
    && (forall k :: 0 <= k < |text| && c.breaks(text[k]) ==> c.loads(text[..k]).None?)
  }

  /** The last condition holds for every reader that accepts only JSON, JSON whitespace being escaped
      or left out where lines break. */
  lemma CutsRefused<E>(c: Codec<E>, e: E)
    requires forall t: string :: c.loads(t).Some? ==> Json.IsComplete(t)
    requires var text := c.dumps(e);
             && text != "" && text[0] == '{' && c.loads(text) == Some(e)
             && forall k :: 0 <= k < |text| && c.breaks(text[k]) ==> !Json.IsSpace(text[k])
    ensures var text := c.dumps(e); forall k :: 0 <= k < |text| && c.breaks(text[k]) ==> c.loads(text[..k]).None?
  {
    var text := c.dumps(e);
    forall k | 0 <= k < |text| && c.breaks(text[k]) ensures c.loads(text[..k]).None? {
      Json.CutObject(text, k);
    }
  }

  lemma SuffixSnoc(text: string, c: char, i: nat)
    requires i <= |text|
    ensures (text + [c])[i..] == text[i..] + [c]
  {
  }

  lemma FeedMore(breaks: char -> bool, done: seq<string>, text: string, c: char, lines: seq<string>, i: nat)
    requires i <= |text| && Feed(breaks, Lines(done, ""), text) == Lines(done + lines, text[i..])
    ensures Feed(breaks, Lines(done, ""), text + [c])
            == if breaks(c) then Lines(done + (lines + [text[i..]]), "") else Lines(done + lines, (text + [c])[i..])
  {
    FeedSnoc(breaks, Lines(done, ""), text, c);
    Regroup(done, lines, [text[i..]]);
    SuffixSnoc(text, c, i);
  }

  /** The lines of a quiet text, fed at the start of a line: `lines` are complete and `i` is where the
      one being read starts. */
  lemma {:induction false} FeedQuiet(breaks: char -> bool, done: seq<string>, text: string)
    returns (lines: seq<string>, i: nat)
    requires QuietStarts(breaks, text) && !IsData(text)
    ensures LineStart(breaks, text, i) && QuietLines(lines)
    ensures Feed(breaks, Lines(done, ""), text) == Lines(done + lines, text[i..])
  {
    if text == "" {
      lines, i := [], 0;
      assert done + lines == done;
    } else {
      var front, last := text[..|text| - 1], text[|text| - 1];
      assert text == front + [last];
      QuietPrefix(breaks, front, text);
      lines, i := FeedQuiet(breaks, done, front);
      FeedMore(breaks, done, front, last, lines, i);
      if breaks(last) { lines, i := lines + [front[i..]], |text|; }
    }
  }

  predicate LineStart(breaks: char -> bool, text: string, i: nat) {
    i <= |text| && (i == 0 || breaks(text[i - 1]))
  }

  lemma StartsSame(text: string, longer: string, i: nat)
    requires text <= longer && i <= |text| && IsData(text[i..])
    ensures IsData(longer[i..])
  {
    assert text[i..] == longer[i..|text|];
  }

  lemma QuietPrefix(breaks: char -> bool, text: string, longer: string)
    requires text <= longer && QuietStarts(breaks, longer) && !IsData(longer)
    ensures QuietStarts(breaks, text) && !IsData(text)
    ensures forall i: nat :: LineStart(breaks, text, i) ==> !IsData(text[i..])
  {
    assert longer[0..] == longer && text[0..] == text;
    assert LineStart(breaks, text, 0);
    forall i: nat | LineStart(breaks, text, i) ensures !IsData(text[i..]) {
      if IsData(text[i..]) { StartsSame(text, longer, i); }
    }
    forall i | 0 < i <= |text| && breaks(text[i - 1]) ensures !IsData(text[i..]) {
      assert LineStart(breaks, text, i);
    }
  }

  lemma QuietTail(breaks: char -> bool, text: string, k: nat)
    requires QuietStarts(breaks, text) && k < |text| && breaks(text[k])
    ensures QuietStarts(breaks, text[k + 1..]) && !IsData(text[k + 1..])
  {
    var rest := text[k + 1..];
    forall i | 0 < i <= |rest| && breaks(rest[i - 1]) ensures !IsData(rest[i..]) {
      assert rest[i..] == text[k + 1 + i..];
    }
  }

  function FirstBreak(breaks: char -> bool, text: string): (k: nat)
    requires !Unbroken(breaks, text)
    ensures k < |text| && breaks(text[k]) && Unbroken(breaks, text[..k])
  {
    if breaks(text[0]) then 0 else
      assert exists k :: 0 <= k < |text[1..]| && breaks(text[1..][k]) by {
        var k :| 0 <= k < |text| && breaks(text[k]);
        assert text[1..][k - 1] == text[k];
      }
      var k := 1 + FirstBreak(breaks, text[1..]);
      assert forall j :: 0 < j < k ==> text[j] == text[1..][..k - 1][j - 1];
      k
  }

  /** What follows the cut, to the end of the line: lines that are no data. */
  lemma FeedRest(breaks: char -> bool, done: seq<string>, text: string) returns (lines: seq<string>)
    requires breaks('\n') && QuietStarts(breaks, text) && !IsData(text)
    ensures QuietLines(lines) && Feed(breaks, Lines(done, ""), text + "\n") == Lines(done + lines, "")
  {
    var i;
    lines, i := FeedQuiet(breaks, done, text);
    QuietPrefix(breaks, text, text);
    FeedAppend(breaks, Lines(done, ""), text, "\n");
    FeedBreak(breaks, Lines(done + lines, text[i..]));
    Regroup(done, lines, [text[i..]]);
    lines := lines + [text[i..]];
  }

  /** A data line that is cut: its first part, and lines that are no data. */
  lemma FeedCut(breaks: char -> bool, done: seq<string>, prefix: string, text: string) returns (lines: seq<string>)
    requires breaks('\n') && Unbroken(breaks, prefix) && !Unbroken(breaks, text) && QuietStarts(breaks, text)
    ensures QuietLines(lines)
    ensures Feed(breaks, Lines(done, ""), prefix + text + "\n")
            == Lines(done + [prefix + text[..FirstBreak(breaks, text)]] + lines, "")
  {
    var k := FirstBreak(breaks, text);
    FeedToCut(breaks, done, prefix, text, k);
    QuietTail(breaks, text, k);
    lines := FeedRest(breaks, done + [prefix + text[..k]], text[k + 1..]);
    FeedAppend(breaks, Lines(done, ""), prefix + text[..k] + [text[k]], text[k + 1..] + "\n");
    CutText(prefix, text, k);
  }

  lemma CutText(prefix: string, text: string, k: nat)
    requires k < |text|
    ensures prefix + text + "\n" == (prefix + text[..k] + [text[k]]) + (text[k + 1..] + "\n")
  {
  }

  lemma FeedToCut(breaks: char -> bool, done: seq<string>, prefix: string, text: string, k: nat)
    requires k < |text| && breaks(text[k]) && Unbroken(breaks, text[..k]) && Unbroken(breaks, prefix)
    ensures Feed(breaks, Lines(done, ""), prefix + text[..k] + [text[k]]) == Lines(done + [prefix + text[..k]], "")
  {
    UnbrokenAppend(breaks, prefix, text[..k]);
    FeedUnbroken(breaks, Lines(done, ""), prefix + text[..k]);
    assert "" + (prefix + text[..k]) == prefix + text[..k];
    FeedSnoc(breaks, Lines(done, ""), prefix + text[..k], text[k]);
  }

  lemma FeedSnoc(breaks: char -> bool, s: Lines, text: string, c: char)
    ensures var before := Feed(breaks, s, text);
            Feed(breaks, s, text + [c])
            == if breaks(c) then Lines(before.done + [before.partial], "") else before.(partial := before.partial + [c])
  {
    assert (text + [c])[..|text|] == text;
  }

  lemma {:induction false} TrimCrPrefix(text: string)
    ensures TrimCr(text) <= text
  {
    if text == "" {
    } else {
      TrimCrPrefix(text[..|text| - 1]);
    }
  }

  /** After a first part that is no JSON, lines without data bring no event. */
  lemma {:induction false} ReadQuiet<E>(c: Codec<E>, first: string, events: seq<E>, lines: seq<string>)
    requires QuietLines(lines) && c.loads(first).None?
    ensures var r := ReadLines(c, Reader([first], events), lines);
            r.events == events && (r.data == [first] || r.data == [])
  {
    if lines == [] {
    } else {
      ReadQuiet(c, first, events, lines[..|lines| - 1]);
      TrimCrPrefix(lines[|lines| - 1]);
      assert events + [] == events && JoinLines([first]) == first;
    }
  }

  lemma {:induction false} ReadLinesAppend<E>(c: Codec<E>, r: Reader<E>, a: seq<string>, b: seq<string>)
    ensures ReadLines(c, r, a + b) == ReadLines(c, ReadLines(c, r, a), b)
  {
    if b == [] {
      assert a + b == a;
    } else {
      ReadLinesAppend(c, r, a, b[..|b| - 1]);
      assert (a + b)[..|a + b| - 1] == a + b[..|b| - 1];
    }
  }

  lemma ReadFirstPart<E>(c: Codec<E>, r: Reader<E>, first: string)
    requires (first == "" || first[0] == '{') && '\r' !in first
    ensures ReadLine(c, r, "data: " + first) == r.(data := r.data + [first])
  {
    var line := "data: " + first;
    if first != "" { assert line[|line| - 1] == first[|first| - 1]; }
    assert line[|line| - 1] != '\r';
    assert TrimCr(line) == line;
    assert line[5..] == " " + first;
    assert (" " + first)[1..] == first;
    assert LStrip(" " + first) == LStrip(first) == first;
    assert line[..5] == "data:";
  }

  /** The lines of a cut frame are read as nothing. */
  lemma ReadCut<E>(c: Codec<E>, before: seq<string>, events: seq<E>, kind: string, first: string, lines: seq<string>)
    requires ReadLines(c, Reader([], []), before) == Reader([], events)
    requires (first == "" || first[0] == '{') && '\r' !in first && c.loads(first).None? && QuietLines(lines)
    ensures ReadLines(c, Reader([], []), before + ["event: " + kind] + ["data: " + first] + lines + [""])
            == Reader([], events)
  {
    var a, b := "event: " + kind, "data: " + first;
    ReadLinesSnoc(c, Reader([], []), before, a);
    ReadEventLine(c, Reader([], events), kind);
    ReadLinesSnoc(c, Reader([], []), before + [a], b);
    ReadFirstPart(c, Reader([], events), first);
    assert [] + [first] == [first];
    ReadLinesAppend(c, Reader([], []), before + [a] + [b], lines);
    ReadQuiet(c, first, events, lines);
    ReadLinesSnoc(c, Reader([], []), before + [a] + [b] + lines, "");
    assert events + [] == events && JoinLines([first]) == first;
  }

  // ---- The whole stream -----------------------------------------------------------------------------------------

  /** What one frame is read as on its own. */
  function Alone<E>(c: Codec<E>, e: E): seq<E> {
    ReadLines(c, Reader([], []), Feed(c.breaks, Lines([], ""), Frame(c, e)).done).events
  }

  lemma {:induction false} FeedShift(breaks: char -> bool, done: seq<string>, text: string)
    ensures var s := Feed(breaks, Lines([], ""), text);
            Feed(breaks, Lines(done, ""), text) == Lines(done + s.done, s.partial)
  {
    if text == "" {
      assert done + [] == done;
    } else {
      FeedShift(breaks, done, text[..|text| - 1]);
      var s := Feed(breaks, Lines([], ""), text[..|text| - 1]);
      Regroup(done, s.done, [s.partial]);
    }
  }

  lemma ReadShifted<E>(c: Codec<E>, r: Reader<E>, before: seq<E>, line: string)
    ensures var after := ReadLine(c, r, line);
            ReadLine(c, Reader(r.data, before + r.events), line) == Reader(after.data, before + after.events)
  {
    Regroup(before, r.events, Decode(c, JoinLines(r.data)));
  }

  lemma {:induction false} ReadShift<E>(c: Codec<E>, before: seq<E>, lines: seq<string>)
    ensures var r := ReadLines(c, Reader([], []), lines);
            ReadLines(c, Reader([], before), lines) == Reader(r.data, before + r.events)
  {
    if lines == [] {
      assert before + [] == before;
    } else {
      ReadShift(c, before, lines[..|lines| - 1]);
      ReadShifted(c, ReadLines(c, Reader([], []), lines[..|lines| - 1]), before, lines[|lines| - 1]);
    }
  }

  /** A frame, whatever is in it, ends at the start of a line and with no data pending. */
  lemma FrameEndsClean<E>(c: Codec<E>, e: E)
    requires c.breaks('\n')
    ensures var s := Feed(c.breaks, Lines([], ""), Frame(c, e));
            s.partial == "" && ReadLines(c, Reader([], []), s.done) == Reader([], Alone(c, e))
  {
    var text := "event: " + c.typeOf(e) + "\ndata: " + c.dumps(e);
    var s := Feed(c.breaks, Lines([], ""), text);
    assert Frame(c, e) == text + "\n" + "\n";
    FeedAppend(c.breaks, Lines([], ""), text + "\n", "\n");
    FeedAppend(c.breaks, Lines([], ""), text, "\n");
    FeedBreak(c.breaks, s);
    FeedBreak(c.breaks, Lines(s.done + [s.partial], ""));
    ReadLinesSnoc(c, Reader([], []), s.done + [s.partial], "");
  }

  lemma ReadsAsFrame<E>(c: Codec<E>, text: string, events: seq<E>, e: E)
    requires c.breaks('\n') && ReadsAs(c, text, events)
    ensures ReadsAs(c, text + Frame(c, e), events + Alone(c, e))
  {
    var before :| Feed(c.breaks, Lines([], ""), text) == Lines(before, "")
                  && ReadLines(c, Reader([], []), before) == Reader([], events);
    var lines := Feed(c.breaks, Lines([], ""), Frame(c, e)).done;
    FeedAppend(c.breaks, Lines([], ""), text, Frame(c, e));
    FeedShift(c.breaks, before, Frame(c, e));
    FrameEndsClean(c, e);
    ReadLinesAppend(c, Reader([], []), before, lines);
    ReadShift(c, events, lines);
  }

  function Delivered<E>(events: seq<E>, waits: seq<Wait>): seq<E> {
    events[..Least(ReadyCount(waits), |events|)]
  }

  function EachAlone<E>(c: Codec<E>): E -> seq<E> {
    (e: E) => Alone(c, e)
  }

  /** What is read of the frames delivered, each on its own. */
  function Readable<E>(c: Codec<E>, events: seq<E>, waits: seq<Wait>): seq<E> {
    FlatMap(EachAlone(c), Delivered(events, waits))
  }

  lemma ReadableFirst<E>(c: Codec<E>, before: seq<E>, events: seq<E>, waits: seq<Wait>)
    requires waits != [] && waits[0].Ready? && events != []
    ensures before + Alone(c, events[0]) + Readable(c, events[1..], waits[1..]) == before + Readable(c, events, waits)
  {
    var n := Least(ReadyCount(waits[1..]), |events| - 1);
    assert events[..n + 1] == [events[0]] + events[1..][..n];
    FlatMapAppend(EachAlone(c), [events[0]], events[1..][..n]);
    FlatMapOne(EachAlone(c), events[0]);
    Regroup(before, Alone(c, events[0]), FlatMap(EachAlone(c), events[1..][..n]));
  }

  lemma FramesTail<E>(c: Codec<E>, events: seq<E>)
    requires events != []
    ensures Frames(c, events)[0] == Frame(c, events[0]) && Frames(c, events)[1..] == Frames(c, events[1..])
  {
  }

  lemma {:induction false} BeatingReads<E>(c: Codec<E>, text: string, before: seq<E>, events: seq<E>, waits: seq<Wait>)
    requires Sensible(c) && ReadsAs(c, text, before)
    ensures ReadsAs(c, text + Join(Beating(Frames(c, events), waits)), before + Readable(c, events, waits))
    decreases |waits|
  {
    if waits == [] || (waits[0].Ready? && events == []) {
      assert text + "" == text && before + [] == before;
      assert Join([]) == "" && Beating(Frames(c, events), waits) == [] && Delivered(events, waits) == [];
    } else if waits[0].TimedOut? {
      ReadsAsHeartbeat(c, text, before);
      BeatingReads(c, text + HEARTBEAT, before, events, waits[1..]);
      BeatFirst(Frames(c, events), waits);
      Regroup(text, HEARTBEAT, Join(Beating(Frames(c, events), waits[1..])));
    } else {
      ReadsAsFrame(c, text, before, events[0]);
      BeatingReads(c, text + Frame(c, events[0]), before + Alone(c, events[0]), events[1..], waits[1..]);
      FramesTail(c, events);
      ChunkFirst(Frames(c, events), waits);
      Regroup(text, Frame(c, events[0]), Join(Beating(Frames(c, events[1..]), waits[1..])));
      ReadableFirst(c, before, events, waits);
    }
  }

  /** Heartbeats are invisible and frames do not touch each other, whatever is in them and whatever the
      waits: parsing what went out gives what each frame delivered is read as on its own, in order. */
  lemma HeartbeatsAreInvisible<E>(c: Codec<E>, events: seq<E>, waits: seq<Wait>)
    requires Sensible(c)
    ensures ChunksOf(c, LinesOf(c.breaks, Join(Beating(Frames(c, events), waits)))) == Readable(c, events, waits)
  {
    assert ReadsAs(c, "", []) by {
      assert Feed(c.breaks, Lines([], ""), "") == Lines([], "");
      assert ReadLines(c, Reader([], []), []) == Reader([], []);
    }
    BeatingReads(c, "", [], events, waits);
    var text := Join(Beating(Frames(c, events), waits));
    assert "" + text == text;
    var kept := Readable(c, events, waits);
    assert [] + kept == kept;
    var lines :| Feed(c.breaks, Lines([], ""), text) == Lines(lines, "")
                 && ReadLines(c, Reader([], []), lines) == Reader([], kept);
  }

  // ---- What a frame is read as ---------------------------------------------------------------------------------

  lemma WholeFrameReads<E>(c: Codec<E>, e: E)
    requires Sensible(c) && Framable(c, e)
    ensures Alone(c, e) == [e]
  {
    FeedFrame(c, [], e);
    assert ReadLines(c, Reader([], []), []) == Reader([], []);
    ReadFrame(c, [], [], e);
    assert [] + FrameLines(c, e) == FrameLines(c, e) && [] + [e] == [e];
  }

  lemma CutFrameReads<E>(c: Codec<E>, e: E)
    requires Sensible(c) && Writable(c, e) && !Unbroken(c.breaks, c.dumps(e))
    ensures Alone(c, e) == []
  {
    var a, b := "event: " + c.typeOf(e), "data: " + c.dumps(e);
    var first := c.dumps(e)[..FirstBreak(c.breaks, c.dumps(e))];
    UnbrokenAppend(c.breaks, "event: ", c.typeOf(e));
    assert Frame(c, e) == (a + "\n") + (b + "\n") + "\n";
    FeedAppend(c.breaks, Lines([], ""), (a + "\n") + (b + "\n"), "\n");
    FeedAppend(c.breaks, Lines([], ""), a + "\n", b + "\n");
    FeedLine(c.breaks, [], a);
    var lines := FeedCut(c.breaks, [] + [a], "data: ", c.dumps(e));
    FeedBreak(c.breaks, Lines([] + [a] + ["data: " + first] + lines, ""));
    assert ReadLines(c, Reader([], []), []) == Reader([], []);
    ReadCut(c, [], [], c.typeOf(e), first, lines);
  }

  /** Written on one line. */
  function OnOneLine<E>(c: Codec<E>): E -> bool {
    (e: E) => Unbroken(c.breaks, c.dumps(e))
  }

  lemma {:induction false} ReadableAreOnOneLine<E>(c: Codec<E>, events: seq<E>)
    requires Sensible(c) && forall k :: 0 <= k < |events| ==> Writable(c, events[k])
    ensures FlatMap(EachAlone(c), events) == Filter(events, OnOneLine(c))
  {
    if events == [] {
    } else {
      var last := events[|events| - 1];
      ReadableAreOnOneLine(c, events[..|events| - 1]);
      if Unbroken(c.breaks, c.dumps(last)) { WholeFrameReads(c, last); } else { CutFrameReads(c, last); }
    }
  }

  /** The round trip holds exactly when every event delivered is written without a break character, and
      brings back all events when the consumer stayed. */
  lemma RoundTripIff<E>(c: Codec<E>, events: seq<E>, waits: seq<Wait>)
    requires Sensible(c) && forall k :: 0 <= k < |events| ==> Writable(c, events[k])
    ensures var back := ChunksOf(c, LinesOf(c.breaks, Join(Beating(Frames(c, events), waits))));
            var out := Delivered(events, waits);
            && back == Filter(out, OnOneLine(c))
            && (back == out <==> forall k :: 0 <= k < |out| ==> Unbroken(c.breaks, c.dumps(out[k])))
            && (ReadyCount(waits) >= |events| ==> out == events)
  {
    HeartbeatsAreInvisible(c, events, waits);
    ReadableAreOnOneLine(c, Delivered(events, waits));
    FilterAll(Delivered(events, waits), OnOneLine(c));
  }

  const WITH_SEPARATOR := "{\"t\":\"\U{2028}\"}"

  const SPLITTING := Codec((e: bool) => WITH_SEPARATOR, (e: bool) => "delta",
                           (t: string) => if t == WITH_SEPARATOR then Some(true) else None,
                           (x: char) => x == '\n' || x == '\U{2028}')

  lemma SplittingIsSensible()
    ensures Sensible(SPLITTING)
  {
  }

  lemma SeparatorCuts()
    ensures Writable(SPLITTING, true) && !OnOneLine(SPLITTING)(true)
  {
    assert WITH_SEPARATOR[6] == '\U{2028}';
    assert forall k :: 0 <= k < |WITH_SEPARATOR| && k != 6 ==> !SPLITTING.breaks(WITH_SEPARATOR[k]);
  }

  /** An event whose text holds a line separator, which the dump leaves as it is: it does not come back. */
  lemma SeparatorIsLost()
    ensures var c := SPLITTING;
            Writable(c, true) && ChunksOf(c, LinesOf(c.breaks, Join(Beating(Frames(c, [true]), [Ready])))) == []
  {
    SplittingIsSensible();
    SeparatorCuts();
    assert ReadyCount([Ready]) == 1 && Delivered([true], [Ready]) == [true];
    RoundTripIff(SPLITTING, [true], [Ready]);
    FilterOne(true, OnOneLine(SPLITTING));
  }
}

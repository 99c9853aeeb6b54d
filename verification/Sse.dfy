/** Reading a text in chunks when something cuts complete blocks off its front. */
module Framing {
  import opened Common

  /** Finds the first complete block of a text: the block, and the text after its separator. */
  type Splitter = string -> Option<(string, string)>

  ghost predicate Shrinks(next: Splitter) {
    forall t :: next(t).Some? ==> |next(t).value.1| < |t|
  }

  /** A block that is complete stays the first one, whatever text follows. */
  ghost predicate Stable(next: Splitter) {
    forall p, q :: StableAt(next, p, q)
  }

  ghost predicate StableAt(next: Splitter, p: string, q: string) {
    next(p).Some? ==> next(p + q) == Some((next(p).value.0, next(p).value.1 + q))
  }

  /** A block is complete as soon as its separator is. */
  ghost predicate Prompt(next: Splitter) {
    forall t :: next(t).Some? ==> exists head :: IsFirstBlock(next, t, head)
  }

  ghost predicate IsFirstBlock(next: Splitter, t: string, head: string)
    requires next(t).Some?
  {
    t == head + next(t).value.1 && next(head) == Some((next(t).value.0, ""))
  }

  /** The complete blocks of a text. */
  ghost function Blocks(next: Splitter, text: string): seq<string>
    requires Shrinks(next)
    decreases |text|
  {
    if next(text).None? then [] else [next(text).value.0] + Blocks(next, next(text).value.1)
  }

  /** What is left after the last separator. */
  ghost function Remainder(next: Splitter, text: string): string
    requires Shrinks(next)
    decreases |text|
  {
    if next(text).None? then text else Remainder(next, next(text).value.1)
  }

  /** The values of the blocks that have one. */
  function ParseAll<E>(parse: string -> Option<E>, blocks: seq<string>): seq<E> {
    if blocks == [] then []
    else
      var front := ParseAll(parse, blocks[..|blocks| - 1]);
      var event := parse(blocks[|blocks| - 1]);
      if event.None? then front else front + [event.value]
  }

  lemma {:induction false} ParseAllAppend<E>(parse: string -> Option<E>, blocks: seq<string>, block: string)
    ensures ParseAll(parse, blocks + [block])
         == if parse(block).None? then ParseAll(parse, blocks) else ParseAll(parse, blocks) + [parse(block).value]
  {
    assert (blocks + [block])[..|blocks|] == blocks;
  }

  lemma {:induction false} ParseAllConcat<E>(parse: string -> Option<E>, a: seq<string>, b: seq<string>)
    ensures ParseAll(parse, a + b) == ParseAll(parse, a) + ParseAll(parse, b)
  {
    if b == [] {
      assert a + b == a;
    } else {
      ParseAllConcat(parse, a, b[..|b| - 1]);
      assert a + b == (a + b[..|b| - 1]) + [b[|b| - 1]];
      ParseAllAppend(parse, a + b[..|b| - 1], b[|b| - 1]);
    }
  }

  /** Reading a text in two pieces: the second piece continues where the first one stopped. */
  lemma {:induction false} BlocksOfPieces(next: Splitter, p: string, q: string)
    requires Shrinks(next) && Stable(next)
    ensures Blocks(next, p + q) == Blocks(next, p) + Blocks(next, Remainder(next, p) + q)
    ensures Remainder(next, p + q) == Remainder(next, Remainder(next, p) + q)
    decreases |p|
  {
    if next(p).Some? {
      assert StableAt(next, p, q);
      BlocksOfPieces(next, next(p).value.1, q);
    }
  }

  function Concat(chunks: seq<string>): string {
    if chunks == [] then "" else Concat(chunks[..|chunks| - 1]) + chunks[|chunks| - 1]
  }

  /** The events of a text read at once. */
  ghost function Events<E>(next: Splitter, parse: string -> Option<E>, text: string): seq<E>
    requires Shrinks(next)
  {
    ParseAll(parse, Blocks(next, text))
  }

  lemma ConcatStep(chunks: seq<string>, n: nat)
    requires n < |chunks|
    ensures Concat(chunks[..n + 1]) == Concat(chunks[..n]) + chunks[n]
  {
    assert chunks[..n + 1][..n] == chunks[..n];
  }

  /** One more chunk. */
  lemma {:induction false} EventsOfPieces<E>(next: Splitter, parse: string -> Option<E>, text: string, chunk: string)
    requires Shrinks(next) && Stable(next)
    ensures Events(next, parse, text + chunk)
              == Events(next, parse, text) + Events(next, parse, Remainder(next, text) + chunk)
    ensures Remainder(next, text + chunk) == Remainder(next, Remainder(next, text) + chunk)
  {
    BlocksOfPieces(next, text, chunk);
    ParseAllConcat(parse, Blocks(next, text), Blocks(next, Remainder(next, text) + chunk));
  }

  /** The reader's events and buffer after some chunks, defined chunk by chunk. */
  ghost function StateByChunks<E>(next: Splitter, parse: string -> Option<E>, chunks: seq<string>): (seq<E>, string)
    requires Shrinks(next)
  {
    if chunks == [] then ([], "")
    else
      var (events, buffer) := StateByChunks(next, parse, chunks[..|chunks| - 1]);
      var text := buffer + chunks[|chunks| - 1];
      (events + Events(next, parse, text), Remainder(next, text))
  }

  lemma {:induction false} ByChunksIsAtOnce<E>(next: Splitter, parse: string -> Option<E>, chunks: seq<string>)
    requires Shrinks(next) && Stable(next) && next("").None?
    ensures StateByChunks(next, parse, chunks) == (Events(next, parse, Concat(chunks)), Remainder(next, Concat(chunks)))
  {
    if chunks != [] {
      ByChunksIsAtOnce(next, parse, chunks[..|chunks| - 1]);
      EventsOfPieces(next, parse, Concat(chunks[..|chunks| - 1]), chunks[|chunks| - 1]);
    }
  }

  lemma {:induction false} RemainderDiscarded(next: Splitter, text: string) returns (complete: string)
    requires Shrinks(next) && Stable(next) && Prompt(next) && next("").None?
    ensures text == complete + Remainder(next, text)
    ensures Blocks(next, complete) == Blocks(next, text) && Remainder(next, complete) == ""
    ensures next(Remainder(next, text)).None?
    decreases |text|
  {
    if next(text).None? {
      complete := "";
    } else {
      var rest := next(text).value.1;
      var tail := RemainderDiscarded(next, rest);
      var head :| IsFirstBlock(next, text, head);
      assert StableAt(next, head, tail);
      complete := head + tail;
      FirstBlockThenRest(next, text, head, tail);
    }
  }

  lemma {:induction false} FirstBlockThenRest(next: Splitter, text: string, head: string, tail: string)
    requires Shrinks(next) && next(text).Some? && IsFirstBlock(next, text, head) && StableAt(next, head, tail)
    requires var rest := next(text).value.1;
             rest == tail + Remainder(next, rest) && Blocks(next, tail) == Blocks(next, rest)
               && Remainder(next, tail) == ""
    ensures text == head + tail + Remainder(next, text)
    ensures Blocks(next, head + tail) == Blocks(next, text) && Remainder(next, head + tail) == ""
  {
    var rest := next(text).value.1;
    assert "" + tail == tail;
    assert next(head + tail) == Some((next(text).value.0, tail));
    assert head + (tail + Remainder(next, rest)) == head + tail + Remainder(next, rest);
  }
}

/** The chunked event-stream reader of scripts/_sse.ts. */
module Sse {
  import opened Common
  import opened Framing
  import opened JsText

  datatype Event = Event(id: Option<string>, event: string, data: string)

  // ---------- Separators ----------

  /** Length of the match of `\r?\n` at `i`, zero when there is none. */
  function LineBreakAt(s: string, i: nat): nat {
    if i < |s| && s[i] == '\n' then 1
    else if i + 1 < |s| && s[i] == '\r' && s[i + 1] == '\n' then 2
    else 0
  }

  /** Length of the match of `\r?\n\r?\n` at `i`, zero when there is none. */
  function SeparatorAt(s: string, i: nat): nat {
    var a := LineBreakAt(s, i);
    var b := LineBreakAt(s, i + a);
    if a > 0 && b > 0 then a + b else 0
  }

  /** The leftmost match at or after `from`. */
  function Search(s: string, from: nat): (r: Option<nat>)
    requires from <= |s|
    ensures r.None? ==> forall i :: from <= i <= |s| ==> SeparatorAt(s, i) == 0
    ensures r.Some? ==> from <= r.value < |s| && SeparatorAt(s, r.value) > 0 && r.value + SeparatorAt(s, r.value) <= |s|
    ensures r.Some? ==> forall i :: from <= i < r.value ==> SeparatorAt(s, i) == 0
    decreases |s| - from
  {
    if SeparatorAt(s, from) > 0 then Some(from)
    else if from == |s| then None
    else Search(s, from + 1)
  }

  /** Two line breaks, each with or without a carriage return. */
  predicate IsSeparator(separator: string) {
    separator == "\n\n" || separator == "\n\r\n" || separator == "\r\n\n" || separator == "\r\n\r\n"
  }

  /** The `n` characters at `i` are a separator exactly when the match there has that length. */
  lemma SeparatorIsText(s: string, i: nat, n: nat)
    requires i + n <= |s|
    ensures IsSeparator(s[i..i + n]) <==> n > 0 && SeparatorAt(s, i) == n
  {
    var t := s[i..i + n];
    assert forall k :: 0 <= k < n ==> t[k] == s[i + k];
    if SeparatorAt(s, i) == n && n > 0 {
      var a := LineBreakAt(s, i);
      assert t == s[i..i + a] + s[i + a..i + n];
    }
  }

  // ---------- One block ----------

  function SplitLines(s: string): (lines: seq<string>)
    ensures |lines| >= 1
  {
    if s == "" then [""]
    else if s[0] == '\n' then [""] + SplitLines(s[1..])
    else if s[0] == '\r' && |s| > 1 && s[1] == '\n' then [""] + SplitLines(s[2..])
    else
      var rest := SplitLines(s[1..]);
      [[s[0]] + rest[0]] + rest[1..]
  }

  function TrimmedLines(lines: seq<string>): seq<string> {
    if lines == [] then []
    else
      var n := |lines| - 1;
      var line := TrimEnd(lines[n]);
      if line == "" then TrimmedLines(lines[..n]) else TrimmedLines(lines[..n]) + [line]
  }

  predicate IsIdLine(line: string) { "id:" <= line }

  predicate IsEventLine(line: string) { "event:" <= line }

  predicate IsDataLine(line: string) { "data:" <= line }

  function JoinLines(parts: seq<string>): string {
    if parts == [] then "" else if |parts| == 1 then parts[0]
    else JoinLines(parts[..|parts| - 1]) + "\n" + parts[|parts| - 1]
  }

  function Last<T>(s: seq<T>): Option<T> { if s == [] then None else Some(s[|s| - 1]) }

  function DataOf(lines: seq<string>): seq<string> {
    if lines == [] then []
    else
      var n := |lines| - 1;
      if IsDataLine(lines[n]) then DataOf(lines[..n]) + [TrimStart(lines[n][5..])] else DataOf(lines[..n])
  }

  function IdOf(lines: seq<string>): Option<string> {
    match Last(Filter(lines, IsIdLine))
    case None => None
    case Some(line) => if |line| >= 3 then Some(Trim(line[3..])) else None
  }

  function EventOf(lines: seq<string>): string {
    match Last(Filter(lines, IsEventLine))
    case None => "message"
    case Some(line) => if |line| >= 6 && Trim(line[6..]) != "" then Trim(line[6..]) else "message"
  }

  /** A block without a non-blank line is nothing; otherwise the last id, the last event name, and all data lines. */
  function ParseBlock(block: string): Option<Event> {
    var lines := TrimmedLines(SplitLines(block));
    if lines == [] then None else Some(Event(IdOf(lines), EventOf(lines), JoinLines(DataOf(lines))))
  }

  /** One line of the block. */
  method TakeLine(line: string, id: Option<string>, event: string, dataLines: seq<string>, ghost lines: seq<string>)
    returns (id': Option<string>, event': string, dataLines': seq<string>)
    requires id == IdOf(lines) && event == EventOf(lines) && dataLines == DataOf(lines)
    ensures id' == IdOf(lines + [line]) && event' == EventOf(lines + [line]) && dataLines' == DataOf(lines + [line])
  {
    id', event', dataLines' := id, event, dataLines;
    LineStep(lines, line);
    if ":" <= line {
    } else if "id:" <= line {
      id' := Some(Trim(line[3..]));
    } else if "event:" <= line {
      event' := if Trim(line[6..]) == "" then "message" else Trim(line[6..]);
    } else if "data:" <= line {
      dataLines' := dataLines + [TrimStart(line[5..])];
    }
  }

  method ParseSseBlock(block: string) returns (r: Option<Event>)
    ensures r == ParseBlock(block)
  {
    var lines := TrimmedLines(SplitLines(block));
    if |lines| == 0 {
      return None;
    }
    var id: Option<string>, event, dataLines := None, "message", [];
    for i := 0 to |lines|
      invariant id == IdOf(lines[..i]) && event == EventOf(lines[..i]) && dataLines == DataOf(lines[..i])
    {
      assert lines[..i + 1] == lines[..i] + [lines[i]];
      id, event, dataLines := TakeLine(lines[i], id, event, dataLines, lines[..i]);
    }
    assert lines[..|lines|] == lines;
    return Some(Event(id, event, JoinLines(dataLines)));
  }

  /** A line is of at most one kind, and adds only to its own. */
  lemma LineStep(lines: seq<string>, line: string)
    ensures IdOf(lines + [line]) == if IsIdLine(line) then Some(Trim(line[3..])) else IdOf(lines)
    ensures EventOf(lines + [line]) == if IsEventLine(line)
              then (if Trim(line[6..]) == "" then "message" else Trim(line[6..])) else EventOf(lines)
    ensures DataOf(lines + [line]) == if IsDataLine(line) then DataOf(lines) + [TrimStart(line[5..])] else DataOf(lines)
    ensures ":" <= line ==> !IsIdLine(line) && !IsEventLine(line) && !IsDataLine(line)
    ensures !(IsIdLine(line) && IsEventLine(line)) && !(IsIdLine(line) && IsDataLine(line))
    ensures !(IsEventLine(line) && IsDataLine(line))
  {
    FilterAppend(lines, line, IsIdLine);
    FilterAppend(lines, line, IsEventLine);
    assert (lines + [line])[..|lines|] == lines;
    KindsApart(line);
  }

  lemma KindsApart(line: string)
    ensures ":" <= line ==> !IsIdLine(line) && !IsEventLine(line) && !IsDataLine(line)
    ensures !(IsIdLine(line) && IsEventLine(line)) && !(IsIdLine(line) && IsDataLine(line))
    ensures !(IsEventLine(line) && IsDataLine(line))
  {
    if line != "" {
      assert ":" <= line ==> line[0] == ':';
      assert IsIdLine(line) ==> line[0] == 'i';
      assert IsEventLine(line) ==> line[0] == 'e';
      assert IsDataLine(line) ==> line[0] == 'd';
    }
  }

  // ---------- Blocks back from their lines ----------

  predicate IsLine(line: string) {
    '\n' !in line && (line != "" ==> line[|line| - 1] != '\r')
  }

  function LineBreak(crlf: bool): string { if crlf then "\r\n" else "\n" }

  lemma {:induction false} FirstLine(line: string, crlf: bool, rest: string)
    requires IsLine(line)
    ensures SplitLines(line + LineBreak(crlf) + rest) == [line] + SplitLines(rest)
  {
    var s := line + LineBreak(crlf) + rest;
    if line == "" {
      assert s[|LineBreak(crlf)|..] == rest;
    } else {
      assert line[1..] == "" || line[1..][|line| - 2] == line[|line| - 1];
      FirstLine(line[1..], crlf, rest);
      assert s[1..] == line[1..] + LineBreak(crlf) + rest;
      assert s[1] == if |line| == 1 then LineBreak(crlf)[0] else line[1];
      assert line == [line[0]] + line[1..];
    }
  }

  lemma {:induction false} OnlyLine(line: string)
    requires IsLine(line)
    ensures SplitLines(line) == [line]
  {
    if line != "" {
      assert line[1..] == "" || line[1..][|line| - 2] == line[|line| - 1];
      OnlyLine(line[1..]);
      assert line == [line[0]] + line[1..];
    }
  }

  lemma {:induction false} JoinFromFront(line: string, lines: seq<string>)
    requires lines != []
    ensures JoinLines([line] + lines) == line + "\n" + JoinLines(lines)
  {
    var n := |lines| - 1;
    assert ([line] + lines)[..n + 1] == [line] + lines[..n];
    if n > 0 {
      JoinFromFront(line, lines[..n]);
    }
  }

  /** Splitting undoes joining: the lines of a block are the lines it was made of. */
  lemma {:induction false} SplitUndoesJoin(lines: seq<string>)
    requires lines != [] && forall i :: 0 <= i < |lines| ==> IsLine(lines[i])
    ensures SplitLines(JoinLines(lines)) == lines
  {
    if |lines| == 1 {
      OnlyLine(lines[0]);
    } else {
      JoinFromFront(lines[0], lines[1..]);
      assert lines == [lines[0]] + lines[1..];
      FirstLine(lines[0], false, JoinLines(lines[1..]));
      SplitUndoesJoin(lines[1..]);
    }
  }

  /** Lines with a break of either kind after each but the last. */
  function Broken(lines: seq<string>, crlf: seq<bool>): string
    requires |lines| == |crlf| + 1
  {
    if |lines| == 1 then lines[0] else lines[0] + LineBreak(crlf[0]) + Broken(lines[1..], crlf[1..])
  }

  /** Whatever breaks stand between the lines of a block, splitting it gives the lines back. */
  lemma {:induction false} SplitUndoesBreaks(lines: seq<string>, crlf: seq<bool>)
    requires |lines| == |crlf| + 1 && forall i :: 0 <= i < |lines| ==> IsLine(lines[i])
    ensures SplitLines(Broken(lines, crlf)) == lines
  {
    if |lines| == 1 {
      OnlyLine(lines[0]);
    } else {
      assert lines == [lines[0]] + lines[1..];
      FirstLine(lines[0], crlf[0], Broken(lines[1..], crlf[1..]));
      SplitUndoesBreaks(lines[1..], crlf[1..]);
    }
  }

  ghost function WithoutEnds(lines: seq<string>): seq<string> {
    seq(|lines|, i requires 0 <= i < |lines| => TrimEnd(lines[i]))
  }

  /** The lines that count: trimmed at the end, and not blank. */
  lemma {:induction false} TrimmedLinesAre(lines: seq<string>)
    ensures TrimmedLines(lines) == Filter(WithoutEnds(lines), (line: string) => |line| > 0)
  {
    if lines != [] {
      var n := |lines| - 1;
      TrimmedLinesAre(lines[..n]);
      assert WithoutEnds(lines) == WithoutEnds(lines[..n]) + [TrimEnd(lines[n])];
    }
  }

  /** A field value without line breaks or outer white space. */
  predicate IsClean(x: string) {
    x != "" && !IsSpace(x[0]) && !IsSpace(x[|x| - 1]) && '\n' !in x
  }

  ghost predicate AreLines(lines: seq<string>) { forall i :: 0 <= i < |lines| ==> IsLine(lines[i]) }

  lemma OneMoreLine(lines: seq<string>, line: string)
    requires AreLines(lines) && IsLine(line)
    ensures AreLines(lines + [line])
  {
  }

  /** Lines that survive trimming and carry this id, event name and data. */
  ghost predicate Carries(lines: seq<string>, id: Option<string>, event: string, data: seq<string>) {
    && TrimmedLines(lines) == lines && AreLines(lines)
    && IdOf(lines) == id && EventOf(lines) == event && DataOf(lines) == data
  }

  /** A field with its value, written with a space after the colon. */
  function Field(field: string, x: string): string { field + " " + x }

  lemma FieldLine(lines: seq<string>, field: string, x: string)
    requires IsClean(x) && '\n' !in field && TrimmedLines(lines) == lines
    ensures var line := Field(field, x);
            && IsLine(line) && TrimmedLines(lines + [line]) == lines + [line]
            && field <= line && Trim(line[|field|..]) == x && TrimStart(line[|field|..]) == x
  {
    var line := Field(field, x);
    assert line[|line| - 1] == x[|x| - 1];
    assert TrimEnd(line) == line;
    assert (lines + [line])[..|lines|] == lines;
    assert line[|field|..] == [' '] + x;
    CleanValue(x);
  }

  lemma CleanValue(x: string)
    requires IsClean(x)
    ensures TrimStart([' '] + x) == x && Trim([' '] + x) == x
  {
    assert ([' '] + x)[1..] == x;
  }

  datatype FieldKind = IdField | EventField | DataField

  function FieldName(kind: FieldKind): string {
    match kind
    case IdField => "id:"
    case EventField => "event:"
    case DataField => "data:"
  }

  lemma FieldRead(lines: seq<string>, line: string, kind: FieldKind, x: string)
    requires FieldName(kind) <= line && x != ""
    requires Trim(line[|FieldName(kind)|..]) == x && TrimStart(line[|FieldName(kind)|..]) == x
    ensures IdOf(lines + [line]) == if kind.IdField? then Some(x) else IdOf(lines)
    ensures EventOf(lines + [line]) == if kind.EventField? then x else EventOf(lines)
    ensures DataOf(lines + [line]) == if kind.DataField? then DataOf(lines) + [x] else DataOf(lines)
  {
    LineStep(lines, line);
    KindOfField(line, kind);
    match kind
    case IdField => assert Trim(line[3..]) == x;
    case EventField => assert Trim(line[6..]) == x;
    case DataField => assert TrimStart(line[5..]) == x;
  }

  lemma KindOfField(line: string, kind: FieldKind)
    requires FieldName(kind) <= line
    ensures (IsIdLine(line) <==> kind.IdField?) && (IsEventLine(line) <==> kind.EventField?)
    ensures IsDataLine(line) <==> kind.DataField?
  {
    assert line[0] == FieldName(kind)[0];
    KindsApart(line);
  }

  /** One more field changes what the lines carry of its own kind alone. */
  lemma AddField(lines: seq<string>, id: Option<string>, event: string, data: seq<string>, kind: FieldKind, x: string)
    requires Carries(lines, id, event, data) && IsClean(x)
    ensures Carries(lines + [Field(FieldName(kind), x)], if kind.IdField? then Some(x) else id,
                    if kind.EventField? then x else event, if kind.DataField? then data + [x] else data)
  {
    FieldLine(lines, FieldName(kind), x);
    FieldRead(lines, Field(FieldName(kind), x), kind, x);
    OneMoreLine(lines, Field(FieldName(kind), x));
  }

  /** The lines of an event in the field format of the WHATWG HTML Standard, section 9.2.6. */
  function EventLines(id: string, event: string, parts: seq<string>): (lines: seq<string>)
    ensures lines != []
  {
    if parts == [] then [] + [Field("id:", id)] + [Field("event:", event)]
    else EventLines(id, event, parts[..|parts| - 1]) + [Field("data:", parts[|parts| - 1])]
  }

  lemma {:induction false} EventLinesCarry(id: string, event: string, parts: seq<string>)
    requires IsClean(id) && IsClean(event) && forall i :: 0 <= i < |parts| ==> IsClean(parts[i])
    ensures Carries(EventLines(id, event, parts), Some(id), event, parts)
  {
    if parts == [] {
      AddField([], None, "message", [], IdField, id);
      AddField([] + [Field("id:", id)], Some(id), "message", [], EventField, event);
    } else {
      var (front, last) := (parts[..|parts| - 1], parts[|parts| - 1]);
      assert parts == front + [last];
      EventLinesCarry(id, event, front);
      AddField(EventLines(id, event, front), Some(id), event, front, DataField, last);
      assert (front + [last])[..|front|] == front;
    }
  }

  /** An event written field by field is read back as it was. */
  lemma EventRoundTrip(id: string, event: string, parts: seq<string>)
    requires IsClean(id) && IsClean(event) && forall i :: 0 <= i < |parts| ==> IsClean(parts[i])
    ensures ParseBlock(JoinLines(EventLines(id, event, parts))) == Some(Event(Some(id), event, JoinLines(parts)))
    ensures parts == [] ==> JoinLines(parts) == ""
  {
    EventLinesCarry(id, event, parts);
    SplitUndoesJoin(EventLines(id, event, parts));
  }

  // ---------- The whole text ----------

  /** The text before the first separator and the text after it. */
  function NextBlock(text: string): (r: Option<(string, string)>)
    ensures r.Some? ==> |r.value.1| < |text|
  {
    match Search(text, 0)
    case None => None
    case Some(i) => Some((text[..i], text[i + SeparatorAt(text, i)..]))
  }

  /** A separator in a prefix stays the first one, with the same length, whatever text follows. */
  lemma NextBlockStays(p: string, q: string)
    requires NextBlock(p).Some?
    ensures NextBlock(p + q) == Some((NextBlock(p).value.0, NextBlock(p).value.1 + q))
  {
    var (s, i) := (p + q, Search(p, 0).value);
    forall j | 0 <= j <= i ensures SeparatorAt(s, j) == SeparatorAt(p, j) {
    }
    assert Search(s, 0) == Some(i);
    var n := i + SeparatorAt(p, i);
    assert s[..i] == p[..i] && s[n..] == p[n..] + q;
  }

  /** The first block is found as soon as the last character of its separator is there. */
  lemma CompletedBlock(text: string) returns (head: string)
    requires NextBlock(text).Some?
    ensures text == head + NextBlock(text).value.1
    ensures NextBlock(head) == Some((NextBlock(text).value.0, ""))
  {
    var i := Search(text, 0).value;
    var n := i + SeparatorAt(text, i);
    head := text[..n];
    assert forall k :: 0 <= k < n ==> head[k] == text[k];
    forall j | 0 <= j <= i ensures SeparatorAt(head, j) == SeparatorAt(text, j) {
    }
    assert Search(head, 0) == Some(i);
    assert head[..i] == text[..i];
  }

  /** The separator search is a well-behaved splitter. */
  lemma SearchIsSplitter()
    ensures Shrinks(NextBlock) && Stable(NextBlock) && Prompt(NextBlock) && NextBlock("").None?
  {
    forall p, q ensures StableAt(NextBlock, p, q) {
      if NextBlock(p).Some? {
        NextBlockStays(p, q);
      }
    }
    forall t | NextBlock(t).Some? ensures exists head :: IsFirstBlock(NextBlock, t, head) {
      var head := CompletedBlock(t);
      assert IsFirstBlock(NextBlock, t, head);
    }
  }

  /** What the reader emits and keeps for a text read at once. */
  ghost predicate ReadsAs(text: string, events: seq<Event>, buffer: string) {
    Shrinks(NextBlock) && events == Events(NextBlock, ParseBlock, text) && buffer == Remainder(NextBlock, text)
  }

  /** The events of a text read at once. */
  ghost function EventsAtOnce(text: string): seq<Event> {
    SearchIsSplitter();
    Events(NextBlock, ParseBlock, text)
  }

  /** The caller's signal is seen as aborted before read number `abortBefore`, if that is reached. */
  method ConsumeSse(chunks: seq<string>, abortBefore: nat) returns (events: seq<Event>)
    ensures events == EventsAtOnce(Concat(chunks[..Min(|chunks|, abortBefore)]))
  {
    events := [];
    var buffer, read := "", 0;
    ghost var text := "";
    while read != abortBefore && read < |chunks|
      invariant read <= |chunks| && read <= abortBefore
      invariant text == Concat(chunks[..read])
      invariant ReadsAs(text, events, buffer)
    {
      var emitted, left := DrainBuffer(buffer + chunks[read]);
      SearchIsSplitter();
      EventsOfPieces(NextBlock, ParseBlock, text, chunks[read]);
      ConcatStep(chunks, read);
      text := text + chunks[read];
      events, buffer := events + emitted, left;
      read := read + 1;
    }
  }

  /** Blocks `done` have been cut off `start`, and `buffer` is what remains. */
  ghost predicate Drained(start: string, done: seq<string>, buffer: string) {
    && Shrinks(NextBlock)
    && done + Blocks(NextBlock, buffer) == Blocks(NextBlock, start)
    && Remainder(NextBlock, buffer) == Remainder(NextBlock, start)
  }

  lemma DrainStep(start: string, done: seq<string>, buffer: string, block: string, rest: string)
    requires Drained(start, done, buffer) && NextBlock(buffer) == Some((block, rest))
    ensures Drained(start, done + [block], rest)
  {
    assert Blocks(NextBlock, buffer) == [block] + Blocks(NextBlock, rest);
    assert done + [block] + Blocks(NextBlock, rest) == done + ([block] + Blocks(NextBlock, rest));
  }

  /** The inner loop: cuts complete blocks off the front of the buffer. */
  method DrainBuffer(start: string) returns (events: seq<Event>, buffer: string)
    ensures ReadsAs(start, events, buffer)
  {
    events, buffer := [], start;
    ghost var done: seq<string> := [];
    var separatorIndex := Search(buffer, 0);
    while separatorIndex.Some?
      invariant separatorIndex == Search(buffer, 0)
      invariant Drained(start, done, buffer) && events == ParseAll(ParseBlock, done)
      decreases |buffer|
    {
      var block, rest := CutBlock(buffer, separatorIndex.value);
      DrainStep(start, done, buffer, block, rest);
      ParseAllAppend(ParseBlock, done, block);
      buffer, done := rest, done + [block];
      var event := ParseSseBlock(block);
      if event.Some? {
        events := events + [event.value];
      }
      separatorIndex := Search(buffer, 0);
    }
    assert done + [] == done;
  }

  /** `slice` at the separator, then `replace` of the match anchored at the front. */
  method CutBlock(buffer: string, separatorIndex: nat) returns (block: string, rest: string)
    requires Search(buffer, 0) == Some(separatorIndex)
    ensures NextBlock(buffer) == Some((block, rest)) && |rest| < |buffer|
  {
    block := buffer[..separatorIndex];
    rest := buffer[separatorIndex..];
    rest := rest[SeparatorAt(rest, 0)..];
  }

  // ---------- Independence of the chunks ----------

  /** However a text is cut into chunks, even inside a separator, the same events come out and the same text waits. */
  lemma ChunkIndependence(a: seq<string>, b: seq<string>)
    requires Concat(a) == Concat(b)
    ensures Shrinks(NextBlock) && StateByChunks(NextBlock, ParseBlock, a) == StateByChunks(NextBlock, ParseBlock, b)
    ensures ReadsAs(Concat(a), StateByChunks(NextBlock, ParseBlock, a).0, StateByChunks(NextBlock, ParseBlock, a).1)
  {
    SearchIsSplitter();
    ByChunksIsAtOnce(NextBlock, ParseBlock, a);
    ByChunksIsAtOnce(NextBlock, ParseBlock, b);
  }

  /** An unterminated last block is discarded: the text before it yields the same events, and it holds no separator. */
  lemma UnterminatedBlockDiscarded(text: string, events: seq<Event>, buffer: string) returns (complete: string)
    requires ReadsAs(text, events, buffer)
    ensures text == complete + buffer && ReadsAs(complete, events, "")
    ensures forall i :: 0 <= i <= |buffer| ==> SeparatorAt(buffer, i) == 0
  {
    SearchIsSplitter();
    complete := RemainderDiscarded(NextBlock, text);
    assert Search(buffer, 0).None?;
  }
}

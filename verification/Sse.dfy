/**
  Server-sent events (sections 9.2.5 and 9.2.6 of the WHATWG HTML Living Standard, as far
  as the writer goes): the writer that frames events onto a stream, the reader, and the
  round trip between them.
 */
module Sse {
  import opened Lines

  const DONE := "done"
  const ERROR := "error"

  datatype Event = Event(name: string, data: string)

  /** How a stream ended. */
  datatype Verdict = Success | Failure(text: string) | NoVerdict

  // ------------------------------------------------------------------ the writer

  function NamePieces(name: string): seq<string> { if name == "" then [] else ["event: " + name + "\n"] }

  function DataPieces(parts: seq<string>): seq<string> {
    seq(|parts|, i requires 0 <= i < |parts| => "data: " + parts[i] + "\n")
  }

  /** A frame without its blank line, as raw lines. */
  ghost function Body(e: Event): seq<string> { NamePieces(e.name) + DataPieces(Split(e.data)) }

  ghost function Frame(e: Event): string { Concat(Body(e)) + "\n" }

  /** A frame byte for byte, its data by lines. */
  function InBytes(name: string, parts: seq<string>): string {
    (if name == "" then "" else "event: " + name + "\n")
    + Concat(seq(|parts|, i requires 0 <= i < |parts| => "data: " + parts[i] + "\n")) + "\n"
  }

  lemma FrameInBytes(name: string, data: string)
    ensures Frame(Event(name, data)) == InBytes(name, Split(data))
  {
    var parts := Split(data);
    assert DataPieces(parts) == seq(|parts|, i requires 0 <= i < |parts| => "data: " + parts[i] + "\n");
    ConcatTwo(NamePieces(name), DataPieces(parts));
    assert Concat(NamePieces(name)) == if name == "" then "" else "event: " + name + "\n";
  }

  lemma DoneInBytes()
    ensures InBytes("done", Split("")) == "event: done\ndata: \n\n"
  {
    assert Split("") == [""];
    var pieces := ["data: " + "" + "\n"];
    assert seq(1, i requires 0 <= i < 1 => "data: " + [""][i] + "\n") == pieces;
    assert Concat(pieces) == "data: \n";
    assert ("event: " + "done") + "\n" == "event: done\n";
  }

  function Remark(text: string): string { ": " + text + "\n\n" }

  ghost function Frames(lines: seq<string>): string {
    if lines == [] then "" else Frames(lines[..|lines| - 1]) + Frame(Event("", lines[|lines| - 1]))
  }

  lemma OneMoreData(name: string, parts: seq<string>, i: nat)
    requires i < |parts|
    ensures var (pieces, piece) := (NamePieces(name) + DataPieces(parts[..i]), "data: " + parts[i] + "\n");
      pieces + [piece] == NamePieces(name) + DataPieces(parts[..i + 1])
          && Concat(pieces + [piece]) == Concat(pieces) + piece
  {
    var (pieces, piece) := (NamePieces(name) + DataPieces(parts[..i]), "data: " + parts[i] + "\n");
    ConcatTwo(pieces, [piece]);
    assert Concat([piece]) == piece;
    assert DataPieces(parts[..i + 1]) == DataPieces(parts[..i]) + [piece];
  }

  lemma OneMoreFrame(out: string, sent: seq<string>, line: string)
    ensures (out + Frames(sent)) + Frame(Event("", line)) == out + Frames(sent + [line])
  {
    assert (sent + [line])[..|sent|] == sent;
    Reassociate(out, Frames(sent), Frame(Event("", line)));
  }

  class Writer {
    var out: string
    const lines: Lines.Writer

    constructor ()
      ensures out == "" && lines.buf == "" && lines.max == 0 && lines.reliable && fresh(lines)
    {
      out := "";
      lines := new Lines.Writer(0, true);
    }

    ghost predicate Valid() { lines.max == 0 && lines.reliable }

    /** One frame: the name if there is one, a data line per line, a blank line. */
    method Send(name: string, data: string)
      modifies this`out
      ensures out == old(out) + Frame(Event(name, data)) && out == old(out) + InBytes(name, Split(data))
    {
      FrameInBytes(name, data);
      var b := "";
      if name != "" { b := b + "event: " + name + "\n"; }
      var parts := SplitLines(data);
      ghost var pieces := NamePieces(name);
      assert b == Concat(pieces);
      for i := 0 to |parts|
        invariant out == old(out) && pieces == NamePieces(name) + DataPieces(parts[..i]) && b == Concat(pieces)
      {
        OneMoreData(name, parts, i);
        b := b + ("data: " + parts[i] + "\n");
        pieces := pieces + ["data: " + parts[i] + "\n"];
      }
      assert parts[..|parts|] == parts;
      assert pieces == Body(Event(name, data)) && b + "\n" == Frame(Event(name, data));
      out := out + (b + "\n");
    }

    method Comment(text: string)
      modifies this`out
      ensures out == old(out) + Remark(text) && out == old(out) + (": " + text + "\n\n")
    {
      out := out + ": " + text + "\n\n";
    }

    /** Complete lines go out as unnamed events, in the order the splitter emits them. */
    method Write(p: string)
      requires Valid()
      modifies this`out, lines
      ensures out == old(out) + Frames(Emitted(old(lines.buf) + p, 0)) && lines.buf == Rest(old(lines.buf) + p, 0)
    {
      var n := |lines.emitted|;
      var failed := lines.Write(p);
      SendLines(lines.emitted[n..]);
    }

    method SendLines(texts: seq<string>)
      modifies this`out
      ensures out == old(out) + Frames(texts)
    {
      ghost var sent: seq<string> := [];
      for i := 0 to |texts|
        invariant sent == texts[..i] && out == old(out) + Frames(sent)
      {
        OneMoreFrame(old(out), sent, texts[i]);
        Send("", texts[i]);
        sent := sent + [texts[i]];
      }
      assert sent == texts;
    }

    method FlushPartial()
      requires Valid()
      modifies this`out, lines
      ensures out == old(out) + Frames(Last(old(lines.buf))) && lines.buf == ""
    {
      var n := |lines.emitted|;
      var failed := lines.Flush();
      SendLines(lines.emitted[n..]);
    }

    /** Ends a stream that went well, behind whatever is still buffered. */
    method Done()
      requires Valid()
      modifies this`out, lines
      ensures out == old(out) + Frames(Last(old(lines.buf))) + Frame(Event(DONE, "")) && lines.buf == ""
      ensures out == old(out) + Frames(Last(old(lines.buf))) + "event: done\ndata: \n\n"
    {
      FrameInBytes(DONE, "");
      DoneInBytes();
      FlushPartial();
      Send(DONE, "");
    }

    method Fail(error: string)
      requires Valid()
      modifies this`out, lines
      ensures out == old(out) + Frames(Last(old(lines.buf))) + Frame(Event(ERROR, error)) && lines.buf == ""
      ensures out == old(out) + Frames(Last(old(lines.buf))) + InBytes("error", Split(error))
    {
      FrameInBytes(ERROR, error);
      FlushPartial();
      Send(ERROR, error);
    }
  }

  // ------------------------------------------------------------------ the reader

  datatype Reading =
    | Reading(event: string, data: seq<string>, got: seq<Event>)
    | Ended(got: seq<Event>, verdict: Verdict)

  const START := Reading("", [], [])

  function Blank(event: string, data: seq<string>, got: seq<Event>): Reading {
    if data == [] && event == "" then Reading(event, data, got)
    else if event == DONE then Ended(got, Success)
    else if event == ERROR then Ended(got, Failure(Join(data)))
    else Reading("", [], if data == [] then got else got + [Event(event, Join(data))])
  }

  function ReadLine(st: Reading, line: string): Reading {
    if st.Ended? then st
    else if line == "" then Blank(st.event, st.data, st.got)
    else if ":" <= line then st
    else if "event: " <= line then st.(event := line[7..])
    else if "data: " <= line then st.(data := st.data + [line[6..]])
    else if "data:" <= line then st.(data := st.data + [""])
    else st
  }

  function ReadLines(st: Reading, lines: seq<string>): Reading {
    if lines == [] then st else ReadLine(ReadLines(st, lines[..|lines| - 1]), lines[|lines| - 1])
  }

  /** What the reader makes of each line between verdicts: a comment and a field it does not
      know are skipped, and data without the space after the colon is empty. */
  lemma EachLine(event: string, data: seq<string>, got: seq<Event>, text: string)
    ensures var st := Reading(event, data, got);
      && ReadLine(st, "event: " + text) == Reading(text, data, got)
      && ReadLine(st, "data: " + text) == Reading(event, data + [text], got)
      && ReadLine(st, ":" + text) == st
      && ((text == "" || text[0] != ' ') ==> ReadLine(st, "data:" + text) == Reading(event, data + [""], got))
      && (text != "" && !("event: " <= text) && !("data:" <= text) ==> ReadLine(st, text) == st)
  {
    NameLine(Reading(event, data, got), text);
    DataLine(Reading(event, data, got), text);
    var line := "data:" + text;
    assert line[0] == 'd' && line[1] == 'a' && line[..5] == "data:" && (text != "" ==> line[5] == text[0]);
    assert "data: "[5] == ' ' && (":" + text)[0] == ':';
  }

  /** And of a blank line: the verdicts end the stream whatever data they carry, an event
      without data is dropped, and any other is delivered with its lines joined. */
  lemma EachFrame(event: string, data: seq<string>, got: seq<Event>)
    ensures ReadLine(Reading(event, data, got), "") ==
            if event == "done" then Ended(got, Success)
            else if event == "error" then Ended(got, Failure(Join(data)))
            else Reading("", [], if data == [] then got else got + [Event(event, Join(data))])
  {}

  /** How a read ended: as the stream did, or because fn refused an event. */
  datatype Reason = Ran(verdict: Verdict) | Refused

  /** The parser, on the lines its scanner delivers. fn takes each event or ends the read;
      `got` is what it has taken, and `reliable` says that it takes everything. */
  method Read(lines: seq<string>, reliable: bool) returns (got: seq<Event>, reason: Reason)
    ensures var st := ReadLines(START, lines);
      match reason
      case Ran(verdict) => got == st.got && verdict == if st.Ended? then st.verdict else NoVerdict
      case Refused => !reliable && got < st.got
  {
    got := [];
    var event, data := "", [];
    for i := 0 to |lines|
      invariant ReadLines(START, lines[..i]) == Reading(event, data, got)
    {
      var line := lines[i];
      assert lines[..i + 1][..i] == lines[..i];
      EndedStays(lines, lines[..i + 1], lines[i + 1..]);
      if line == "" {
        if |data| == 0 && event == "" { continue; }
        var text := Join(data);
        if event == DONE { return got, Ran(Success); }
        if event == ERROR { return got, Ran(Failure(text)); }
        if |data| > 0 {
          var failed: bool := *;
          if failed && !reliable {
            GotStays(lines, lines[..i + 1], lines[i + 1..]);
            return got, Refused;
          }
          got := got + [Event(event, text)];
        }
        event, data := "", [];
      } else if ":" <= line {
      } else if "event: " <= line {
        event := line[7..];
      } else if "data: " <= line {
        data := data + [line[6..]];
      } else if "data:" <= line {
        data := data + [""];
      }
    }
    assert lines[..|lines|] == lines;
    reason := Ran(NoVerdict);
  }

  lemma {:induction false} GotGrows(st: Reading, lines: seq<string>)
    ensures st.got <= ReadLines(st, lines).got
  {
    if lines != [] { GotGrows(st, lines[..|lines| - 1]); }
  }

  lemma GotStays(lines: seq<string>, a: seq<string>, b: seq<string>)
    requires lines == a + b
    ensures ReadLines(START, a).got <= ReadLines(START, lines).got
  {
    ReadAppend(START, a, b);
    GotGrows(ReadLines(START, a), b);
  }

  lemma EndedStays(lines: seq<string>, a: seq<string>, b: seq<string>)
    requires lines == a + b
    ensures ReadLines(START, a).Ended? ==> ReadLines(START, lines) == ReadLines(START, a)
  {
    ReadAppend(START, a, b);
    if ReadLines(START, a).Ended? { ReadEnded(ReadLines(START, a), b); }
  }

  lemma {:induction false} ReadAppend(st: Reading, a: seq<string>, b: seq<string>)
    ensures ReadLines(st, a + b) == ReadLines(ReadLines(st, a), b)
  {
    if b == [] {
      assert a + b == a;
    } else {
      var n := |b| - 1;
      ReadAppend(st, a, b[..n]);
      assert (a + b)[..|a + b| - 1] == a + b[..n];
    }
  }

  lemma {:induction false} ReadEnded(st: Reading, lines: seq<string>)
    requires st.Ended?
    ensures ReadLines(st, lines) == st
  {
    if lines != [] { ReadEnded(st, lines[..|lines| - 1]); }
  }

  // ---------------------------------------------------------------- whole frames

  lemma NamePiece(name: string)
    requires NoNewline(name) && name != ""
    ensures IsLine("event: " + name + "\n") && LineOf("event: " + name + "\n") == "event: " + Trim(name)
  {
    LabelledPiece("event: ", name);
  }

  /** The raw lines of a whole frame. */
  ghost function FramePieces(e: Event): seq<string> { Body(e) + ["\n"] }

  lemma FrameIsPieces(e: Event)
    ensures Concat(FramePieces(e)) == Frame(e)
  {
    ConcatTwo(Body(e), ["\n"]);
    assert Concat(["\n"]) == "\n";
  }

  lemma NameIsLine(name: string)
    requires NoNewline(name)
    ensures AreLines(NamePieces(name))
  {
    if name != "" { NamePiece(name); }
  }

  lemma DataAreLines(parts: seq<string>)
    requires forall i | 0 <= i < |parts| :: NoNewline(parts[i])
    ensures AreLines(DataPieces(parts))
  {
    forall i | 0 <= i < |parts| ensures IsLine(DataPieces(parts)[i]) { LabelledPiece("data: ", parts[i]); }
  }

  lemma FrameIsLines(e: Event)
    requires NoNewline(e.name)
    ensures AreLines(FramePieces(e))
  {
    NameIsLine(e.name);
    SplitHasNoNewlines(e.data);
    DataAreLines(Split(e.data));
  }

  lemma LinesOfFrame(e: Event)
    ensures LinesOf(FramePieces(e)) == FrameLines(e)
  {
    LinesOfAppend(NamePieces(e.name), DataPieces(Split(e.data)));
    LinesOfAppend(Body(e), ["\n"]);
    assert LineOf("\n") == "" && LinesOf(["\n"]) == [""];
  }

  lemma {:induction false} ReadData(st: Reading, parts: seq<string>)
    requires st.Reading? && forall i | 0 <= i < |parts| :: NoNewline(parts[i])
    ensures ReadLines(st, LinesOf(DataPieces(parts))) == st.(data := st.data + Trimmed(parts))
  {
    if parts == [] {
      assert st.data + Trimmed(parts) == st.data;
    } else {
      var n := |parts| - 1;
      var before := parts[..n];
      ReadData(st, before);
      DataLines(parts);
      DataLine(st.(data := st.data + Trimmed(before)), Trim(parts[n]));
      Regroup(st.data, Trimmed(before), [Trim(parts[n])]);
    }
  }

  lemma DataLines(parts: seq<string>)
    requires parts != [] && NoNewline(parts[|parts| - 1])
    ensures var (lines, n) := (LinesOf(DataPieces(parts)), |parts| - 1);
      && |lines| == |parts| && lines[..n] == LinesOf(DataPieces(parts[..n])) && lines[n] == "data: " + Trim(parts[n])
      && Trimmed(parts) == Trimmed(parts[..n]) + [Trim(parts[n])]
  {
    LabelledPiece("data: ", parts[|parts| - 1]);
  }

  lemma DataLine(st: Reading, text: string)
    requires st.Reading?
    ensures ReadLine(st, "data: " + text) == st.(data := st.data + [text])
  {
    var line := "data: " + text;
    assert line[0] == 'd' && line[..6] == "data: " && line[6..] == text;
  }

  lemma NameLine(st: Reading, name: string)
    requires st.Reading?
    ensures ReadLine(st, "event: " + name) == st.(event := name)
  {
    var line := "event: " + name;
    assert line[0] == 'e' && line[..7] == "event: " && line[7..] == name;
  }

  lemma ReadName(st: Reading, name: string)
    requires st.Reading? && st.event == "" && NoNewline(name)
    ensures ReadLines(st, LinesOf(NamePieces(name))) == st.(event := Trim(name))
  {
    if name != "" {
      NamePiece(name);
      NameLine(st, Trim(name));
      var lines := LinesOf(NamePieces(name));
      assert lines == ["event: " + Trim(name)] && lines[..0] == [];
    }
  }

  ghost function FrameLines(e: Event): seq<string> {
    LinesOf(NamePieces(e.name)) + LinesOf(DataPieces(Split(e.data))) + [""]
  }

  lemma ReadFrameLines(e: Event, got: seq<Event>)
    requires NoNewline(e.name)
    ensures ReadLines(Reading("", [], got), FrameLines(e)) == Blank(Trim(e.name), Trimmed(Split(e.data)), got)
  {
    var st := Reading("", [], got);
    var (head, data) := (LinesOf(NamePieces(e.name)), LinesOf(DataPieces(Split(e.data))));
    ReadAppend(st, head + data, [""]);
    ReadAppend(st, head, data);
    ReadName(st, e.name);
    SplitHasNoNewlines(e.data);
    ReadData(st.(event := Trim(e.name)), Split(e.data));
    assert [] + Trimmed(Split(e.data)) == Trimmed(Split(e.data));
    OneBlank(Reading(Trim(e.name), Trimmed(Split(e.data)), got));
  }

  /** A whole frame, and whatever follows, from between frames. */
  lemma ReadFrame(e: Event, got: seq<Event>, rest: string)
    requires NoNewline(e.name)
    ensures ReadLines(Reading("", [], got), Scan(Frame(e) + rest)) ==
            ReadLines(Blank(Trim(e.name), Trimmed(Split(e.data)), got), Scan(rest))
  {
    FrameIsPieces(e);
    FrameIsLines(e);
    LinesOfFrame(e);
    ScanPieces(FramePieces(e), rest);
    ReadAppend(Reading("", [], got), FrameLines(e), Scan(rest));
    ReadFrameLines(e, got);
  }

  lemma OneBlank(st: Reading)
    requires st.Reading?
    ensures ReadLines(st, [""]) == Blank(st.event, st.data, st.got)
  {
    assert [""][..0] == [];
  }

  lemma ScanRemark(text: string, rest: string)
    requires NoNewline(text)
    ensures Scan(Remark(text) + rest) == [": " + Trim(text), ""] + Scan(rest)
  {
    var pieces := [": " + text + "\n", "\n"];
    LabelledPiece(": ", text);
    assert Concat(["\n"]) == "\n" && pieces[1..] == ["\n"];
    assert Concat(pieces) == Remark(text);
    ScanPieces(pieces, rest);
    assert LinesOf(pieces) == [": " + Trim(text), ""];
  }

  lemma RemarkIsSkipped(st: Reading, text: string)
    requires st.Reading? && st.event == "" && st.data == []
    ensures ReadLines(st, [": " + text, ""]) == st
  {
    var line := ": " + text;
    ReadAppend(st, [line], [""]);
    assert [line] + [""] == [line, ""] && [line][..0] == [] && ":" <= line;
    OneBlank(st);
  }

  lemma ReadRemark(text: string, got: seq<Event>, rest: string)
    requires NoNewline(text)
    ensures ReadLines(Reading("", [], got), Scan(Remark(text) + rest)) == ReadLines(Reading("", [], got), Scan(rest))
  {
    ScanRemark(text, rest);
    ReadAppend(Reading("", [], got), [": " + Trim(text), ""], Scan(rest));
    RemarkIsSkipped(Reading("", [], got), Trim(text));
  }

  // ------------------------------------------------------------------ round trips

  /** No line of a text ends in a carriage return. */
  ghost predicate PlainText(text: string) { forall i | 0 <= i < |Split(text)| :: NoReturn(Split(text)[i]) }

  /** What survives the trip. */
  ghost predicate Plain(e: Event) { NoReturn(e.name) && PlainText(e.data) }

  ghost predicate Sendable(e: Event) { NoNewline(e.name) && e.name != "done" && e.name != "error" && Plain(e) }

  lemma PlainIsTrimmed(e: Event)
    requires Plain(e)
    ensures Trim(e.name) == e.name && Trimmed(Split(e.data)) == Split(e.data) && Join(Trimmed(Split(e.data))) == e.data
  {
    assert Trimmed(Split(e.data)) == Split(e.data);
    JoinOfSplit(e.data);
  }

  datatype Item = Message(e: Event) | Comment(text: string)

  ghost predicate ItemOk(item: Item) {
    match item
    case Message(e) => Sendable(e)
    case Comment(text) => NoNewline(text)
  }

  ghost function Sent(item: Item): string {
    match item
    case Message(e) => Frame(e)
    case Comment(text) => Remark(text)
  }

  ghost function Parts(items: seq<Item>): seq<string> {
    seq(|items|, i requires 0 <= i < |items| => Sent(items[i]))
  }

  ghost function Stream(items: seq<Item>): string { Concat(Parts(items)) }

  lemma StreamFirst(items: seq<Item>)
    requires items != []
    ensures Stream(items) == Sent(items[0]) + Stream(items[1..])
  {
    assert Parts(items)[1..] == Parts(items[1..]);
  }

  function Events(items: seq<Item>): seq<Event> {
    if items == [] then [] else (if items[0].Message? then [items[0].e] else []) + Events(items[1..])
  }

  ghost predicate ItemsOk(items: seq<Item>) { forall i | 0 <= i < |items| :: ItemOk(items[i]) }

  lemma ReadItem(item: Item, got: seq<Event>, rest: string)
    requires ItemOk(item)
    ensures ReadLines(Reading("", [], got), Scan(Sent(item) + rest)) ==
            ReadLines(Reading("", [], got + (if item.Message? then [item.e] else [])), Scan(rest))
  {
    match item
    case Message(e) =>
      ReadFrame(e, got, rest);
      PlainIsTrimmed(e);
      SplitHasNoNewlines(e.data);
    case Comment(text) =>
      ReadRemark(text, got, rest);
      assert got + [] == got;
  }

  lemma {:induction false} ReadItems(items: seq<Item>, got: seq<Event>, rest: string)
    requires ItemsOk(items)
    ensures ReadLines(Reading("", [], got), Scan(Stream(items) + rest)) ==
            ReadLines(Reading("", [], got + Events(items)), Scan(rest))
  {
    if items == [] {
      assert "" + rest == rest && got + [] == got;
    } else {
      StreamFirst(items);
      Reassociate(Sent(items[0]), Stream(items[1..]), rest);
      ReadItem(items[0], got, Stream(items[1..]) + rest);
      var more := if items[0].Message? then [items[0].e] else [];
      ReadItems(items[1..], got + more, rest);
      Regroup(got, more, Events(items[1..]));
    }
  }

  lemma ReadFromStart(items: seq<Item>, rest: string)
    requires ItemsOk(items)
    ensures ReadLines(START, Scan(Stream(items) + rest)) == ReadLines(Reading("", [], Events(items)), Scan(rest))
  {
    ReadItems(items, [], rest);
    assert [] + Events(items) == Events(items);
  }

  function VerdictEvent(v: Verdict): Event
    requires !v.NoVerdict?
  {
    if v.Success? then Event(DONE, "") else Event(ERROR, v.text)
  }

  /** A verdict as it arrives. */
  ghost function Arrived(v: Verdict): Verdict
    requires !v.NoVerdict?
  {
    if v.Success? then v else Failure(Join(Trimmed(Split(v.text))))
  }

  lemma VerdictArrives(v: Verdict, got: seq<Event>)
    requires !v.NoVerdict?
    ensures var e := VerdictEvent(v);
      NoNewline(e.name) && Blank(Trim(e.name), Trimmed(Split(e.data)), got) == Ended(got, Arrived(v))
  {}

  lemma ReadVerdict(v: Verdict, got: seq<Event>, after: string)
    requires !v.NoVerdict?
    ensures ReadLines(Reading("", [], got), Scan(Frame(VerdictEvent(v)) + after)) == Ended(got, Arrived(v))
  {
    VerdictArrives(v, got);
    ReadFrame(VerdictEvent(v), got, after);
    ReadEnded(Ended(got, Arrived(v)), Scan(after));
  }

  lemma ArrivedIff(v: Verdict)
    requires !v.NoVerdict?
    ensures Arrived(v) == v <==> v.Success? || PlainText(v.text)
  {
    if v.Failure? {
      var e := Event("", v.text);
      if PlainText(v.text) { PlainIsTrimmed(e); } else { NotPlainIsChanged(e); }
    }
  }

  /** Every event arrives, in order, and then the verdict: a success as a success, an error
      as an error, and its text as it was sent if and only if it is plain. */
  lemma StreamsRoundTrip(items: seq<Item>, v: Verdict, after: string)
    requires ItemsOk(items) && !v.NoVerdict?
    ensures var st := ReadLines(START, Scan(Stream(items) + (Frame(VerdictEvent(v)) + after)));
      && st.Ended? && st.got == Events(items) && !st.verdict.NoVerdict? && (st.verdict.Success? <==> v.Success?)
      && (st.verdict == v <==> v.Success? || PlainText(v.text))
  {
    ReadFromStart(items, Frame(VerdictEvent(v)) + after);
    ReadVerdict(v, Events(items), after);
    ArrivedIff(v);
  }

  // ------------------------------------------------------ exactly what round-trips

  lemma {:induction false} JoinShrinks(parts: seq<string>)
    ensures |Join(Trimmed(parts))| <= |Join(parts)|
    ensures (exists i :: 0 <= i < |parts| && !NoReturn(parts[i])) ==> |Join(Trimmed(parts))| < |Join(parts)|
  {
    if |parts| == 1 {
      assert Trimmed(parts)[0] == Trim(parts[0]);
    } else if |parts| > 1 {
      JoinShrinks(parts[1..]);
      assert Trimmed(parts)[1..] == Trimmed(parts[1..]);
      if i :| 0 <= i < |parts| && !NoReturn(parts[i]) {
        if i > 0 { assert parts[1..][i - 1] == parts[i]; }
      }
    }
  }

  lemma ScanHasNoNewlines(s: string)
    ensures forall i | 0 <= i < |Scan(s)| :: NoNewline(Scan(s)[i])
  {
    PiecesAreLines(s);
    RestIsShort(s, 0);
    forall i | 0 <= i < |Scan(s)| ensures NoNewline(Scan(s)[i]) {
      if i < |Pieces(s, 0)| { assert IsLine(Pieces(s, 0)[i]); }
    }
  }

  ghost predicate NamesFit(st: Reading) {
    (st.Reading? ==> NoNewline(st.event)) && forall i | 0 <= i < |st.got| :: NoNewline(st.got[i].name)
  }

  lemma {:induction false} NamesAlwaysFit(lines: seq<string>)
    requires forall i | 0 <= i < |lines| :: NoNewline(lines[i])
    ensures NamesFit(ReadLines(START, lines))
  {
    if lines != [] { NamesAlwaysFit(lines[..|lines| - 1]); }
  }

  lemma ReadOneFrame(e: Event)
    requires NoNewline(e.name)
    ensures ReadLines(START, Scan(Frame(e))) == Blank(Trim(e.name), Trimmed(Split(e.data)), [])
  {
    ReadFrame(e, [], "");
    assert Frame(e) + "" == Frame(e);
    ScanOfNothing();
  }

  /** An event arrives as it was sent if and only if its name has no newline and is neither
      verdict's, and neither the name nor a line of the data ends in a carriage return. */
  lemma EventRoundTripsIff(e: Event)
    ensures ReadLines(START, Scan(Frame(e))) == Reading("", [], [e]) <==> Sendable(e)
  {
    if !NoNewline(e.name) {
      ScanHasNoNewlines(Frame(e));
      NamesAlwaysFit(Scan(Frame(e)));
    } else {
      ReadOneFrame(e);
      SplitHasNoNewlines(e.data);
      var arrived := Event(Trim(e.name), Join(Trimmed(Split(e.data))));
      assert ([] + [arrived])[0] == arrived && [] + [arrived] == [arrived] && [e][0] == e;
      if Plain(e) { PlainIsTrimmed(e); } else { NotPlainIsChanged(e); }
    }
  }

  lemma NotPlainIsChanged(e: Event)
    requires !Plain(e)
    ensures Event(Trim(e.name), Join(Trimmed(Split(e.data)))) != e
  {
    if NoReturn(e.name) {
      var i :| 0 <= i < |Split(e.data)| && !NoReturn(Split(e.data)[i]);
      JoinShrinks(Split(e.data));
      JoinOfSplit(e.data);
    } else {
      assert |Trim(e.name)| < |e.name|;
    }
  }

  // -------------------------------------------------------------- a stream cut off

  predicate Visible(c: char) { c != '\n' && c != '\r' }

  /** No line of it, finished or not, is blank. */
  predicate NoBlank(s: string) {
    (s != "" ==> Visible(s[0])) && forall i | 0 <= i < |s| - 1 && s[i] == '\n' :: Visible(s[i + 1])
  }

  predicate NoneBlank(lines: seq<string>) { forall i | 0 <= i < |lines| :: lines[i] != "" }

  lemma {:induction false} NoBlankLines(s: string)
    requires NoBlank(s)
    ensures NoneBlank(Scan(s))
    decreases |s|
  {
    var n := Cut(s, 0);
    if n == 0 {
      OnlyLast(s);
    } else {
      NoBlankRest(s, n);
      NoBlankLines(s[n..]);
      ScanFirst(s);
      FirstLineShows(s);
      NoneBlankFirst(LineOf(s[..n]), Scan(s[n..]));
    }
  }

  lemma OnlyLast(s: string)
    requires NoBlank(s) && Cut(s, 0) == 0
    ensures NoneBlank(Scan(s))
  {
    assert Scan(s) == Last(s);
  }

  lemma NoneBlankFirst(line: string, lines: seq<string>)
    requires line != "" && NoneBlank(lines)
    ensures NoneBlank([line] + lines)
  {}

  lemma FirstLineShows(s: string)
    requires NoBlank(s) && Cut(s, 0) > 0
    ensures LineOf(s[..Cut(s, 0)]) != ""
  {
    CutLine(s, 0);
    var line := s[..Cut(s, 0) - 1];
    assert line != "" && line[0] == s[0];
  }

  lemma NoBlankRest(s: string, n: nat)
    requires NoBlank(s) && 0 < n <= |s| && s[n - 1] == '\n'
    ensures NoBlank(s[n..])
  {
    var rest := s[n..];
    if rest != "" { assert rest[0] == s[n - 1 + 1]; }
    assert forall i | 0 <= i < |rest| - 1 && rest[i] == '\n' :: s[n + i] == '\n' && rest[i + 1] == s[n + i + 1];
  }

  lemma ScanFirst(s: string)
    requires Cut(s, 0) > 0
    ensures Scan(s) == [LineOf(s[..Cut(s, 0)])] + Scan(s[Cut(s, 0)..])
  {
    FirstPiece(s, 0);
    var rest := s[Cut(s, 0)..];
    Regroup([LineOf(s[..Cut(s, 0)])], Emitted(rest, 0), Last(Rest(rest, 0)));
  }

  lemma {:induction false} NothingHappens(st: Reading, lines: seq<string>)
    requires st.Reading? && NoneBlank(lines)
    ensures ReadLines(st, lines).Reading? && ReadLines(st, lines).got == st.got
  {
    if lines != [] { NothingHappens(st, lines[..|lines| - 1]); }
  }

  lemma InsideLine(piece: string)
    requires IsLine(piece)
    ensures forall i | 0 <= i < |piece| - 1 :: piece[i] != '\n'
  {
    forall i | 0 <= i < |piece| - 1 ensures piece[i] != '\n' { assert piece[i] == piece[..|piece| - 1][i]; }
  }

  /** Raw lines that are not blank. */
  predicate Showing(pieces: seq<string>) { forall i | 0 <= i < |pieces| :: IsLine(pieces[i]) && Visible(pieces[i][0]) }

  lemma {:induction false} ConcatNoBlank(pieces: seq<string>)
    requires Showing(pieces)
    ensures NoBlank(Concat(pieces))
  {
    if pieces != [] {
      ConcatNoBlank(pieces[1..]);
      var (a, b) := (pieces[0], Concat(pieces[1..]));
      assert IsLine(a) && Visible(a[0]);
      InsideLine(a);
      forall i | 0 <= i < |a + b| - 1 && (a + b)[i] == '\n' ensures Visible((a + b)[i + 1]) {
        if i == |a| - 1 {
          assert (a + b)[i + 1] == b[0];
        } else if i >= |a| {
          assert b[i - |a|] == '\n' && (a + b)[i + 1] == b[i - |a| + 1];
        }
      }
    }
  }

  lemma DataShow(parts: seq<string>)
    requires forall i | 0 <= i < |parts| :: NoNewline(parts[i])
    ensures Showing(DataPieces(parts))
  {
    DataAreLines(parts);
    forall i | 0 <= i < |parts| ensures Visible(DataPieces(parts)[i][0]) { assert DataPieces(parts)[i][0] == 'd'; }
  }

  lemma BodyShows(e: Event)
    requires NoNewline(e.name)
    ensures Showing(Body(e))
  {
    NameIsLine(e.name);
    SplitHasNoNewlines(e.data);
    DataShow(Split(e.data));
  }

  /** A frame or a comment is lines that are not blank, and then a blank one. */
  lemma SentIsBodyAndBlank(item: Item) returns (body: string)
    requires match item case Message(e) => NoNewline(e.name) case Comment(text) => NoNewline(text)
    ensures Sent(item) == body + "\n" && NoBlank(body)
  {
    match item
    case Message(e) =>
      body := Concat(Body(e));
      BodyShows(e);
      ConcatNoBlank(Body(e));
    case Comment(text) =>
      body := ": " + text + "\n";
      LabelledPiece(": ", text);
      assert Concat([body]) == body;
      ConcatNoBlank([body]);
  }

  lemma CutItem(item: Item, n: nat, got: seq<Event>)
    requires match item case Message(e) => NoNewline(e.name) case Comment(text) => NoNewline(text)
    requires n < |Sent(item)|
    ensures var st := ReadLines(Reading("", [], got), Scan(Sent(item)[..n])); st.Reading? && st.got == got
  {
    var body := SentIsBodyAndBlank(item);
    assert Sent(item)[..n] == body[..n];
    NoBlankLines(body[..n]);
    NothingHappens(Reading("", [], got), Scan(body[..n]));
  }

  /** What has been delivered when a stream of items and a last frame is cut off. */
  ghost predicate CutOff(st: Reading, got: seq<Event>, items: seq<Item>) {
    st.Reading? && exists k :: 0 <= k <= |items| && st.got == got + Events(items[..k])
  }

  lemma CutPlaces(a: string, b: string, c: string, n: nat)
    requires n < |(a + b) + c|
    ensures n < |a| ==> ((a + b) + c)[..n] == a[..n]
    ensures |a| <= n ==> n - |a| < |b + c| && ((a + b) + c)[..n] == a + (b + c)[..n - |a|]
  {
    Reassociate(a, b, c);
  }

  lemma {:induction false} CutItems(items: seq<Item>, last: Event, n: nat, got: seq<Event>)
    requires ItemsOk(items) && NoNewline(last.name) && n < |Stream(items) + Frame(last)|
    ensures CutOff(ReadLines(Reading("", [], got), Scan((Stream(items) + Frame(last))[..n])), got, items)
    decreases |items|, 1
  {
    if items == [] {
      CutItem(Message(last), n, got);
      assert Stream(items) + Frame(last) == Frame(last);
      assert got + Events(items[..0]) == got;
    } else {
      StreamFirst(items);
      CutPlaces(Sent(items[0]), Stream(items[1..]), Frame(last), n);
      if n < |Sent(items[0])| {
        CutItem(items[0], n, got);
        assert got + Events(items[..0]) == got;
      } else {
        CutLater(items, last, n - |Sent(items[0])|, got);
      }
    }
  }

  lemma CutLater(items: seq<Item>, last: Event, n: nat, got: seq<Event>)
    requires items != [] && ItemsOk(items) && NoNewline(last.name) && n < |Stream(items[1..]) + Frame(last)|
    ensures CutOff(ReadLines(Reading("", [], got), Scan(Sent(items[0]) + (Stream(items[1..]) + Frame(last))[..n])), got,
        items)
    decreases |items|, 0
  {
    var rest := (Stream(items[1..]) + Frame(last))[..n];
    var more := if items[0].Message? then [items[0].e] else [];
    ReadItem(items[0], got, rest);
    CutItems(items[1..], last, n, got + more);
    CutOffLater(ReadLines(Reading("", [], got + more), Scan(rest)), got, items);
  }

  lemma CutOffLater(st: Reading, got: seq<Event>, items: seq<Item>)
    requires items != [] && CutOff(st, got + (if items[0].Message? then [items[0].e] else []), items[1..])
    ensures CutOff(st, got, items)
  {
    var more := if items[0].Message? then [items[0].e] else [];
    var k :| 0 <= k <= |items[1..]| && st.got == (got + more) + Events(items[1..][..k]);
    assert items[..k + 1][1..] == items[1..][..k];
    Regroup(got, more, Events(items[1..][..k]));
    assert st.got == got + Events(items[..k + 1]);
  }

  /** However a stream is cut short, the reader delivers a prefix of its events and no
      verdict: a success is never made up. */
  lemma CutStreamHasNoVerdict(items: seq<Item>, v: Verdict, n: nat)
    requires ItemsOk(items) && !v.NoVerdict? && n < |Stream(items) + Frame(VerdictEvent(v))|
    ensures CutOff(ReadLines(START, Scan((Stream(items) + Frame(VerdictEvent(v)))[..n])), [], items)
  {
    CutItems(items, VerdictEvent(v), n, []);
  }

  // ---------------------------------------------------------- the writer's streams

  function Messages(lines: seq<string>): seq<Item> {
    seq(|lines|, i requires 0 <= i < |lines| => Message(Event("", lines[i])))
  }

  lemma StreamAppend(a: seq<Item>, b: seq<Item>)
    ensures Stream(a + b) == Stream(a) + Stream(b)
  {
    assert Parts(a + b) == Parts(a) + Parts(b);
    ConcatTwo(Parts(a), Parts(b));
  }

  /** What the writer makes of lines of output is a stream of unnamed events. */
  lemma {:induction false} LinesAreMessages(lines: seq<string>)
    ensures Frames(lines) == Stream(Messages(lines))
  {
    if lines != [] {
      var n := |lines| - 1;
      LinesAreMessages(lines[..n]);
      var last := Message(Event("", lines[n]));
      assert Messages(lines) == Messages(lines[..n]) + [last];
      StreamAppend(Messages(lines[..n]), [last]);
      StreamFirst([last]);
      assert Sent(last) + "" == Sent(last);
    }
  }
}

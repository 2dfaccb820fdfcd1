/**
  The push hook's protocol: an answer is a stream of lines that start with a band byte and
  end with a status, and the hook's exit code, taken from that status, decides the push.
 */
module Hook {
  import opened Wrappers
  import opened Decimal
  import opened Lines

  const OUTPUT := "1"
  const STATUS := "2"
  const MAX_LINE := 0x1_0000

  // ------------------------------------------------------------------ the daemon

  /** writeLine: one frame. */
  function Piece(band: string, text: string): string { band + text + "\n" }

  function Banded(texts: seq<string>): seq<string> {
    seq(|texts|, i requires 0 <= i < |texts| => Piece(OUTPUT, texts[i]))
  }

  /** The lines a deploy's writes come to, the unfinished one included. */
  ghost function OutputLines(chunks: seq<string>): seq<string> {
    var (lines, rest) := AfterWrites(chunks, MAX_LINE);
    lines + Last(rest)
  }

  const FAILED := "-----> deploy failed: "

  const REFUSED := "-----> refused: "

  function Failed(why: string): string { Piece(OUTPUT, why) + Piece(STATUS, "1") }

  function Verdict(error: Option<string>): string {
    if error.None? then Piece(STATUS, "0") else Failed(FAILED + error.value)
  }

  /** All the daemon sends for a deploy that wrote `chunks` and then returned `error`. */
  ghost function Answer(chunks: seq<string>, error: Option<string>): string {
    Concat(Banded(OutputLines(chunks))) + Verdict(error)
  }

  class Conn {
    var sent: string

    method WriteLine(band: string, text: string)
      modifies this
      ensures sent == old(sent) + Piece(band, text)
    {
      sent := sent + (band + text + "\n");
    }
  }

  /** Frames whatever a deployer writes. */
  class LineWriter {
    const conn: Conn
    const lines: Lines.Writer

    constructor (conn: Conn)
      ensures this.conn == conn && fresh(lines) && lines.buf == "" && lines.emitted == []
      ensures lines.max == MAX_LINE && lines.reliable
    {
      this.conn := conn;
      lines := new Lines.Writer(MAX_LINE, true);
    }

    ghost predicate Valid() { lines.max == MAX_LINE && lines.reliable }

    method Send(texts: seq<string>)
      modifies conn
      ensures conn.sent == old(conn.sent) + Concat(Banded(texts))
    {
      ghost var pieces: seq<string> := [];
      assert conn.sent == conn.sent + Concat(pieces);
      for i := 0 to |texts|
        invariant pieces == Banded(texts[..i]) && conn.sent == old(conn.sent) + Concat(pieces)
      {
        ghost var piece := Piece(OUTPUT, texts[i]);
        OneMorePiece(old(conn.sent), pieces, piece);
        conn.WriteLine(OUTPUT, texts[i]);
        assert Banded(texts[..i + 1]) == pieces + [piece];
        pieces := pieces + [piece];
      }
      assert texts[..|texts|] == texts;
    }

    method Write(p: string)
      requires Valid()
      modifies conn, lines
      ensures conn.sent == old(conn.sent) + Concat(Banded(Emitted(old(lines.buf) + p, MAX_LINE)))
      ensures lines.buf == Rest(old(lines.buf) + p, MAX_LINE)
    {
      var n := |lines.emitted|;
      var failed := lines.Write(p);
      Send(lines.emitted[n..]);
    }

    method Flush()
      requires Valid()
      modifies conn, lines
      ensures conn.sent == old(conn.sent) + Concat(Banded(Last(old(lines.buf))))
    {
      var n := |lines.emitted|;
      var failed := lines.Flush();
      Send(lines.emitted[n..]);
    }
  }

  lemma OneMorePiece(sent: string, pieces: seq<string>, piece: string)
    ensures (sent + Concat(pieces)) + piece == sent + Concat(pieces + [piece])
  {
    ConcatTwo(pieces, [piece]);
    assert Concat([piece]) == piece;
  }

  lemma BandedAppend(sent: string, a: seq<string>, b: seq<string>)
    ensures (sent + Concat(Banded(a))) + Concat(Banded(b)) == sent + Concat(Banded(a + b))
  {
    assert Banded(a + b) == Banded(a) + Banded(b);
    ConcatTwo(Banded(a), Banded(b));
    Reassociate(sent, Concat(Banded(a)), Concat(Banded(b)));
  }

  /** Frames of output, byte for byte. */
  function Framed(texts: seq<string>): seq<string> {
    seq(|texts|, i requires 0 <= i < |texts| => "1" + texts[i] + "\n")
  }

  lemma FailedInBytes(why: string)
    ensures Failed(why) == ("1" + why) + "\n21\n"
  {
    assert Piece(STATUS, "1") == "21\n" && "\n" + "21\n" == "\n21\n";
    Reassociate("1" + why, "\n", "21\n");
  }

  lemma AnswerInBytes(chunks: seq<string>, error: Option<string>)
    ensures Answer(chunks, error) ==
            Concat(Framed(OutputLines(chunks)))
            + (if error.None? then "20\n" else "1-----> deploy failed: " + error.value + "\n21\n")
  {
    assert Banded(OutputLines(chunks)) == Framed(OutputLines(chunks));
    if error.None? {
      assert Piece(STATUS, "0") == "20\n";
    } else {
      FailedInBytes(FAILED + error.value);
      Reassociate("1", FAILED, error.value);
      assert "1" + FAILED == "1-----> deploy failed: ";
    }
  }

  /** One push: the deployer writes `chunks` and returns `error`. */
  method Handle(c: Conn, chunks: seq<string>, error: Option<string>)
    modifies c
    ensures c.sent == old(c.sent) + Answer(chunks, error)
    ensures c.sent == old(c.sent) + (Concat(Framed(OutputLines(chunks)))
      + (if error.None? then "20\n" else "1-----> deploy failed: " + error.value + "\n21\n"))
  {
    AnswerInBytes(chunks, error);
    var lw := new LineWriter(c);
    ghost var lines: seq<string> := [];
    assert c.sent == c.sent + Concat(Banded(lines));
    for i := 0 to |chunks|
      invariant (lines, lw.lines.buf) == AfterWrites(chunks[..i], MAX_LINE)
      invariant c.sent == old(c.sent) + Concat(Banded(lines))
    {
      assert chunks[..i + 1][..i] == chunks[..i];
      ghost var more := Emitted(lw.lines.buf + chunks[i], MAX_LINE);
      BandedAppend(old(c.sent), lines, more);
      lw.Write(chunks[i]);
      lines := lines + more;
    }
    assert chunks[..|chunks|] == chunks;
    BandedAppend(old(c.sent), lines, Last(lw.lines.buf));
    lw.Flush();
    Conclude(c, error);
    Reassociate(old(c.sent), Concat(Banded(OutputLines(chunks))), Verdict(error));
  }

  method Conclude(c: Conn, error: Option<string>)
    modifies c
    ensures c.sent == old(c.sent) + Verdict(error)
  {
    if error.Some? {
      Reject(c, FAILED + error.value);
      return;
    }
    c.WriteLine(STATUS, "0");
  }

  method Reject(c: Conn, why: string)
    modifies c
    ensures c.sent == old(c.sent) + Failed(why)
  {
    Reassociate(c.sent, Piece(OUTPUT, why), Piece(STATUS, "1"));
    c.WriteLine(OUTPUT, why);
    c.WriteLine(STATUS, "1");
  }

  /** A request that is not what it should be. */
  method Refuse(c: Conn, reason: string)
    modifies c
    ensures c.sent == old(c.sent) + Failed(REFUSED + reason)
    ensures c.sent == old(c.sent) + ("1-----> refused: " + reason + "\n21\n")
  {
    FailedInBytes(REFUSED + reason);
    Reassociate("1", REFUSED, reason);
    assert "1" + REFUSED == "1-----> refused: ";
    Reject(c, REFUSED + reason);
  }

  // -------------------------------------------------------------------- the hook

  datatype Client = Relaying(printed: seq<string>) | Exited(printed: seq<string>, code: int)

  const BEGIN := Relaying([])

  function OneLine(st: Client, line: string): Client {
    if st.Exited? || line == "" then st
    else if line[0] == '1' then Relaying(st.printed + [line[1..]])
    else if line[0] == '2' then
      var code := ParseInt(line[1..]);
      Exited(st.printed, if code.None? || code.value < 0 then 1 else code.value)
    else Exited(st.printed, 1)
  }

  function AllLines(st: Client, lines: seq<string>): Client {
    if lines == [] then st else OneLine(AllLines(st, lines[..|lines| - 1]), lines[|lines| - 1])
  }

  /** A connection that ends without a status rejects the push. */
  function ExitCode(st: Client): int { if st.Exited? then st.code else 1 }

  /** What the hook makes of the daemon's bytes. */
  ghost function Outcome(bytes: string): Client { AllLines(BEGIN, Scan(bytes)) }

  method Call(lines: seq<string>) returns (code: int, printed: seq<string>)
    ensures code == ExitCode(AllLines(BEGIN, lines)) && printed == AllLines(BEGIN, lines).printed
  {
    printed := [];
    for i := 0 to |lines|
      invariant AllLines(BEGIN, lines[..i]) == Relaying(printed)
    {
      var line := lines[i];
      assert lines[..i + 1][..i] == lines[..i];
      ExitIsFinal(lines, lines[..i + 1], lines[i + 1..]);
      if line == "" { continue; }
      var band, text := line[0], line[1..];
      if band == '1' {
        printed := printed + [text];
      } else if band == '2' {
        var status := ParseInt(text);
        if status.None? || status.value < 0 { return 1, printed; }
        return status.value, printed;
      } else {
        return 1, printed;
      }
    }
    assert lines[..|lines|] == lines;
    code := 1;
  }

  lemma {:induction false} LinesAppend(st: Client, a: seq<string>, b: seq<string>)
    ensures AllLines(st, a + b) == AllLines(AllLines(st, a), b)
  {
    if b == [] {
      assert a + b == a;
    } else {
      var n := |b| - 1;
      LinesAppend(st, a, b[..n]);
      assert (a + b)[..|a + b| - 1] == a + b[..n];
    }
  }

  lemma {:induction false} ExitedStays(st: Client, lines: seq<string>)
    requires st.Exited?
    ensures AllLines(st, lines) == st
  {
    if lines != [] { ExitedStays(st, lines[..|lines| - 1]); }
  }

  lemma ExitIsFinal(lines: seq<string>, a: seq<string>, b: seq<string>)
    requires lines == a + b
    ensures AllLines(BEGIN, a).Exited? ==> AllLines(BEGIN, lines) == AllLines(BEGIN, a)
  {
    LinesAppend(BEGIN, a, b);
    if AllLines(BEGIN, a).Exited? { ExitedStays(AllLines(BEGIN, a), b); }
  }

  // ------------------------------------------------------- the deployer's output

  ghost predicate AllNoNewline(texts: seq<string>) { forall i | 0 <= i < |texts| :: NoNewline(texts[i]) }

  lemma {:induction false} EmittedHasNoNewlines(buf: string, max: int)
    ensures AllNoNewline(Emitted(buf, max))
    decreases |buf|
  {
    var n := Cut(buf, max);
    if n > 0 {
      EmittedHasNoNewlines(buf[n..], max);
      FirstPiece(buf, max);
      CutLine(buf, max);
    }
  }

  lemma {:induction false} OutputHasNoNewlines(chunks: seq<string>, max: int)
    ensures AllNoNewline(AfterWrites(chunks, max).0) && NoNewline(AfterWrites(chunks, max).1)
  {
    if chunks != [] {
      var n := |chunks| - 1;
      OutputHasNoNewlines(chunks[..n], max);
      var buf := AfterWrites(chunks[..n], max).1 + chunks[n];
      EmittedHasNoNewlines(buf, max);
      RestIsShort(buf, max);
    }
  }

  lemma BandedLines(texts: seq<string>)
    requires AllNoNewline(texts)
    ensures forall i | 0 <= i < |texts| ::
      IsLine(Banded(texts)[i]) && LinesOf(Banded(texts))[i] == OUTPUT + Trim(texts[i])
  {
    forall i | 0 <= i < |texts|
      ensures IsLine(Banded(texts)[i]) && LinesOf(Banded(texts))[i] == OUTPUT + Trim(texts[i])
    {
      LabelledPiece(OUTPUT, texts[i]);
    }
  }

  lemma OneOutput(st: Client, text: string)
    requires st.Relaying?
    ensures OneLine(st, OUTPUT + text) == Relaying(st.printed + [text])
  {
    assert (OUTPUT + text)[0] == '1' && (OUTPUT + text)[1..] == text;
  }

  lemma LastLine(st: Client, lines: seq<string>, line: string)
    ensures AllLines(st, lines + [line]) == OneLine(AllLines(st, lines), line)
  {
    assert (lines + [line])[..|lines|] == lines;
  }

  lemma LastBanded(texts: seq<string>)
    requires AllNoNewline(texts) && texts != []
    ensures var n := |texts| - 1;
      && LinesOf(Banded(texts)) == LinesOf(Banded(texts[..n])) + [OUTPUT + Trim(texts[n])]
      && Trimmed(texts) == Trimmed(texts[..n]) + [Trim(texts[n])]
  {
    var n := |texts| - 1;
    assert Banded(texts) == Banded(texts[..n]) + [Piece(OUTPUT, texts[n])];
    LinesOfAppend(Banded(texts[..n]), [Piece(OUTPUT, texts[n])]);
    OneBanded(texts[n]);
  }

  lemma OneBanded(text: string)
    requires NoNewline(text)
    ensures LinesOf([Piece(OUTPUT, text)]) == [OUTPUT + Trim(text)]
  {
    LabelledPiece(OUTPUT, text);
  }

  lemma {:induction false} OutputIsRelayed(texts: seq<string>, printed: seq<string>)
    requires AllNoNewline(texts)
    ensures AllLines(Relaying(printed), LinesOf(Banded(texts))) == Relaying(printed + Trimmed(texts))
  {
    if texts == [] {
      assert printed + Trimmed(texts) == printed;
    } else {
      var n := |texts| - 1;
      OutputIsRelayed(texts[..n], printed);
      LastBanded(texts);
      LastLine(Relaying(printed), LinesOf(Banded(texts[..n])), OUTPUT + Trim(texts[n]));
      OneOutput(Relaying(printed + Trimmed(texts[..n])), Trim(texts[n]));
      Regroup(printed, Trimmed(texts[..n]), [Trim(texts[n])]);
    }
  }

  lemma OutputIsClean(chunks: seq<string>)
    ensures AllNoNewline(OutputLines(chunks))
  {
    OutputHasNoNewlines(chunks, MAX_LINE);
  }

  lemma BandedAreLines(texts: seq<string>)
    requires AllNoNewline(texts)
    ensures AreLines(Banded(texts))
  {
    BandedLines(texts);
  }

  lemma ScanBanded(texts: seq<string>, rest: string)
    requires AllNoNewline(texts)
    ensures Scan(Concat(Banded(texts)) + rest) == LinesOf(Banded(texts)) + Scan(rest)
  {
    BandedAreLines(texts);
    ScanPieces(Banded(texts), rest);
  }

  lemma BandedRelayed(texts: seq<string>)
    requires AllNoNewline(texts)
    ensures AllLines(BEGIN, LinesOf(Banded(texts))) == Relaying(Trimmed(texts))
  {
    OutputIsRelayed(texts, []);
    assert [] + Trimmed(texts) == Trimmed(texts);
  }

  lemma TextsThen(texts: seq<string>, rest: string)
    requires AllNoNewline(texts)
    ensures Outcome(Concat(Banded(texts)) + rest) == AllLines(Relaying(Trimmed(texts)), Scan(rest))
  {
    ScanBanded(texts, rest);
    LinesAppend(BEGIN, LinesOf(Banded(texts)), Scan(rest));
    BandedRelayed(texts);
  }

  lemma OutputThen(chunks: seq<string>, rest: string)
    ensures Outcome(Concat(Banded(OutputLines(chunks))) + rest) ==
            AllLines(Relaying(Trimmed(OutputLines(chunks))), Scan(rest))
  {
    OutputIsClean(chunks);
    TextsThen(OutputLines(chunks), rest);
  }

  // ------------------------------------------------------------------ the verdict

  lemma ScanStatus(code: string)
    requires code == "0" || code == "1"
    ensures Scan(Piece(STATUS, code)) == [STATUS + code]
  {
    LabelledPiece(STATUS, code);
    var pieces := [Piece(STATUS, code)];
    assert Concat(pieces) + "" == Piece(STATUS, code);
    ScanPieces(pieces, "");
    ScanOfNothing();
    assert LinesOf(pieces) == [STATUS + code];
  }

  lemma StatusEnds(printed: seq<string>, code: string)
    requires code == "0" || code == "1"
    ensures AllLines(Relaying(printed), [STATUS + code]) == Exited(printed, if code == "0" then 0 else 1)
  {
    var line := STATUS + code;
    var one: seq<string> := [line];
    assert one[..0] == [] && line[0] == '2' && line[1..] == code && code[0] != '-' && code[0] != '+';
    assert code[..0] == "" && Value(code) == ValueOf(code[0]);
  }

  /** The lines a failed deploy's last words come to: its first line with the band in front,
      its other lines as they are, and the status. */
  lemma ScanFailed(why: string)
    ensures var segments := Split(why);
      Scan(Failed(why)) == [OUTPUT + Trim(segments[0])] + (Trimmed(segments[1..]) + [STATUS + "1"])
  {
    var (segments, rest) := (Split(why), Piece(STATUS, "1"));
    SplitHasNoNewlines(why);
    JoinOfSplit(why);
    var pieces := [Piece(OUTPUT, segments[0])] + Ended(segments[1..]);
    EndedJoin(OUTPUT, segments);
    forall i | 0 <= i < |pieces| ensures IsLine(pieces[i]) {
      if i == 0 { LabelledPiece(OUTPUT, segments[0]); } else { EndedLine(segments[i]); }
    }
    ScanPieces(pieces, rest);
    ScanStatus("1");
    FailedLines(segments);
    Regroup([OUTPUT + Trim(segments[0])], Trimmed(segments[1..]), [STATUS + "1"]);
  }

  function Ended(segments: seq<string>): seq<string> {
    seq(|segments|, i requires 0 <= i < |segments| => segments[i] + "\n")
  }

  lemma EndedLine(segment: string)
    requires NoNewline(segment)
    ensures IsLine(segment + "\n") && LineOf(segment + "\n") == Trim(segment)
  {
    assert (segment + "\n")[..|segment|] == segment;
  }

  lemma {:induction false} EndedJoin(band: string, segments: seq<string>)
    requires segments != []
    ensures Concat([Piece(band, segments[0])] + Ended(segments[1..])) == Piece(band, Join(segments))
    decreases |segments|
  {
    var rest := segments[1..];
    ConcatFirst(Piece(band, segments[0]), Ended(rest));
    if rest == [] {
      assert Ended(rest) == [];
    } else {
      EndedJoin("", rest);
      assert Piece("", rest[0]) == rest[0] + "\n" && Piece("", Join(rest)) == Join(rest) + "\n";
      assert Ended(rest) == [Piece("", rest[0])] + Ended(rest[1..]);
      assert Piece(band, segments[0]) + (Join(rest) + "\n") == band + (segments[0] + "\n" + Join(rest)) + "\n";
    }
  }

  lemma FailedLines(segments: seq<string>)
    requires segments != [] && AllNoNewline(segments)
    ensures LinesOf([Piece(OUTPUT, segments[0])] + Ended(segments[1..])) ==
        [OUTPUT + Trim(segments[0])] + Trimmed(segments[1..])
  {
    LabelledPiece(OUTPUT, segments[0]);
    EndedLines(segments[1..]);
    LinesOfAppend([Piece(OUTPUT, segments[0])], Ended(segments[1..]));
  }

  lemma EndedLines(segments: seq<string>)
    requires AllNoNewline(segments)
    ensures LinesOf(Ended(segments)) == Trimmed(segments)
  {
    forall i | 0 <= i < |segments| ensures LinesOf(Ended(segments))[i] == Trimmed(segments)[i] {
      EndedLine(segments[i]);
    }
  }

  /** Lines the hook would take for output or skip. */
  predicate Passes(line: string) { line == "" || line[0] == '1' }

  /** A line the hook takes for a success. */
  predicate SaysZero(line: string) { line != "" && line[0] == '2' && ParseInt(line[1..]) == Some(0) }

  /** Whether the lines of a text after its first would be taken for a success: one says so
      and those before it pass. */
  ghost predicate FalseVerdict(lines: seq<string>) { exists k :: FirstZero(lines, k) }

  predicate AllPass(lines: seq<string>) { forall i | 0 <= i < |lines| :: Passes(lines[i]) }

  ghost predicate FirstZero(lines: seq<string>, k: int) {
    0 <= k < |lines| && SaysZero(lines[k]) && forall i | 0 <= i < k :: Passes(lines[i])
  }

  lemma FalseVerdictGrows(before: seq<string>, line: string)
    ensures FalseVerdict(before + [line]) <==> FalseVerdict(before) || (SaysZero(line) && AllPass(before))
  {
    var (lines, n) := (before + [line], |before|);
    if FalseVerdict(before) {
      var k :| FirstZero(before, k);
      assert FirstZero(lines, k);
    }
    if SaysZero(line) && AllPass(before) { assert FirstZero(lines, n); }
    if FalseVerdict(lines) {
      var k :| FirstZero(lines, k);
      forall i | 0 <= i < k ensures Passes(before[i]) { assert lines[i] == before[i]; }
      if k < n { assert FirstZero(before, k); }
    }
  }

  lemma {:induction false} ZeroIff(lines: seq<string>, printed: seq<string>)
    ensures ExitCode(AllLines(Relaying(printed), lines)) == 0 <==> FalseVerdict(lines)
    ensures AllLines(Relaying(printed), lines).Relaying? <==> AllPass(lines)
  {
    if lines != [] {
      var n := |lines| - 1;
      ZeroIff(lines[..n], printed);
      assert lines == lines[..n] + [lines[n]];
      FalseVerdictGrows(lines[..n], lines[n]);
      AllPassGrows(lines[..n], lines[n]);
    }
  }

  lemma AllPassGrows(before: seq<string>, line: string)
    ensures AllPass(before + [line]) <==> AllPass(before) && Passes(line)
  {
    if AllPass(before + [line]) {
      forall i | 0 <= i < |before| ensures Passes(before[i]) { assert (before + [line])[i] == before[i]; }
      assert (before + [line])[|before|] == line;
    }
  }

  lemma AnswerThen(chunks: seq<string>, error: Option<string>)
    ensures Outcome(Answer(chunks, error)) == AllLines(Relaying(Trimmed(OutputLines(chunks))), Scan(Verdict(error)))
  {
    OutputThen(chunks, Verdict(error));
  }

  /** A failed deploy lets the push through if and only if its error text, read as lines
      after its first, would itself be taken for a success. */
  lemma FailedDeployExitsZeroIff(chunks: seq<string>, error: string)
    ensures ExitCode(Outcome(Answer(chunks, Some(error)))) == 0 <==> FalseVerdict(Trimmed(Split(error)[1..]))
  {
    OneLinePrefixes();
    FailedAnswerIff(chunks, FAILED, error);
  }

  lemma OneLinePrefixes()
    ensures NoNewline(FAILED) && NoNewline(REFUSED)
  {}

  lemma FailedAnswerIff(chunks: seq<string>, prefix: string, error: string)
    requires NoNewline(prefix)
    ensures ExitCode(Outcome(Concat(Banded(OutputLines(chunks))) + Failed(prefix + error))) == 0
            <==> FalseVerdict(Trimmed(Split(error)[1..]))
  {
    OutputThen(chunks, Failed(prefix + error));
    FailureRead(Trimmed(OutputLines(chunks)), prefix, error);
  }

  lemma FailureRead(printed: seq<string>, prefix: string, error: string)
    requires NoNewline(prefix)
    ensures ExitCode(AllLines(Relaying(printed), Scan(Failed(prefix + error)))) == 0
        <==> FalseVerdict(Trimmed(Split(error)[1..]))
  {
    ScanFailed(prefix + error);
    SplitAfter(prefix, error);
    var (first, more) := (Trim(Split(prefix + error)[0]), Trimmed(Split(error)[1..]));
    LinesAppend(Relaying(printed), [OUTPUT + first], more + [STATUS + "1"]);
    FirstWords(printed, first);
    LastWords(printed + [first], more);
  }

  /** A refused request passes under the same condition on its reason, and a reason of one
      line is printed and rejects the push. */
  lemma RefusalExitsZeroIff(reason: string)
    ensures ExitCode(Outcome(Failed(REFUSED + reason))) == 0 <==> FalseVerdict(Trimmed(Split(reason)[1..]))
    ensures NoNewline(reason) ==>
      Outcome(Failed(REFUSED + reason)) == Exited([Trim("-----> refused: " + reason)], 1)
  {
    OneLinePrefixes();
    FailureRead([], REFUSED, reason);
    if NoNewline(reason) { OneLineError([], REFUSED + reason); }
  }

  lemma LastWords(printed: seq<string>, more: seq<string>)
    ensures ExitCode(AllLines(Relaying(printed), more + [STATUS + "1"])) == 0 <==> FalseVerdict(more)
  {
    ZeroIff(more + [STATUS + "1"], printed);
    FalseVerdictGrows(more, STATUS + "1");
    NotZero();
  }

  lemma FirstWords(printed: seq<string>, text: string)
    ensures AllLines(Relaying(printed), [OUTPUT + text]) == Relaying(printed + [text])
  {
    OneOutput(Relaying(printed), text);
    LastLine(Relaying(printed), [], OUTPUT + text);
    assert [] + [OUTPUT + text] == [OUTPUT + text];
  }

  lemma NotZero()
    ensures !SaysZero(STATUS + "1")
  {
    var line := STATUS + "1";
    assert line[1..] == "1" && "1"[..0] == "";
    assert Value("1") == 1;
  }

  lemma SliceAfter(prefix: string, s: string, i: nat)
    requires i < |s|
    ensures (prefix + s)[..|prefix| + i] == prefix + s[..i] && (prefix + s)[|prefix| + i + 1..] == s[i + 1..]
  {}

  lemma NewlineAfter(prefix: string, s: string)
    requires NoNewline(prefix)
    ensures NewlineAt(prefix + s) == if NoNewline(s) then -1 else |prefix| + NewlineAt(s)
  {
    var (t, i) := (prefix + s, NewlineAt(s));
    if i != -1 {
      SliceAfter(prefix, s, i);
      OneFirstNewline(t, |prefix| + i, NewlineAt(t));
    }
  }

  lemma SplitAfter(prefix: string, s: string)
    requires NoNewline(prefix)
    ensures Split(prefix + s) == [prefix + Split(s)[0]] + Split(s)[1..]
  {
    NewlineAfter(prefix, s);
    var i := NewlineAt(s);
    if i != -1 {
      SliceAfter(prefix, s, i);
      FirstPart(prefix + s, prefix + s[..i], s[i + 1..]);
      FirstPart(s, s[..i], s[i + 1..]);
    }
  }

  lemma FirstPart(s: string, part: string, rest: string)
    requires NewlineAt(s) != -1 && s[..NewlineAt(s)] == part && s[NewlineAt(s) + 1..] == rest
    ensures Split(s) == [part] + Split(rest) && Split(s)[0] == part && Split(s)[1..] == Split(rest)
  {}

  /** The promise: whatever a deploy writes, and for any error text of one line, the hook
      prints the deployer's lines in order and exits 0 exactly when the deploy succeeded. */
  lemma PushVerdictIsFaithful(chunks: seq<string>, error: Option<string>)
    requires error.Some? ==> NoNewline(error.value)
    ensures Outcome(Answer(chunks, error)) ==
            Exited(Trimmed(OutputLines(chunks))
                   + (if error.Some? then [Trim("-----> deploy failed: " + error.value)] else []),
                   if error.Some? then 1 else 0)
  {
    AnswerThen(chunks, error);
    VerdictRead(Trimmed(OutputLines(chunks)), error);
  }

  /** The lines are the deployer's: while none of them reaches 64 KiB, those of its output as a
      whole, however the output was cut into writes. */
  lemma OutputIsTheDeployers(chunks: seq<string>, lines: seq<string>, rest: string)
    requires NoNewline(rest) && AreLines(lines) && Concat(chunks) == Concat(lines) + rest
    requires |rest| < 65_536 && forall i | 0 <= i < |lines| :: |lines[i]| - 1 < 65_536
    ensures AreTexts(OutputLines(chunks), lines, rest)
  {
    AllBelow(lines, rest, MAX_LINE);
    WritesBelowMaximum(chunks, MAX_LINE);
    StreamOfLines(chunks, lines, rest);
  }

  /** And of any output: cut apart where its lines end, and elsewhere only every 65536 bytes. */
  lemma LongLinesAreCut(chunks: seq<string>) returns (pieces: seq<string>, rest: string)
    ensures Concat(pieces) + rest == Concat(chunks) && NoNewline(rest) && |rest| < 65_536
    ensures forall i | 0 <= i < |pieces| :: IsLine(pieces[i]) || (NoNewline(pieces[i]) && |pieces[i]| == 65_536)
    ensures OutputLines(chunks) == LinesOf(pieces) + Last(rest)
  {
    pieces, rest := RawPieces(chunks, MAX_LINE), AfterWrites(chunks, MAX_LINE).1;
    WritesAreTheInput(chunks, MAX_LINE);
    RawPiecesReachMaximum(chunks, MAX_LINE);
    BufferIsShort(chunks, MAX_LINE);
    forall i | 0 <= i < |pieces| ensures LineOrMaximum(pieces[i], MAX_LINE) {}
  }

  predicate Plain(text: string) { NoNewline(text) && NoReturn(text) && |text| < 65_536 }

  /** What the pusher sees, text for text. */
  lemma PlainOutputIsPrinted(chunks: seq<string>, texts: seq<string>, rest: string, error: Option<string>)
    requires Concat(chunks) == Concat(Ended(texts)) + rest
    requires Plain(rest) && forall i | 0 <= i < |texts| :: Plain(texts[i])
    requires error.Some? ==> NoNewline(error.value) && NoReturn(error.value)
    ensures Outcome(Answer(chunks, error)) ==
            Exited(texts + (if rest == "" then [] else [rest])
                   + (if error.Some? then ["-----> deploy failed: " + error.value] else []),
                   if error.Some? then 1 else 0)
  {
    var lines := Ended(texts);
    forall i | 0 <= i < |texts| ensures IsLine(lines[i]) && LineOf(lines[i]) == texts[i] { EndedLine(texts[i]); }
    OutputIsTheDeployers(chunks, lines, rest);
    TextsOfPlain(OutputLines(chunks), texts, rest);
    PushVerdictIsFaithful(chunks, error);
    assert error.Some? && error.value != "" ==> NoReturn("-----> deploy failed: " + error.value);
  }

  lemma TextsOfPlain(printed: seq<string>, texts: seq<string>, rest: string)
    requires AreTexts(printed, Ended(texts), rest)
    requires NoReturn(rest) && forall i | 0 <= i < |texts| :: NoReturn(texts[i])
    ensures Trimmed(printed) == texts + (if rest == "" then [] else [rest])
  {
    forall i | 0 <= i < |texts| ensures printed[i] == texts[i] { OneText(Ended(texts)[i], printed[i], texts[i]); }
    if rest != "" { OneRest(rest, printed[|texts|]); }
  }

  lemma OneText(line: string, printed: string, text: string)
    requires line == text + "\n" && Reads(line, printed) && NoReturn(text)
    ensures printed == text
  {
    assert line[..|line| - 1] == text;
    assert (printed + "\n")[..|printed|] == printed && (printed + "\r\n")[..|printed| + 1] == printed + "\r";
  }

  lemma OneRest(rest: string, printed: string)
    requires ReadsRest(rest, printed) && NoReturn(rest)
    ensures printed == rest
  {}

  lemma VerdictRead(printed: seq<string>, error: Option<string>)
    requires error.Some? ==> NoNewline(error.value)
    ensures AllLines(Relaying(printed), Scan(Verdict(error))) ==
            Exited(printed + (if error.Some? then [Trim(FAILED + error.value)] else []), if error.Some? then 1 else 0)
  {
    if error.None? {
      ScanStatus("0");
      StatusEnds(printed, "0");
      assert printed + [] == printed;
    } else {
      OneLineError(printed, FAILED + error.value);
    }
  }

  lemma OneLineError(printed: seq<string>, why: string)
    requires NoNewline(why)
    ensures AllLines(Relaying(printed), Scan(Failed(why))) == Exited(printed + [Trim(why)], 1)
  {
    assert Split(why) == [why];
    ScanFailed(why);
    assert Scan(Failed(why)) == [OUTPUT + Trim(why)] + [STATUS + "1"];
    LinesAppend(Relaying(printed), [OUTPUT + Trim(why)], [STATUS + "1"]);
    FirstWords(printed, Trim(why));
    StatusEnds(printed + [Trim(why)], "1");
  }

  /** The exit code is the number the first status gives; one that is no number or negative
      rejects the push, and so do a line of no band and an end without a status. */
  lemma StatusIsTheExitCode(texts: seq<string>, n: int, rest: string)
    requires AllNoNewline(texts)
    ensures ExitCode(Outcome(Concat(Framed(texts)) + ("2" + FormatInt(n) + "\n" + rest))) ==
            if 0 <= n <= 9_223_372_036_854_775_807 then n else 1
  {
    var line := "2" + FormatInt(n) + "\n";
    FormatParses(n);
    FormatHasNoNewline(n);
    NumberRead(Trimmed(texts), FormatInt(n), rest);
    assert Framed(texts) == Banded(texts);
    TextsThen(texts, line + rest);
  }

  lemma NumberRead(printed: seq<string>, number: string, rest: string)
    requires NoNewline(number) && NoReturn(number)
    ensures var end := AllLines(Relaying(printed), Scan("2" + number + "\n" + rest));
      end == Exited(printed, if ParseInt(number).None? || ParseInt(number).value < 0 then 1 else
                               ParseInt(number).value)
  {
    var line := "2" + number;
    LineRead(Relaying(printed), line, rest);
    assert line[0] == '2' && line[1..] == number;
    ExitedStays(OneLine(Relaying(printed), line), Scan(rest));
  }

  lemma LineRead(st: Client, line: string, rest: string)
    requires NoNewline(line)
    ensures AllLines(st, Scan(line + "\n" + rest)) == AllLines(OneLine(st, Trim(line)), Scan(rest))
  {
    ScanEnded(line, rest);
    LinesAppend(st, [Trim(line)], Scan(rest));
    assert [Trim(line)][..0] == [];
  }

  lemma FormatHasNoNewline(n: int)
    ensures NoNewline(FormatInt(n)) && NoReturn(FormatInt(n))
  {
    DigitsAreRight(if n < 0 then -n else n);
  }

  /** A line of no band rejects the push, whatever follows, and so does an answer that ends
      without a status. */
  lemma NoStatusRejects(texts: seq<string>, line: string, rest: string)
    requires AllNoNewline(texts) && NoNewline(line)
    requires Trim(line) != "" && line[0] != '1' && line[0] != '2'
    ensures ExitCode(Outcome(Concat(Framed(texts)))) == 1
    ensures ExitCode(Outcome(Concat(Framed(texts)) + (line + "\n" + rest))) == 1
  {
    assert Framed(texts) == Banded(texts);
    TextsThen(texts, "");
    ScanOfNothing();
    assert Concat(Framed(texts)) + "" == Concat(Framed(texts));
    TextsThen(texts, line + "\n" + rest);
    LineRead(Relaying(Trimmed(texts)), line, rest);
    ExitedStays(OneLine(Relaying(Trimmed(texts)), Trim(line)), Scan(rest));
  }

  /** An error text that breaks the promise for its second line. */
  lemma ErrorTextCanPass(chunks: seq<string>)
    ensures ExitCode(Outcome(Answer(chunks, Some("failed\n20")))) == 0
  {
    FailedDeployExitsZeroIff(chunks, "failed\n20");
    TwoLines();
    ZeroOnItsOwn();
  }

  lemma TwoLines()
    ensures Trimmed(Split("failed\n20")[1..]) == ["20"]
  {
    var error := "failed\n20";
    OneFirstNewline(error, 6, NewlineAt(error));
    assert error[7..] == "20" && NoNewline("20");
    assert Split("20") == ["20"];
    assert Split(error)[1..] == ["20"];
  }

  lemma ZeroOnItsOwn()
    ensures FalseVerdict(["20"])
  {
    var line := "20";
    assert line[1..] == "0" && "0"[..0] == "" && Value("0") == 0;
    assert FirstZero([line], 0);
  }

  // ----------------------------------------------------------- a connection cut off

  /** A frame of output. */
  predicate Harmless(piece: string) { IsLine(piece) && piece[0] == '1' }

  lemma HarmlessPrefix(piece: string, m: nat)
    requires Harmless(piece) && m <= |piece| - 1
    ensures NoNewline(piece[..m]) && (m > 0 ==> !SaysZero(Trim(piece[..m])))
  {
    assert piece[..m] == piece[..|piece| - 1][..m];
    if m > 0 { assert piece[..m][0] == piece[0]; }
  }

  lemma {:induction false} NoZeroInCut(pieces: seq<string>, n: nat)
    requires n <= |Concat(pieces)| && forall i | 0 <= i < |pieces| :: Harmless(pieces[i])
    ensures forall i | 0 <= i < |Scan(Concat(pieces)[..n])| :: !SaysZero(Scan(Concat(pieces)[..n])[i])
  {
    if pieces == [] {
      ScanOfNothing();
    } else {
      var (piece, rest) := (pieces[0], Concat(pieces[1..]));
      if n < |piece| {
        assert Concat(pieces)[..n] == piece[..n];
        HarmlessPrefix(piece, n);
        ScanUnfinished(piece[..n]);
      } else {
        NoZeroInCut(pieces[1..], n - |piece|);
        assert Concat(pieces)[..n] == piece + rest[..n - |piece|];
        HarmlessPrefix(piece, |piece| - 1);
        ScanOne(piece, rest[..n - |piece|]);
      }
    }
  }

  lemma ScanUnfinished(part: string)
    requires NoNewline(part)
    ensures Scan(part) == if part == "" then [] else [Trim(part)]
  {
    assert Cut(part, 0) == 0 && Pieces(part, 0) == [] && LinesOf([]) == [];
    assert [] + Last(part) == Last(part);
  }

  lemma ScanOne(piece: string, rest: string)
    requires IsLine(piece)
    ensures Scan(piece + rest) == [Trim(piece[..|piece| - 1])] + Scan(rest)
  {
    ScanPieces([piece], rest);
    assert Concat([piece]) == piece;
    assert LinesOf([piece]) == [LineOf(piece)];
  }

  // ------------------------------------------------------------- the longest line

  /** The lines the hook's scanner delivers before it gives up, if it does: at a line longer
      than `longest` with its newline, or an unfinished one as long. */
  ghost function ScanWithin(stream: string, longest: nat): seq<string>
    decreases |stream|
  {
    var n := Cut(stream, 0);
    if n == 0 then (if |stream| < longest then Last(stream) else [])
    else if n <= longest then [LineOf(stream[..n])] + ScanWithin(stream[n..], longest)
    else []
  }

  const LONGEST := 1_048_576

  /** What the hook makes of the daemon's bytes through that scanner: one that has given up
      ends like a connection without a status. */
  ghost function Heard(bytes: string): Client { AllLines(BEGIN, ScanWithin(bytes, LONGEST)) }

  lemma ScanWithinOne(line: string, rest: string, longest: nat)
    requires IsLine(line)
    ensures ScanWithin(line + rest, longest) ==
            if |line| <= longest then [LineOf(line)] + ScanWithin(rest, longest) else []
  {
    NewlineOfLine(line, rest);
    assert (line + rest)[..|line|] == line;
  }

  predicate AllWithin(texts: seq<string>, most: nat) { forall i | 0 <= i < |texts| :: |texts[i]| <= most }

  lemma {:induction false} ShortLinesAreDelivered(lines: seq<string>, rest: string, longest: nat)
    requires AreLines(lines) && AllWithin(lines, longest)
    ensures ScanWithin(Concat(lines) + rest, longest) == LinesOf(lines) + ScanWithin(rest, longest)
  {
    if lines == [] {
      assert Concat(lines) + rest == rest;
    } else {
      ShortLinesAreDelivered(lines[1..], rest, longest);
      ShortLineFirst(lines[0], lines[1..], rest, longest);
      assert lines == [lines[0]] + lines[1..];
    }
  }

  lemma ShortLineFirst(line: string, more: seq<string>, rest: string, longest: nat)
    requires IsLine(line) && |line| <= longest
    requires ScanWithin(Concat(more) + rest, longest) == LinesOf(more) + ScanWithin(rest, longest)
    ensures ScanWithin(Concat([line] + more) + rest, longest) == LinesOf([line] + more) + ScanWithin(rest, longest)
  {
    ConcatFirst(line, more);
    Reassociate(line, Concat(more), rest);
    var (tail, lines, end) := (Concat(more) + rest, LinesOf(more), ScanWithin(rest, longest));
    ScanWithinOne(line, tail, longest);
    FirstOfLines(line, more);
    Associate([], LineOf(line), lines);
    Regroup([LineOf(line)], lines, end);
  }

  lemma FirstOfLines(line: string, more: seq<string>)
    ensures LinesOf([line] + more) == [LineOf(line)] + LinesOf(more)
  {
    LinesOfAppend([line], more);
  }

  lemma {:induction false} FirstTooLong(texts: seq<string>, most: nat) returns (k: nat)
    ensures k <= |texts| && AllWithin(texts[..k], most) && (k < |texts| ==> most < |texts[k]|)
  {
    k := 0;
    while k < |texts| && |texts[k]| <= most
      invariant k <= |texts| && forall i | 0 <= i < k :: |texts[i]| <= most
    {
      k := k + 1;
    }
  }

  /** The push of a deploy that succeeded is let through if and only if no line the daemon
      sends has more than 1048574 bytes. */
  lemma SuccessIsHeardIff(chunks: seq<string>)
    ensures ExitCode(Heard(Answer(chunks, None))) ==
            if AllWithin(OutputLines(chunks), 1_048_574) then 0 else 1
  {
    OutputIsClean(chunks);
    HeardIff(OutputLines(chunks));
  }

  lemma HeardIff(texts: seq<string>)
    requires AllNoNewline(texts)
    ensures ExitCode(Heard(Concat(Banded(texts)) + Piece(STATUS, "0"))) ==
            if AllWithin(texts, 1_048_574) then 0 else 1
  {
    var k := FirstTooLong(texts, 1_048_574);
    if k == |texts| {
      assert texts[..k] == texts;
      ScanWithinStatus();
      HeardUpTo(texts, Piece(STATUS, "0"));
      StatusEnds(Trimmed(texts), "0");
    } else {
      var (text, rest) := (texts[k], Concat(Banded(texts[k + 1..])) + Piece(STATUS, "0"));
      BandedSplit(texts, k);
      Reassociate(Piece(OUTPUT, text), Concat(Banded(texts[k + 1..])), Piece(STATUS, "0"));
      Reassociate(Concat(Banded(texts[..k])), Piece(OUTPUT, text) + Concat(Banded(texts[k + 1..])), Piece(STATUS, "0"));
      LabelledPiece(OUTPUT, text);
      ScanWithinOne(Piece(OUTPUT, text), rest, LONGEST);
      HeardUpTo(texts[..k], Piece(OUTPUT, text) + rest);
    }
  }

  lemma BandedSplit(texts: seq<string>, k: nat)
    requires k < |texts|
    ensures Concat(Banded(texts)) ==
            Concat(Banded(texts[..k])) + (Piece(OUTPUT, texts[k]) + Concat(Banded(texts[k + 1..])))
  {
    assert Banded(texts) == Banded(texts[..k]) + ([Piece(OUTPUT, texts[k])] + Banded(texts[k + 1..]));
    ConcatTwo(Banded(texts[..k]), [Piece(OUTPUT, texts[k])] + Banded(texts[k + 1..]));
    ConcatFirst(Piece(OUTPUT, texts[k]), Banded(texts[k + 1..]));
  }

  lemma HeardUpTo(texts: seq<string>, rest: string)
    requires AllNoNewline(texts) && AllWithin(texts, 1_048_574)
    ensures Heard(Concat(Banded(texts)) + rest) == AllLines(Relaying(Trimmed(texts)), ScanWithin(rest, LONGEST))
  {
    BandedAreLines(texts);
    forall i | 0 <= i < |texts| ensures |Banded(texts)[i]| <= LONGEST {}
    ShortLinesAreDelivered(Banded(texts), rest, LONGEST);
    LinesAppend(BEGIN, LinesOf(Banded(texts)), ScanWithin(rest, LONGEST));
    BandedRelayed(texts);
  }

  lemma ScanWithinStatus()
    ensures ScanWithin(Piece(STATUS, "0"), LONGEST) == [STATUS + "0"]
  {
    var piece := Piece(STATUS, "0");
    LabelledPiece(STATUS, "0");
    ScanWithinOne(piece, "", LONGEST);
    assert piece + "" == piece && Cut("", 0) == 0;
  }

  /** Writes of 983040 bytes at most keep every line short enough; the maximum of 64 KiB alone
      does not, since it cuts no line whose newline comes with the same write. */
  lemma SmallWritesAreHeard(chunks: seq<string>)
    requires forall i | 0 <= i < |chunks| :: |chunks[i]| <= 983_040
    ensures ExitCode(Heard(Answer(chunks, None))) == 0
  {
    LinesOfSmallWrites(chunks);
    var (lines, rest) := AfterWrites(chunks, MAX_LINE);
    BufferIsShort(chunks, MAX_LINE);
    SuccessIsHeardIff(chunks);
  }

  lemma {:induction false} LinesOfSmallWrites(chunks: seq<string>)
    requires forall i | 0 <= i < |chunks| :: |chunks[i]| <= 983_040
    ensures AllWithin(AfterWrites(chunks, MAX_LINE).0, 1_048_574)
  {
    if chunks != [] {
      var n := |chunks| - 1;
      LinesOfSmallWrites(chunks[..n]);
      BufferIsShort(chunks[..n], MAX_LINE);
      EmittedAreShort(AfterWrites(chunks[..n], MAX_LINE).1 + chunks[n], MAX_LINE);
    }
  }

  /** A line is shorter than the buffer it is taken from, unless it is the maximum. */
  lemma {:induction false} EmittedAreShort(buf: string, max: nat)
    requires max > 0
    ensures forall i | 0 <= i < |Emitted(buf, max)| ::
      |Emitted(buf, max)[i]| <= max || |Emitted(buf, max)[i]| < |buf|
    decreases |buf|
  {
    var n := Cut(buf, max);
    if n > 0 {
      EmittedAreShort(buf[n..], max);
      FirstPiece(buf, max);
      CutLine(buf, max);
    }
  }

  /** One write of a longer line makes a push of a deploy that succeeded exit 1. */
  lemma LongLineIsNotHeard(chunks: seq<string>, text: string)
    requires chunks == [text + "\n"] && NoNewline(text) && NoReturn(text) && 1_048_574 < |text|
    ensures ExitCode(Heard(Answer(chunks, None))) == 1
  {
    EndedLine(text);
    OneWrite(text + "\n");
    SuccessIsHeardIff(chunks);
    assert OutputLines(chunks)[0] == text && !AllWithin(OutputLines(chunks), 1_048_574);
  }

  lemma OneWrite(line: string)
    requires IsLine(line)
    ensures OutputLines([line]) == [LineOf(line)]
  {
    assert [line][..0] == [] && [line][0] == line && "" + line == line;
    assert AfterWrites([line], MAX_LINE) == ([] + Emitted(line, MAX_LINE), Rest(line, MAX_LINE));
    OneLineOnly(line, MAX_LINE);
  }

  lemma OneLineOnly(line: string, max: int)
    requires IsLine(line) && max > 0
    ensures Emitted(line, max) == [LineOf(line)] && Rest(line, max) == ""
  {
    NewlineOfLine(line, "");
    assert line + "" == line && line[..|line|] == line && line[|line|..] == "";
    FirstPiece(line, max);
    assert Cut("", max) == 0 && Pieces("", max) == [] && Emitted("", max) == [];
  }

  /** What has arrived of a line would be taken for a success if nothing followed. */
  predicate ZeroPart(part: string) { part != "" && SaysZero(Trim(part)) }

  predicate BeginsZero(text: string, part: string) { part <= text && ZeroPart(part) }

  ghost predicate ZeroPrefix(text: string) { exists part :: BeginsZero(text, part) }

  /** Whether lines, cut off somewhere, would be taken for a success: one has such a beginning
      and those before it pass. */
  ghost predicate EarlyVerdict(lines: seq<string>) { exists k: nat :: EarlyAt(lines, k) }

  ghost predicate EarlyAt(lines: seq<string>, k: nat) {
    k < |lines| && ZeroPrefix(lines[k]) && forall i | 0 <= i < k :: Passes(Trim(lines[i]))
  }

  /** The connection breaks when `part` of the answer has arrived, and the hook exits 0. */
  ghost predicate PassesWith(answer: string, part: string) { part <= answer && ExitCode(Outcome(part)) == 0 }

  ghost predicate PassesCutOff(answer: string) { exists part :: PassesWith(answer, part) }

  /** The same of what follows when the hook has printed something already. */
  ghost predicate ReadsZeroWith(bytes: string, part: string) { part <= bytes && FalseVerdict(Scan(part)) }

  ghost predicate ReadsZero(bytes: string) { exists part :: ReadsZeroWith(bytes, part) }

  lemma FalseVerdictFirst(line: string, rest: seq<string>)
    ensures FalseVerdict([line] + rest) <==> SaysZero(line) || (Passes(line) && FalseVerdict(rest))
  {
    var lines := [line] + rest;
    if FalseVerdict(lines) {
      var k :| FirstZero(lines, k);
      if k > 0 {
        forall i | 0 <= i < k - 1 ensures Passes(rest[i]) { assert lines[i + 1] == rest[i]; }
        assert FirstZero(rest, k - 1);
        assert Passes(lines[0]);
      }
    }
    if SaysZero(line) { assert FirstZero(lines, 0); }
    if Passes(line) && FalseVerdict(rest) {
      var k :| FirstZero(rest, k);
      assert FirstZero(lines, k + 1);
    }
  }

  lemma EarlyVerdictFirst(line: string, rest: seq<string>)
    ensures EarlyVerdict([line] + rest) <==> ZeroPrefix(line) || (Passes(Trim(line)) && EarlyVerdict(rest))
  {
    if k: nat :| EarlyAt([line] + rest, k) {
      if k > 0 { EarlyLater(line, rest, k - 1); }
    }
    if ZeroPrefix(line) { assert EarlyAt([line] + rest, 0); }
    if Passes(Trim(line)) && EarlyVerdict(rest) {
      var k: nat :| EarlyAt(rest, k);
      EarlyLater(line, rest, k);
    }
  }

  lemma EarlyLater(line: string, rest: seq<string>, k: nat)
    ensures EarlyAt([line] + rest, k + 1) <==> Passes(Trim(line)) && EarlyAt(rest, k)
  {
    var lines := [line] + rest;
    assert lines[0] == line && forall i | 0 <= i < |rest| :: lines[i + 1] == rest[i];
    if EarlyAt(lines, k + 1) {
      forall i | 0 <= i < k ensures Passes(Trim(rest[i])) { assert lines[i + 1] == rest[i]; }
    }
  }

  lemma NothingIsNoVerdict()
    ensures !FalseVerdict([])
  {}

  /** A part of two pieces ends in the first or behind it. */
  lemma PartInside(a: string, b: string, part: string)
    requires part <= a + b && |part| <= |a|
    ensures part <= a
  {
    assert part == (a + b)[..|part|] == a[..|part|];
  }

  lemma PartBehind(a: string, b: string, part: string) returns (q: string)
    requires part <= a + b && |a| <= |part|
    ensures part == a + q && q <= b
  {
    q := part[|a|..];
    assert part == (a + b)[..|part|];
    assert q == b[..|q|];
  }

  lemma PartOfFirst(a: string, b: string, part: string)
    requires part <= a
    ensures part <= a + b
  {}

  lemma PartOfSecond(a: string, b: string, q: string)
    requires q <= b
    ensures a + q <= a + b
  {
    assert a + q == (a + b)[..|a + q|];
  }

  lemma NoNewlineInPart(text: string, part: string)
    requires NoNewline(text) && part <= text
    ensures NoNewline(part)
  {
    assert part == text[..|part|];
  }

  /** A cut inside a line. */
  lemma CutInLine(part: string)
    requires NoNewline(part)
    ensures FalseVerdict(Scan(part)) <==> ZeroPart(part)
  {
    ScanUnfinished(part);
    FalseVerdictFirst(Trim(part), []);
    assert [Trim(part)] + [] == [Trim(part)];
    NothingIsNoVerdict();
  }

  /** A cut behind a line. */
  lemma CutBehindLine(text: string, part: string)
    requires NoNewline(text)
    ensures FalseVerdict(Scan((text + "\n") + part)) <==>
            SaysZero(Trim(text)) || (Passes(Trim(text)) && FalseVerdict(Scan(part)))
  {
    ScanEnded(text, part);
    FalseVerdictFirst(Trim(text), Scan(part));
  }

  lemma ScanEnded(text: string, rest: string)
    requires NoNewline(text)
    ensures Scan((text + "\n") + rest) == [Trim(text)] + Scan(rest)
  {
    EndedLine(text);
    ScanOne(text + "\n", rest);
    assert (text + "\n")[..|text|] == text;
  }

  /** The cuts of a line and what follows it, put together. */
  lemma ReadsZeroFirst(text: string, rest: string)
    requires NoNewline(text)
    ensures ReadsZero((text + "\n") + rest) <==> ZeroPrefix(text) || (Passes(Trim(text)) && ReadsZero(rest))
  {
    if part :| ReadsZeroWith((text + "\n") + rest, part) { ReadsZeroThere(text, rest, part); }
    if part :| BeginsZero(text, part) { ReadsZeroHere(text, rest, part); }
    if Passes(Trim(text)) && ReadsZero(rest) { ReadsZeroLater(text, rest); }
  }

  lemma ReadsZeroThere(text: string, rest: string, part: string)
    requires NoNewline(text) && ReadsZeroWith((text + "\n") + rest, part)
    ensures ZeroPrefix(text) || (Passes(Trim(text)) && ReadsZero(rest))
  {
    if |part| <= |text| {
      PartInside(text + "\n", rest, part);
      PartInside(text, "\n", part);
      NoNewlineInPart(text, part);
      CutInLine(part);
      assert BeginsZero(text, part);
    } else {
      var q := PartBehind(text + "\n", rest, part);
      CutBehindLine(text, q);
      if SaysZero(Trim(text)) { assert BeginsZero(text, text); } else { assert ReadsZeroWith(rest, q); }
    }
  }

  lemma ReadsZeroHere(text: string, rest: string, part: string)
    requires NoNewline(text) && BeginsZero(text, part)
    ensures ReadsZero((text + "\n") + rest)
  {
    NoNewlineInPart(text, part);
    CutInLine(part);
    PartOfFirst(text, "\n", part);
    PartOfFirst(text + "\n", rest, part);
    assert ReadsZeroWith((text + "\n") + rest, part);
  }

  lemma ReadsZeroLater(text: string, rest: string)
    requires NoNewline(text) && Passes(Trim(text)) && ReadsZero(rest)
    ensures ReadsZero((text + "\n") + rest)
  {
    var part :| ReadsZeroWith(rest, part);
    CutBehindLine(text, part);
    PartOfSecond(text + "\n", rest, part);
    assert ReadsZeroWith((text + "\n") + rest, (text + "\n") + part);
  }

  lemma NothingReadsZero()
    ensures !ReadsZero("")
  {
    ScanOfNothing();
    NothingIsNoVerdict();
  }

  /** A stream of lines can be cut such that it reads as a success if and only if one of them
      begins like one and those before it pass. */
  lemma {:induction false} ReadsZeroIff(lines: seq<string>)
    requires AllNoNewline(lines)
    ensures ReadsZero(Concat(Ended(lines))) <==> EarlyVerdict(lines)
  {
    if lines == [] {
      NothingReadsZero();
    } else {
      var (text, more) := (lines[0], lines[1..]);
      ReadsZeroIff(more);
      assert Ended(lines)[1..] == Ended(more);
      ReadsZeroFirst(text, Concat(Ended(more)));
      assert lines == [text] + more;
      EarlyVerdictFirst(text, more);
    }
  }

  lemma OutputHasNoZero(text: string)
    ensures !ZeroPrefix(OUTPUT + text) && Passes(Trim(OUTPUT + text))
  {
    var line := OUTPUT + text;
    assert Trim(line)[0] == '1';
    forall part | part <= line ensures !ZeroPart(part) {
      if part != "" { assert Trim(part)[0] == part[0] == '1'; }
    }
  }

  lemma StatusHasNoZero()
    ensures !ZeroPrefix(STATUS + "1")
  {
    var line := STATUS + "1";
    NotZero();
    forall part | part <= line ensures !ZeroPart(part) {
      assert part == "" || part == "2" || part == "21";
      assert "2"[1..] == "" && ParseInt("") == None;
    }
  }

  /** A status of failure at the end is no early verdict, and saves nothing. */
  lemma {:induction false} StatusAddsNothing(lines: seq<string>)
    ensures EarlyVerdict(lines + [STATUS + "1"]) <==> EarlyVerdict(lines)
  {
    if lines == [] {
      StatusHasNoZero();
      EarlyVerdictFirst(STATUS + "1", []);
      assert [] + [STATUS + "1"] == [STATUS + "1"] + [];
    } else {
      var (line, more) := (lines[0], lines[1..]);
      StatusAddsNothing(more);
      EarlyVerdictFirst(line, more);
      EarlyVerdictFirst(line, more + [STATUS + "1"]);
      assert lines == [line] + more && lines + [STATUS + "1"] == [line] + (more + [STATUS + "1"]);
    }
  }

  /** The raw lines of a failure. */
  lemma FailedIsEnded(why: string)
    ensures var segments := Split(why);
      && AllNoNewline([OUTPUT + segments[0]] + (segments[1..] + [STATUS + "1"]))
      && Failed(why) == Concat(Ended([OUTPUT + segments[0]] + (segments[1..] + [STATUS + "1"])))
  {
    var segments := Split(why);
    SplitHasNoNewlines(why);
    JoinOfSplit(why);
    EndedJoin(OUTPUT, segments);
    EndedOfFailed(segments);
    var head := [Piece(OUTPUT, segments[0])] + Ended(segments[1..]);
    ConcatTwo(head, [Piece(STATUS, "1")]);
    assert Concat([Piece(STATUS, "1")]) == Piece(STATUS, "1");
  }

  lemma EndedOfFailed(segments: seq<string>)
    requires segments != []
    ensures Ended([OUTPUT + segments[0]] + (segments[1..] + [STATUS + "1"])) ==
            ([Piece(OUTPUT, segments[0])] + Ended(segments[1..])) + [Piece(STATUS, "1")]
  {}

  lemma FailedReadsZeroIff(prefix: string, error: string)
    requires NoNewline(prefix)
    ensures ReadsZero(Failed(prefix + error)) <==> EarlyVerdict(Split(error)[1..])
  {
    var (first, later) := (Split(prefix + error)[0], Split(error)[1..]);
    SplitAfter(prefix, error);
    FailedIsEnded(prefix + error);
    ReadsZeroIff([OUTPUT + first] + (later + [STATUS + "1"]));
    EarlyVerdictFirst(OUTPUT + first, later + [STATUS + "1"]);
    OutputHasNoZero(first);
    StatusAddsNothing(later);
  }

  /** What was printed before makes no difference. */
  lemma PassesAfterOutput(texts: seq<string>, part: string)
    requires AllNoNewline(texts)
    ensures ExitCode(Outcome(Concat(Banded(texts)) + part)) == 0 <==> FalseVerdict(Scan(part))
  {
    TextsThen(texts, part);
    ZeroIff(Scan(part), Trimmed(texts));
  }

  lemma NoPassInOutput(texts: seq<string>, part: string)
    requires AllNoNewline(texts) && part <= Concat(Banded(texts))
    ensures ExitCode(Outcome(part)) != 0
  {
    assert part == Concat(Banded(texts))[..|part|];
    CutInTexts(texts, |part|);
  }

  lemma PassesCutOffIff(texts: seq<string>, bytes: string)
    requires AllNoNewline(texts)
    ensures PassesCutOff(Concat(Banded(texts)) + bytes) <==> ReadsZero(bytes)
  {
    var output := Concat(Banded(texts));
    if part :| PassesWith(output + bytes, part) { PassesThere(texts, output, bytes, part); }
    if part :| ReadsZeroWith(bytes, part) {
      PassesAfterOutput(texts, part);
      PartOfSecond(output, bytes, part);
      assert PassesWith(output + bytes, output + part);
    }
  }

  lemma PassesThere(texts: seq<string>, output: string, bytes: string, part: string)
    requires AllNoNewline(texts) && output == Concat(Banded(texts)) && PassesWith(output + bytes, part)
    ensures ReadsZero(bytes)
  {
    if |part| <= |output| {
      PartInside(output, bytes, part);
      NoPassInOutput(texts, part);
    } else {
      var q := PartBehind(output, bytes, part);
      PassesAfterOutput(texts, q);
      assert ReadsZeroWith(bytes, q);
    }
  }

  /** A failed deploy can pass on a connection that breaks if and only if a line of its error
      text after the first begins like a status of zero and those between pass as output. */
  lemma CutFailurePassesIff(chunks: seq<string>, error: string)
    ensures PassesCutOff(Answer(chunks, Some(error))) <==> EarlyVerdict(Split(error)[1..])
  {
    OneLinePrefixes();
    OutputIsClean(chunks);
    FailedCutIff(OutputLines(chunks), FAILED, error);
  }

  lemma FailedCutIff(texts: seq<string>, prefix: string, error: string)
    requires AllNoNewline(texts) && NoNewline(prefix)
    ensures PassesCutOff(Concat(Banded(texts)) + Failed(prefix + error)) <==> EarlyVerdict(Split(error)[1..])
  {
    PassesCutOffIff(texts, Failed(prefix + error));
    FailedReadsZeroIff(prefix, error);
  }

  /** So can a refused request, under the same condition on its reason. */
  lemma CutRefusalPassesIff(reason: string)
    ensures PassesCutOff(Failed(REFUSED + reason)) <==> EarlyVerdict(Split(reason)[1..])
  {
    OneLinePrefixes();
    FailedCutIff([], REFUSED, reason);
    assert Banded([]) == [] && Concat([]) + Failed(REFUSED + reason) == Failed(REFUSED + reason);
  }

  /** What a caller can look for: a line begins like a status of zero if and only if it
      begins with 20, 2+0 or 2-0. */
  lemma ZeroPrefixIff(text: string)
    ensures ZeroPrefix(text) <==> "20" <= text || "2+0" <= text || "2-0" <= text
  {
    if part :| BeginsZero(text, part) {
      ZeroBegins(Trim(part));
      assert Trim(part) <= part <= text;
    }
    ZeroTexts();
    if "20" <= text { assert BeginsZero(text, "20"); }
    if "2+0" <= text { assert BeginsZero(text, "2+0"); }
    if "2-0" <= text { assert BeginsZero(text, "2-0"); }
  }

  lemma ZeroTexts()
    ensures SaysZero("20") && SaysZero("2+0") && SaysZero("2-0")
  {
    assert "0"[..0] == "" && Value("0") == 0;
    assert "20"[1..] == "0" && "2+0"[1..] == "+0" && "2-0"[1..] == "-0" && "+0"[1..] == "0" && "-0"[1..] == "0";
  }

  lemma ZeroBegins(line: string)
    requires SaysZero(line)
    ensures "20" <= line || "2+0" <= line || "2-0" <= line
  {
    var number := line[1..];
    var digits := if number[0] == '-' || number[0] == '+' then number[1..] else number;
    ZeroValue(digits);
  }

  lemma {:induction false} ZeroValue(digits: string)
    requires AllDigits(digits) && Value(digits) == 0
    ensures digits[0] == '0'
  {
    var n := |digits| - 1;
    if n > 0 { ZeroValue(digits[..n]); }
  }

  /** Wherever the connection breaks, a push whose deploy failed is rejected, unless its error
      text has such a line; a text of one line has none. */
  lemma CutAnswerNeverPasses(chunks: seq<string>, error: string, n: nat)
    requires !EarlyVerdict(Split(error)[1..]) && n <= |Answer(chunks, Some(error))|
    ensures ExitCode(Outcome(Answer(chunks, Some(error))[..n])) != 0
  {
    CutFailurePassesIff(chunks, error);
    assert Answer(chunks, Some(error))[..n] <= Answer(chunks, Some(error));
    assert !PassesWith(Answer(chunks, Some(error)), Answer(chunks, Some(error))[..n]);
  }

  lemma OneLineIsSafe(error: string)
    requires NoNewline(error)
    ensures !EarlyVerdict(Split(error)[1..])
  {}

  /** A text that is rejected when all of the answer arrives and can pass when it does not. */
  lemma CutErrorTextCanPass(chunks: seq<string>)
    ensures ExitCode(Outcome(Answer(chunks, Some("x\n205")))) != 0
    ensures PassesCutOff(Answer(chunks, Some("x\n205")))
  {
    var error := "x\n205";
    FailedDeployExitsZeroIff(chunks, error);
    CutFailurePassesIff(chunks, error);
    FiveAfterX();
    FiveIsNotZero();
    ZeroPrefixIff("205");
    assert EarlyAt(["205"], 0);
  }

  lemma FiveAfterX()
    ensures Split("x\n205")[1..] == ["205"] && Trimmed(["205"]) == ["205"]
  {
    var error := "x\n205";
    OneFirstNewline(error, 1, NewlineAt(error));
    assert error[2..] == "205" && NoNewline("205");
    assert Split("205") == ["205"];
  }

  lemma FiveIsNotZero()
    ensures !FalseVerdict(["205"])
  {
    var digits := "05";
    assert digits[..1] == "0" && "0"[..0] == "" && Value("0") == 0 && Value(digits) == 5;
    assert "205"[1..] == digits;
    NothingIsNoVerdict();
    FalseVerdictFirst("205", []);
    assert ["205"] + [] == ["205"];
  }

  /** And one whose deploy succeeded passes once its status digit has arrived, not before. */
  lemma CutSuccessPassesIff(chunks: seq<string>, n: nat)
    requires n <= |Answer(chunks, None)|
    ensures ExitCode(Outcome(Answer(chunks, None)[..n])) == 0 <==> |Answer(chunks, None)| - 1 <= n
  {
    var output := Concat(Banded(OutputLines(chunks)));
    if |output| < n {
      TakeBeyond(output, Piece(STATUS, "0"), n);
      CutInStatus(chunks, n - |output|);
    } else {
      TakeWithin(output, Piece(STATUS, "0"), n);
      OutputIsClean(chunks);
      CutInTexts(OutputLines(chunks), n);
    }
  }

  lemma TakeBeyond(a: string, b: string, n: nat)
    requires |a| <= n <= |a + b|
    ensures (a + b)[..n] == a + b[..n - |a|]
  {}

  lemma TakeWithin(a: string, b: string, n: nat)
    requires n <= |a|
    ensures (a + b)[..n] == a[..n]
  {}

  lemma CutInStatus(chunks: seq<string>, m: nat)
    requires 0 < m <= 3
    ensures ExitCode(Outcome(Concat(Banded(OutputLines(chunks))) + Piece(STATUS, "0")[..m])) == 0 <==> 2 <= m
  {
    OutputThen(chunks, Piece(STATUS, "0")[..m]);
    StatusPart(Trimmed(OutputLines(chunks)), m);
  }

  lemma CutInTexts(texts: seq<string>, n: nat)
    requires AllNoNewline(texts) && n <= |Concat(Banded(texts))|
    ensures ExitCode(Outcome(Concat(Banded(texts))[..n])) != 0
  {
    OutputIsHarmless(texts);
    NoZeroInCut(Banded(texts), n);
    ZeroIff(Scan(Concat(Banded(texts))[..n]), []);
  }

  lemma OutputIsHarmless(texts: seq<string>)
    requires AllNoNewline(texts)
    ensures forall i | 0 <= i < |texts| :: Harmless(Banded(texts)[i])
  {
    BandedLines(texts);
    forall i | 0 <= i < |texts| ensures Harmless(Banded(texts)[i]) { assert Banded(texts)[i][0] == '1'; }
  }

  lemma StatusPart(printed: seq<string>, m: nat)
    requires 0 < m <= 3
    ensures ExitCode(AllLines(Relaying(printed), Scan(Piece(STATUS, "0")[..m]))) == 0 <==> 2 <= m
  {
    var part := Piece(STATUS, "0")[..m];
    StatusEnds(printed, "0");
    if m == 3 {
      assert part == Piece(STATUS, "0");
      ScanStatus("0");
    } else {
      ScanUnfinished(part);
      var two := STATUS + "0";
      assert m == 2 ==> part == two;
      if m == 1 {
        assert part == "2" && part[1..] == "" && ParseInt("") == None;
        LastLine(Relaying(printed), [], part);
        assert [] + [part] == [part];
      }
    }
  }
}
